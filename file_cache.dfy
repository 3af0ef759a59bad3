/** The file-backed cache: one file per key under a base directory, named by
    a digest of the key, holding an entry envelope with the encoded value and
    its expiry time; expired entries are removed lazily, on read. */
module FileCache {
  import opened Wrappers
  import opened Text
  import opened Cache

  /** What a file on disk holds: text, or something the reader cannot read
      (a permission error, a directory in the way). */
  datatype FileState = Stored(content: string) | Unreadable

  /** The part of the file system the cache sees. Paths in `lockedDirs`
      cannot be created as directories, paths in `lockedFiles` can be
      neither written nor removed; every I/O failure of the cache is one of
      these, so which call fails is decided by the environment. */
  datatype Disk = Disk(files: map<string, FileState>, lockedDirs: set<string>, lockedFiles: set<string>)

  /** The errors of the cache, one per `return fmt.Errorf(...)` of the
      source, plus the sentinel `ErrCacheMiss`. */
  datatype CacheError =
    | Miss
    | ReadFailed
    | EntryUndecodable
    | DataUndecodable
    | MkdirFailed
    | WriteFailed
    | DeleteFailed

  /** A value encoding (JSON in the source); `decode` may reject its input. */
  datatype Codec<!V> = Codec(encode: V -> string, decode: string -> Option<V>)

  /** A codec that reads back everything it writes. */
  ghost predicate Lawful<V(!new)>(c: Codec<V>) {
    forall v :: c.decode(c.encode(v)) == Some(v)
  }

  /** A hex-encoded SHA-256 digest: 64 characters. */
  type HexDigest = s: string | |s| == 64 witness seq(64, _ => '0')

  /** `keyToFilename`: the first two digest characters name a subdirectory,
      the rest the file. */
  function ShardedPath(baseDir: string, h: HexDigest): string {
    baseDir + "/" + h[..2] + "/" + h[2..] + ".json"
  }

  /** The subdirectory `Set` creates before writing. */
  function ShardDir(baseDir: string, h: HexDigest): string {
    baseDir + "/" + h[..2]
  }

  /** Under one base directory, different digests give different files. */
  lemma ShardedPathInjective(baseDir: string, h1: HexDigest, h2: HexDigest)
    ensures ShardedPath(baseDir, h1) == ShardedPath(baseDir, h2) ==> h1 == h2
  {
    if ShardedPath(baseDir, h1) == ShardedPath(baseDir, h2) {
      var n := |baseDir|;
      assert ShardedPath(baseDir, h1)[n + 1..n + 3] == h1[..2];
      assert ShardedPath(baseDir, h2)[n + 1..n + 3] == h2[..2];
      assert ShardedPath(baseDir, h1)[n + 4..n + 66] == h1[2..];
      assert ShardedPath(baseDir, h2)[n + 4..n + 66] == h2[2..];
      assert h1 == h1[..2] + h1[2..];
      assert h2 == h2[..2] + h2[2..];
    }
  }

  // ---------------------------------------------------------------------
  // The entry envelope: created time, optional expiry time and the encoded
  // value, separated by ';' (the JSON object of the source).

  /** Position of the first `c` in `s`. */
  function IndexOf(s: string, c: char): (r: Option<nat>)
    ensures r.None? ==> c !in s
    ensures r.Some? ==> r.value < |s| && s[r.value] == c && c !in s[..r.value]
  {
    if |s| == 0 then None
    else if s[0] == c then Some(0)
    else match IndexOf(s[1..], c)
      case None => None
      case Some(i) => assert s[..i + 1] == [s[0]] + s[1..][..i]; Some(i + 1)
  }

  lemma IndexOfAfter(a: string, c: char, b: string)
    requires c !in a
    ensures IndexOf(a + [c] + b, c) == Some(|a|)
  {
    var s := a + [c] + b;
    assert s[|a|] == c;
    assert forall k :: 0 <= k < |a| ==> s[k] == a[k];
  }

  function ExpiryField(t: Option<int>): string {
    match t
    case None => ""
    case Some(x) => IntToDecimal(x)
  }

  function EncodeEntry(e: Entry): string {
    IntToDecimal(e.createdAt) + ";" + ExpiryField(e.expiresAt) + ";" + e.data
  }

  function DecodeEntry(s: string): Option<Entry> {
    match IndexOf(s, ';')
    case None => None
    case Some(i) =>
      var rest := s[i + 1..];
      match IndexOf(rest, ';')
      case None => None
      case Some(j) =>
        var created := ParseInt(s[..i]);
        var expiry := rest[..j];
        var data := rest[j + 1..];
        if created.None? then None
        else if expiry == "" then Some(Entry(data, None, created.value))
        else match ParseInt(expiry)
          case None => None
          case Some(t) => Some(Entry(data, Some(t), created.value))
  }

  lemma NoSemicolonInDecimal(n: int)
    ensures ';' !in IntToDecimal(n)
  {
    if n >= 0 {
      assert IntToDecimal(n) == NatToDecimal(n);
    }
  }

  /** The envelope is read back exactly as it was written, whatever the value
      text holds (separators included). */
  lemma EntryRoundTrip(e: Entry)
    ensures DecodeEntry(EncodeEntry(e)) == Some(e)
  {
    var created := IntToDecimal(e.createdAt);
    var expiry := ExpiryField(e.expiresAt);
    NoSemicolonInDecimal(e.createdAt);
    if e.expiresAt.Some? {
      NoSemicolonInDecimal(e.expiresAt.value);
      ParseIntOfDecimal(e.expiresAt.value);
    }
    ParseIntOfDecimal(e.createdAt);
    var s := EncodeEntry(e);
    var tail := expiry + ";" + e.data;
    assert s == created + [';'] + tail;
    IndexOfAfter(created, ';', tail);
    assert s[|created| + 1..] == tail;
    assert s[..|created|] == created;
    assert tail == expiry + [';'] + e.data;
    IndexOfAfter(expiry, ';', e.data);
    assert tail[..|expiry|] == expiry;
    assert tail[|expiry| + 1..] == e.data;
    assert e.expiresAt.Some? ==> expiry != "";
  }

  // ---------------------------------------------------------------------
  // The operations on the disk, as functions of the disk before the call.

  /** `Delete`: removing an absent file is not an error. */
  function DeleteSpec(d: Disk, path: string): (Outcome<CacheError>, Disk) {
    if path !in d.files then (Pass, d)
    else if path in d.lockedFiles then (Fail(DeleteFailed), d)
    else (Pass, d.(files := d.files - {path}))
  }

  /** `Get`: a missing file is a miss, an entry past its expiry is removed
      (the removal's own error is dropped) and reported as a miss. */
  function GetSpec<V>(d: Disk, path: string, codec: Codec<V>, now: int): (Result<V, CacheError>, Disk) {
    if path !in d.files then (Err(Miss), d)
    else match d.files[path]
      case Unreadable => (Err(ReadFailed), d)
      case Stored(content) =>
        match DecodeEntry(content)
        case None => (Err(EntryUndecodable), d)
        case Some(entry) =>
          if IsExpired(entry, now) then (Err(Miss), DeleteSpec(d, path).1)
          else match codec.decode(entry.data)
            case None => (Err(DataUndecodable), d)
            case Some(v) => (Ok(v), d)
  }

  /** The entry `Set` writes at time `now`: a positive TTL sets the expiry. */
  function NewEntry(data: string, ttl: int, now: int): (e: Entry)
    ensures e.data == data && e.createdAt == now
    ensures ttl > 0 <==> e.expiresAt.Some?
    ensures ttl > 0 ==> e.expiresAt == Some(now + ttl)
  {
    Entry(data, if ttl > 0 then Some(now + ttl) else None, now)
  }

  /** `Set`: creates the shard directory, then writes the file. */
  function SetSpec<V>(d: Disk, dir: string, path: string, codec: Codec<V>, v: V, ttl: int, now: int): (Outcome<CacheError>, Disk) {
    var content := EncodeEntry(NewEntry(codec.encode(v), ttl, now));
    if dir in d.lockedDirs then (Fail(MkdirFailed), d)
    else if path in d.lockedFiles then (Fail(WriteFailed), d)
    else (Pass, d.(files := d.files[path := Stored(content)]))
  }

  /** Only the file at `path` may differ between the two disks. */
  predicate SameElsewhere(d: Disk, d': Disk, path: string) {
    d'.files - {path} == d.files - {path} && d'.lockedDirs == d.lockedDirs && d'.lockedFiles == d.lockedFiles
  }

  // ---------------------------------------------------------------------
  // Properties of the operations.

  /** A key whose file does not exist is a miss, and nothing changes. */
  lemma GetAbsentIsMiss<V>(d: Disk, path: string, codec: Codec<V>, now: int)
    requires path !in d.files
    ensures GetSpec(d, path, codec, now) == (Err(Miss), d)
  {
  }

  /** Each operation touches at most the one file of its key. */
  lemma OperationsAreLocal<V>(d: Disk, dir: string, path: string, codec: Codec<V>, v: V, ttl: int, now: int)
    ensures SameElsewhere(d, GetSpec(d, path, codec, now).1, path)
    ensures SameElsewhere(d, SetSpec(d, dir, path, codec, v, ttl, now).1, path)
    ensures SameElsewhere(d, DeleteSpec(d, path).1, path)
  {
    assert d.files - {path} - {path} == d.files - {path};
    var d1 := SetSpec(d, dir, path, codec, v, ttl, now).1;
    assert d1.files - {path} == d.files - {path};
  }

  /** A successful `Set` followed by a `Get` before the entry's expiry (at
      any time when the TTL is not positive) returns the stored value and
      leaves the disk as the `Set` left it. */
  lemma SetThenGet<V(!new)>(d: Disk, dir: string, path: string, codec: Codec<V>, v: V, ttl: int, now: int, later: int)
    requires Lawful(codec)
    requires SetSpec(d, dir, path, codec, v, ttl, now).0 == Pass
    requires ttl > 0 ==> later <= now + ttl
    ensures var d1 := SetSpec(d, dir, path, codec, v, ttl, now).1;
            GetSpec(d1, path, codec, later) == (Ok(v), d1)
  {
    var e := NewEntry(codec.encode(v), ttl, now);
    EntryRoundTrip(e);
    assert codec.decode(codec.encode(v)) == Some(v);
  }

  /** A hit depends only on the file at its path: another disk with the same
      file there hits with the same value and is left as it is. */
  lemma HitDependsOnFileOnly<V>(d: Disk, d': Disk, path: string, codec: Codec<V>, now: int)
    requires path in d.files && path in d'.files && d'.files[path] == d.files[path]
    requires GetSpec(d, path, codec, now).0.Ok?
    ensures GetSpec(d', path, codec, now) == (GetSpec(d, path, codec, now).0, d')
  {
  }

  /** With a non-positive TTL the stored entry carries no expiry time, so no
      later `Get` ever finds it expired. */
  lemma NonPositiveTtlNeverExpires<V>(d: Disk, dir: string, path: string, codec: Codec<V>, v: V, ttl: int, now: int, later: int)
    requires ttl <= 0
    requires SetSpec(d, dir, path, codec, v, ttl, now).0 == Pass
    ensures var d1 := SetSpec(d, dir, path, codec, v, ttl, now).1;
            d1.files[path] == Stored(EncodeEntry(Entry(codec.encode(v), None, now)))
            && !IsExpired(Entry(codec.encode(v), None, now), later)
  {
  }

  /** An entry past its expiry is a miss; its file is gone unless it cannot
      be removed, and every later `Get` misses again either way. */
  lemma ExpiredGetDeletes<V>(d: Disk, path: string, codec: Codec<V>, now: int, later: int)
    requires path in d.files && d.files[path].Stored?
    requires DecodeEntry(d.files[path].content).Some?
    requires IsExpired(DecodeEntry(d.files[path].content).value, now)
    requires now <= later
    ensures GetSpec(d, path, codec, now).0 == Err(Miss)
    ensures path !in d.lockedFiles ==> path !in GetSpec(d, path, codec, now).1.files
    ensures var d1 := GetSpec(d, path, codec, now).1;
            GetSpec(d1, path, codec, later).0 == Err(Miss)
  {
  }

  /** Deleting succeeds on an absent file, and a second delete changes nothing. */
  lemma DeleteIdempotent(d: Disk, path: string)
    ensures path !in d.files ==> DeleteSpec(d, path) == (Pass, d)
    ensures var (out, d1) := DeleteSpec(d, path);
            out == Pass ==> path !in d1.files && DeleteSpec(d1, path) == (Pass, d1)
  {
  }

  /** A second successful `Set` on a key replaces the first value. */
  lemma SetOverwrites<V(!new)>(d: Disk, dir: string, path: string, codec: Codec<V>, v1: V, v2: V, ttl: int, now: int, later: int)
    requires Lawful(codec)
    requires SetSpec(d, dir, path, codec, v1, ttl, now).0 == Pass
    requires ttl > 0 ==> later <= now + ttl
    ensures var d1 := SetSpec(d, dir, path, codec, v1, ttl, now).1;
            var d2 := SetSpec(d1, dir, path, codec, v2, ttl, now).1;
            GetSpec(d2, path, codec, later).0 == Ok(v2)
  {
    var d1 := SetSpec(d, dir, path, codec, v1, ttl, now).1;
    SetThenGet(d1, dir, path, codec, v2, ttl, now, later);
  }

  /** A stored file whose envelope cannot be decoded is an error other than
      a miss, and the file stays. */
  lemma UndecodableEntryIsNotMiss<V>(d: Disk, path: string, codec: Codec<V>, now: int)
    requires path in d.files && d.files[path].Stored?
    requires DecodeEntry(d.files[path].content).None?
    ensures GetSpec(d, path, codec, now) == (Err(EntryUndecodable), d)
  {
  }

  // ---------------------------------------------------------------------

  /** `FileCache`: the base directory and the key digest are fixed at
      construction; the disk is the state the methods change. */
  class FileCache {
    const baseDir: string
    const digest: string -> HexDigest
    var disk: Disk

    constructor (baseDir: string, digest: string -> HexDigest, disk: Disk)
      ensures this.baseDir == baseDir && this.digest == digest && this.disk == disk
    {
      this.baseDir := baseDir;
      this.digest := digest;
      this.disk := disk;
    }

    /** `keyToFilename`. */
    function PathOf(key: string): string {
      ShardedPath(baseDir, digest(key))
    }

    function DirOf(key: string): string {
      ShardDir(baseDir, digest(key))
    }

    method Get<V>(key: string, codec: Codec<V>, now: int) returns (r: Result<V, CacheError>)
      modifies this
      ensures (r, disk) == GetSpec(old(disk), PathOf(key), codec, now)
    {
      var path := PathOf(key);
      if path !in disk.files {
        return Err(Miss);
      }
      match disk.files[path] {
        case Unreadable =>
          return Err(ReadFailed);
        case Stored(content) =>
          var entry := DecodeEntry(content);
          if entry.None? {
            return Err(EntryUndecodable);
          }
          if IsExpired(entry.value, now) {
            var _ := Delete(key);
            return Err(Miss);
          }
          var value := codec.decode(entry.value.data);
          if value.None? {
            return Err(DataUndecodable);
          }
          return Ok(value.value);
      }
    }

    method Set<V>(key: string, codec: Codec<V>, v: V, ttl: int, now: int) returns (r: Outcome<CacheError>)
      modifies this
      ensures (r, disk) == SetSpec(old(disk), DirOf(key), PathOf(key), codec, v, ttl, now)
    {
      var data := codec.encode(v);
      var entry := Entry(data, None, now);
      if ttl > 0 {
        entry := entry.(expiresAt := Some(now + ttl));
      }
      var entryData := EncodeEntry(entry);
      var path := PathOf(key);
      if DirOf(key) in disk.lockedDirs {
        return Fail(MkdirFailed);
      }
      if path in disk.lockedFiles {
        return Fail(WriteFailed);
      }
      disk := disk.(files := disk.files[path := Stored(entryData)]);
      return Pass;
    }

    method Delete(key: string) returns (r: Outcome<CacheError>)
      modifies this
      ensures (r, disk) == DeleteSpec(old(disk), PathOf(key))
    {
      var path := PathOf(key);
      if path !in disk.files {
        return Pass;
      }
      if path in disk.lockedFiles {
        return Fail(DeleteFailed);
      }
      disk := disk.(files := disk.files - {path});
      return Pass;
    }

    /** Nothing to release. */
    method Close() returns (r: Outcome<CacheError>)
      ensures r == Pass
    {
      return Pass;
    }
  }
}
