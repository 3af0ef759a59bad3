/** The string operations of Go's standard library that the core relies on:
    decimal rendering (`strconv.Itoa`, `%d`), `strings.Split` on a one-character
    separator, `strings.HasPrefix`, `strings.Contains` and ASCII lower-casing. */
module Text {
  import opened Wrappers

  predicate IsDigit(c: char) { '0' <= c <= '9' }

  function DigitChar(d: nat): (c: char)
    requires d < 10
    ensures IsDigit(c) && DigitValue(c) == d
  {
    ('0' as int + d) as char
  }

  function DigitValue(c: char): nat
    requires IsDigit(c)
  {
    c as int - '0' as int
  }

  /** Decimal digits of a natural number, most significant first, no leading zero. */
  function NatToDecimal(n: nat): (s: string)
    ensures |s| > 0
    ensures forall i :: 0 <= i < |s| ==> IsDigit(s[i])
  {
    if n < 10 then [DigitChar(n)] else NatToDecimal(n / 10) + [DigitChar(n % 10)]
  }

  /** Go's `strconv.Itoa(n)` and `fmt.Sprintf("%d", n)`. */
  function IntToDecimal(n: int): (s: string)
    ensures |s| > 0
    ensures s[0] == '-' <==> n < 0
    ensures forall i :: 0 < i < |s| ==> IsDigit(s[i])
  {
    if n < 0 then "-" + NatToDecimal(-n) else NatToDecimal(n)
  }

  /** Reads a non-empty run of decimal digits. */
  function ParseNat(s: string): Option<nat>
  {
    if |s| == 0 || !IsDigit(s[|s| - 1]) then None
    else if |s| == 1 then Some(DigitValue(s[0]))
    else match ParseNat(s[..|s| - 1])
      case None => None
      case Some(p) => Some(p * 10 + DigitValue(s[|s| - 1]))
  }

  /** Reads an optionally negative decimal integer. */
  function ParseInt(s: string): Option<int>
  {
    if |s| > 0 && s[0] == '-' then
      match ParseNat(s[1..])
      case None => None
      case Some(p) => Some(-(p as int))
    else
      match ParseNat(s)
      case None => None
      case Some(p) => Some(p)
  }

  lemma {:induction false} ParseNatOfDecimal(n: nat)
    ensures ParseNat(NatToDecimal(n)) == Some(n)
  {
    if n >= 10 {
      var s := NatToDecimal(n);
      assert s[..|s| - 1] == NatToDecimal(n / 10);
      ParseNatOfDecimal(n / 10);
    }
  }

  /** Decimal rendering is undone by parsing, so it loses no information. */
  lemma ParseIntOfDecimal(n: int)
    ensures ParseInt(IntToDecimal(n)) == Some(n)
  {
    if n < 0 {
      assert IntToDecimal(n)[1..] == NatToDecimal(-n);
      ParseNatOfDecimal(-n);
    } else {
      ParseNatOfDecimal(n);
    }
  }

  lemma DecimalInjective(m: int, n: int)
    requires IntToDecimal(m) == IntToDecimal(n)
    ensures m == n
  {
    ParseIntOfDecimal(m);
    ParseIntOfDecimal(n);
  }

  /** Go's `strings.HasPrefix`. */
  predicate StartsWith(s: string, prefix: string) {
    |prefix| <= |s| && s[..|prefix|] == prefix
  }

  /** `lit` occurs in `s` starting exactly at position `j`. */
  predicate HasAt(s: string, j: nat, lit: string) {
    j + |lit| <= |s| && s[j..j + |lit|] == lit
  }

  /** Go's `strings.Contains`. */
  predicate Contains(s: string, sub: string) {
    exists j: nat :: j <= |s| && HasAt(s, j, sub)
  }

  function LowerChar(c: char): char {
    if 'A' <= c <= 'Z' then (c as int + 32) as char else c
  }

  /** `strings.ToLower`, restricted to the ASCII letters. */
  function ToLowerAscii(s: string): (r: string)
    ensures |r| == |s|
    ensures forall i :: 0 <= i < |s| ==> r[i] == LowerChar(s[i])
  {
    seq(|s|, i requires 0 <= i < |s| => LowerChar(s[i]))
  }

  /** Go's `strings.Split(s, string(sep))`: the pieces between occurrences of
      `sep`; the empty string yields one empty piece. */
  function Split(s: string, sep: char): (parts: seq<string>)
    ensures |parts| > 0
    ensures forall i :: 0 <= i < |parts| ==> sep !in parts[i]
  {
    if |s| == 0 then [""]
    else
      var rest := Split(s[1..], sep);
      if s[0] == sep then [""] + rest
      else [[s[0]] + rest[0]] + rest[1..]
  }

  function Join(parts: seq<string>, sep: char): string
    requires |parts| > 0
  {
    if |parts| == 1 then parts[0] else parts[0] + [sep] + Join(parts[1..], sep)
  }

  /** Splitting loses nothing: joining the pieces back gives the input. */
  lemma {:induction false} JoinSplit(s: string, sep: char)
    ensures Join(Split(s, sep), sep) == s
  {
    if |s| > 0 {
      var rest := Split(s[1..], sep);
      JoinSplit(s[1..], sep);
      if s[0] == sep {
        assert ([""] + rest)[1..] == rest;
      } else {
        var parts := [[s[0]] + rest[0]] + rest[1..];
        if |rest| > 1 {
          assert parts[1..] == rest[1..];
          assert Join(rest, sep) == rest[0] + [sep] + Join(rest[1..], sep);
        }
      }
    }
  }

  /** The text after the last `sep` (all of `s` when there is none): Go's
      `parts := strings.Split(s, sep); parts[len(parts)-1]`. */
  function LastSegment(s: string, sep: char): string {
    var parts := Split(s, sep);
    parts[|parts| - 1]
  }

  /** The last segment is a suffix of the input that either is the whole input
      or follows a separator, and holds no separator itself. */
  lemma {:induction false} LastSegmentIsSuffix(s: string, sep: char)
    ensures sep !in LastSegment(s, sep)
    ensures exists k :: 0 <= k <= |s| && s[k..] == LastSegment(s, sep) && (k == 0 || s[k - 1] == sep)
  {
    if |s| > 0 {
      LastSegmentIsSuffix(s[1..], sep);
      var rest := Split(s[1..], sep);
      var k :| 0 <= k <= |s[1..]| && s[1..][k..] == LastSegment(s[1..], sep)
        && (k == 0 || s[1..][k - 1] == sep);
      if s[0] == sep || |rest| > 1 {
        assert LastSegment(s, sep) == rest[|rest| - 1];
        if k == 0 && s[0] != sep {
          JoinSplit(s[1..], sep);
          assert false;
        }
        assert s[k + 1..] == s[1..][k..];
        assert s[k + 1 - 1] == sep;
        assert 0 <= k + 1 <= |s| && s[k + 1..] == LastSegment(s, sep) && (k + 1 == 0 || s[k + 1 - 1] == sep);
      } else {
        JoinSplit(s[1..], sep);
        assert s[1..] == rest[0];
        assert k == 0;
        assert s[0..] == LastSegment(s, sep);
      }
    } else {
      assert s[0..] == LastSegment(s, sep);
    }
  }
}
