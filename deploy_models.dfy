/** The Cloud Deploy records the deployment correlator reads and the records
    it produces (`internal/deploy/models.go`), with times in nanoseconds. */
module DeployModels {
  import opened Wrappers

  /** `deploypb.Release_RenderState`. */
  datatype RenderState = RenderStateUnspecified | Succeeded | Failed | InProgress

  /** The fields of `deploypb.Release` the core reads; a nil annotation map
      reads like an empty one. */
  datatype Release = Release(name: string, annotations: map<string, string>, createTime: int, renderState: RenderState)

  datatype DeploymentMetric = DeploymentMetric(
    releaseID: string,
    releaseName: string,
    commitSHA: string,
    prNumber: string,
    commitTime: int,
    releaseStartTime: int,
    releaseFinishTime: int,
    commitToDeployLatency: int,
    deploymentSuccessful: bool)

  datatype PRDeploymentStats = PRDeploymentStats(
    prNumber: string,
    deploymentCount: int,
    firstCommitTime: int,
    lastFinishTime: int,
    firstToLastDelta: int,
    commitSHAs: seq<string>,
    deployments: seq<DeploymentMetric>)

  /** The errors of the deploy client, one per `fmt.Errorf` of the source,
      plus `Upstream` for an error a wrapped service returns. */
  datatype DeployError =
    | NoCommitSha
    | TagsCommitUnavailable
    | NoFilesInDiff
    | NoAppCommitSha
    | ServiceCommitUnavailable
    | PipelineListFailed
    | NoTestPipelines
    | ReleaseListFailed(pipeline: string)
    | Upstream(message: string)

  /** What the deployment correlator needs of a deploy client: the commit a
      release deploys (its SHA, the PR number, the commit time) and the time
      its last rollout finished. Either may fail. */
  datatype ReleaseSource = ReleaseSource(
    extract: Release -> Result<(string, string, int), DeployError>,
    finishTime: Release -> Result<int, DeployError>)
}
