/** What a run reports (backend/internal/runnerresult, Result in backend/internal/coordinator/runs.go). */
module RunnerResult {

  datatype Metric = Metric(name: string, unit: string, value: real)

  /** What one execution returns and the stores keep. */
  datatype Result = Result(jobName: string, output: string, truncated: bool, metrics: seq<Metric>)

  const NO_RESULT := Result("", "", false, [])
}
