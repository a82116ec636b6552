/** The deployment record shared by the webhook layer and the deployer. */
module Models {
  import opened Wrappers

  /** The status enumeration; `Unset` is the empty string a freshly built record carries
      before it is queued. */
  datatype Status = Unset | Queued | InProgress | Success | Failed

  function StatusName(s: Status): string
  {
    match s
    case Unset => ""
    case Queued => "queued"
    case InProgress => "in_progress"
    case Success => "success"
    case Failed => "failed"
  }

  predicate Terminal(s: Status)
  {
    s == Success || s == Failed
  }

  /** One attempt to build and run one commit of one owner/repo in one environment. The
      deployer and the webhook handlers update its fields in place. Times are whole seconds;
      `None` stands for Go's zero time. */
  class Deployment {
    var id: string
    var owner: string
    var repo: string
    var ref: string
    var sha: string
    var cloneURL: string
    var environment: string
    var prNumber: int
    var gitHubDeploymentID: int
    var status: Status
    var startedAt: Option<int>
    var completedAt: Option<int>
    var logPath: string
    var url: string
    var port: int
    var projectType: string
    var error: string

    /** The record a webhook handler builds: coordinates filled in, everything else zero. */
    constructor (owner: string, repo: string, ref: string, sha: string, cloneURL: string,
                 environment: string, prNumber: int)
      ensures this.owner == owner && this.repo == repo && this.ref == ref && this.sha == sha
      ensures this.cloneURL == cloneURL && this.environment == environment
      ensures this.prNumber == prNumber && gitHubDeploymentID == 0
      ensures id == "" && status == Unset && startedAt == None && completedAt == None
      ensures logPath == "" && url == "" && port == 0 && projectType == "" && error == ""
    {
      this.owner, this.repo, this.ref, this.sha := owner, repo, ref, sha;
      this.cloneURL, this.environment, this.prNumber := cloneURL, environment, prNumber;
      gitHubDeploymentID := 0;
      id, status, startedAt, completedAt := "", Unset, None, None;
      logPath, url, port, projectType, error := "", "", 0, "", "";
    }

    /** The lifecycle invariant: a start time exactly once the deployment has been claimed by
        a worker, a completion time exactly once it has reached a terminal status. */
    ghost predicate TimesAgree()
      reads this
    {
      (startedAt.Some? <==> status in {InProgress, Success, Failed})
      && (completedAt.Some? <==> Terminal(status))
    }
  }
}
