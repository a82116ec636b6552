/** The webhook endpoint: which environment a branch deploys to, whether a delivery is
    authentic, and how push and pull-request deliveries become queued deployment records.
    HTTP, JSON decoding and HMAC-SHA256 are outside the model: the decoded events and the
    keyed hash are inputs. */
module Webhook {
  import opened Wrappers
  import Text
  import Models
  import Deployer

  // ---------------------------------------------------------------------------
  // getEnvironmentFromRef

  /** main and master deploy to production (checked first), then any ref mentioning /staging
      or /develop; everything else is a preview named after the ref's last segment when the
      ref has at least two slashes. */
  function EnvironmentFromRef(ref: string): (env: string)
    ensures env != ""
  {
    if Text.HasSuffix(ref, "/main") || Text.HasSuffix(ref, "/master") then "production"
    else if Text.Contains(ref, "/staging") then "staging"
    else if Text.Contains(ref, "/develop") then "development"
    else
      var parts := Text.Split(ref, '/');
      if |parts| > 2 then "preview-" + parts[|parts| - 1] else "preview"
  }

  predicate MainLine(ref: string)
  {
    Text.HasSuffix(ref, "/main") || Text.HasSuffix(ref, "/master")
  }

  /** Production is reached exactly from refs ending in /main or /master, and the named
      environments each from their own rule only. */
  lemma EnvironmentRules(ref: string)
    ensures EnvironmentFromRef(ref) == "production" <==> MainLine(ref)
    ensures EnvironmentFromRef(ref) == "staging" <==> !MainLine(ref) && Text.Contains(ref, "/staging")
    ensures EnvironmentFromRef(ref) == "development"
            <==> !MainLine(ref) && !Text.Contains(ref, "/staging") && Text.Contains(ref, "/develop")
  {
    var parts := Text.Split(ref, '/');
    var env := EnvironmentFromRef(ref);
    if !MainLine(ref) && !Text.Contains(ref, "/staging") && !Text.Contains(ref, "/develop") {
      if |parts| > 2 {
        assert env[2] == 'e' && env[0] == 'p';
      } else {
        assert env == "preview";
      }
    }
  }

  /** The fallback: a preview named after the text after the last slash when there are at least
      two slashes, plain "preview" otherwise. */
  lemma PreviewEnvironment(ref: string)
    requires !MainLine(ref) && !Text.Contains(ref, "/staging") && !Text.Contains(ref, "/develop")
    ensures EnvironmentFromRef(ref) == "preview" <==> Text.Count(ref, '/') < 2
    ensures EnvironmentFromRef(ref) != "preview" ==>
              var branch := EnvironmentFromRef(ref)[8..];
              EnvironmentFromRef(ref) == "preview-" + branch
              && Text.HasSuffix(ref, "/" + branch) && '/' !in branch
  {
    var parts := Text.Split(ref, '/');
    Text.SplitShape(ref, '/');
    Text.SplitLastFollowsSep(ref, '/');
    if |parts| > 2 {
      var branch := parts[|parts| - 1];
      assert ("preview-" + branch)[8..] == branch;
    }
  }

  /** A branch pushed under refs/heads/ whose name has no slash and is not caught by the
      earlier rules deploys to a preview named after the branch. */
  lemma BranchPreview(b: string)
    requires b != "" && '/' !in b
    requires b != "main" && b != "master" && !Text.HasPrefix(b, "staging") && !Text.HasPrefix(b, "develop")
    ensures EnvironmentFromRef("refs/heads/" + b) == "preview-" + b
  {
    BranchNotSuffixed(b, "/main");
    BranchNotSuffixed(b, "/master");
    BranchNotContained(b, "/staging");
    BranchNotContained(b, "/develop");
    BranchSplit(b);
    PreviewFromLastPart("refs/heads/" + b, ["refs", "heads", b]);
  }

  /** refs/heads/<b> splits into refs, heads and the branch. */
  lemma BranchSplit(b: string)
    requires '/' !in b
    ensures Text.Split("refs/heads/" + b, '/') == ["refs", "heads", b]
  {
    assert "refs/heads/" + b == "refs" + ['/'] + ("heads" + ['/'] + b);
    assert "heads/" + b == "heads" + ['/'] + b;
    SplitAtSep("refs", "heads/" + b, '/');
    SplitAtSep("heads", b, '/');
    SplitNoSep(b, '/');
  }

  /** Past the named rules, a ref of more than two parts is a preview named by its last. */
  lemma PreviewFromLastPart(ref: string, parts: seq<string>)
    requires !MainLine(ref) && !Text.Contains(ref, "/staging") && !Text.Contains(ref, "/develop")
    requires Text.Split(ref, '/') == parts && |parts| > 2
    ensures EnvironmentFromRef(ref) == "preview-" + parts[|parts| - 1]
  {
  }

  /** The only slashes of refs/heads/<b> are the two of the prefix. */
  lemma BranchSlashes(b: string, j: int)
    requires '/' !in b && 0 <= j < |"refs/heads/" + b|
    ensures ("refs/heads/" + b)[j] == '/' ==> j == 4 || j == 10
  {
    if j >= 11 {
      assert ("refs/heads/" + b)[j] == b[j - 11];
    }
  }

  lemma BranchNotSuffixed(b: string, t: string)
    requires '/' !in b && |t| >= 2 && t[0] == '/' && '/' !in t[1..] && t[1..] != b
    ensures !Text.HasSuffix("refs/heads/" + b, t)
  {
    var ref := "refs/heads/" + b;
    var j := |ref| - |t|;
    if 0 <= j {
      var c := ref[j];
      assert Text.HasSuffix(ref, t) ==> c == t[0];
      BranchSlashes(b, j);
      if j == 4 {
        var x, y := ref[10], t[6];
        assert x == '/' && y == t[1..][5];
        assert Text.HasSuffix(ref, t) ==> x == y;
      } else if j == 10 {
        var x, y := ref[11..], t[1..];
        assert x == b;
        assert Text.HasSuffix(ref, t) ==> x == y;
      }
    }
  }

  lemma BranchNotContained(b: string, t: string)
    requires '/' !in b && |t| >= 2 && t[0] == '/' && t[1] != 'h' && !Text.HasPrefix(b, t[1..])
    ensures !Text.Contains("refs/heads/" + b, t)
  {
    var ref := "refs/heads/" + b;
    forall i | 0 <= i <= |ref|
      ensures !Text.HasPrefix(ref[i..], t)
    {
      if i < |ref| {
        BranchSlashes(b, i);
        var c, rest := ref[i], ref[i..];
        assert Text.HasPrefix(rest, t) ==> c == '/';
        if i == 4 {
          var h, second := ref[5], t[1];
          assert h == 'h';
          assert Text.HasPrefix(rest, t) ==> h == second;
        } else if i == 10 {
          assert rest == ['/'] + b;
          SlashPrefix(b, t);
        }
      }
    }
  }

  lemma SlashPrefix(b: string, t: string)
    requires |t| >= 1
    ensures Text.HasPrefix(['/'] + b, t) ==> Text.HasPrefix(b, t[1..])
  {
    var s := ['/'] + b;
    if |t| <= |s| {
      var front, tail := s[..|t|], t[1..];
      assert front[1..] == b[..|t| - 1];
      assert Text.HasPrefix(s, t) ==> front[1..] == tail;
    }
  }

  /** A word with no separator followed by a separator splits off as the first piece. */
  lemma {:induction false} SplitAtSep(w: string, rest: string, sep: char)
    requires sep !in w
    ensures Text.Split(w + [sep] + rest, sep) == [w] + Text.Split(rest, sep)
  {
    if w == [] {
      assert w + [sep] + rest == [sep] + rest;
      assert ([sep] + rest)[1..] == rest;
    } else {
      SplitAtSep(w[1..], rest, sep);
      assert (w + [sep] + rest)[1..] == w[1..] + [sep] + rest;
      assert (w + [sep] + rest)[0] == w[0] != sep;
      assert [w[0]] + w[1..] == w;
    }
  }

  lemma {:induction false} SplitNoSep(w: string, sep: char)
    requires sep !in w
    ensures Text.Split(w, sep) == [w]
  {
    if w != [] {
      assert w[0] in w;
      SplitNoSep(w[1..], sep);
      assert [w[0]] + w[1..] == w;
    }
  }

  // ---------------------------------------------------------------------------
  // verifySignature

  /** The hex-encoded keyed hash of a payload under a secret (HMAC-SHA256 in the source). */
  type KeyedHash = (string, seq<bv8>) -> string

  /** No signature or no secret refuses the delivery; otherwise the signature, with one
      leading "sha256=" dropped, must equal the hex digest. */
  function VerifySignature(payload: seq<bv8>, signature: string, secret: string, mac: KeyedHash): bool
  {
    if signature == "" || secret == "" then false
    else Text.TrimPrefix(signature, "sha256=") == mac(secret, payload)
  }

  /** A delivery verifies exactly when there is a secret and the signature is the digest,
      either bare or behind "sha256=". */
  lemma SignatureAccepts(payload: seq<bv8>, signature: string, secret: string, mac: KeyedHash)
    requires signature != ""
    ensures VerifySignature(payload, signature, secret, mac)
            <==> secret != ""
                 && ((Text.HasPrefix(signature, "sha256=") && signature == "sha256=" + mac(secret, payload))
                     || (!Text.HasPrefix(signature, "sha256=") && signature == mac(secret, payload)))
  {
    if Text.HasPrefix(signature, "sha256=") && signature == "sha256=" + mac(secret, payload) {
      assert Text.TrimPrefix(signature, "sha256=") == mac(secret, payload);
    }
  }

  /** Both header forms carry a valid signature; an empty header or secret never does. */
  lemma SignatureForms(payload: seq<bv8>, secret: string, mac: KeyedHash)
    requires secret != "" && mac(secret, payload) != "" && !Text.HasPrefix(mac(secret, payload), "sha256=")
    ensures VerifySignature(payload, "sha256=" + mac(secret, payload), secret, mac)
    ensures VerifySignature(payload, mac(secret, payload), secret, mac)
    ensures !VerifySignature(payload, "", secret, mac) && !VerifySignature(payload, mac(secret, payload), "", mac)
  {
    SignatureAccepts(payload, "sha256=" + mac(secret, payload), secret, mac);
    SignatureAccepts(payload, mac(secret, payload), secret, mac);
  }

  // ---------------------------------------------------------------------------
  // The handlers

  /** The fields of a push delivery the handler reads. */
  datatype PushEvent = PushEvent(ref: string, after: string, owner: string, name: string, cloneURL: string)

  /** The fields of a pull-request delivery the handler reads. */
  datatype PullRequestEvent = PullRequestEvent(action: string, number: int, headRef: string, headSHA: string,
                                               owner: string, name: string, cloneURL: string)

  /** What the body decodes to under each event schema (None: it is not valid JSON for it). */
  datatype Decoded = Decoded(push: Option<PushEvent>, pullRequest: Option<PullRequestEvent>)

  /** The GitHub client's answer to creating a GitHub deployment. */
  datatype GitHubLink = NoClient | Created(id: int) | CreateFailed

  /** The handler a delivery is routed to, in the order the checks are made. */
  datatype Route = BodyUnreadable | BadSignature | MissingEvent | Push | PullRequest | Pong | Unhandled

  function RouteOf(bodyRead: bool, signed: bool, event: string): (r: Route)
  {
    if !bodyRead then BodyUnreadable
    else if !signed then BadSignature
    else if event == "" then MissingEvent
    else if event == "push" then Push
    else if event == "pull_request" then PullRequest
    else if event == "ping" then Pong
    else Unhandled
  }

  /** The status code of a route that answers without queueing. */
  function Answer(r: Route): int
    requires r !in {Push, PullRequest}
  {
    match r
    case BodyUnreadable => 400
    case BadSignature => 401
    case MissingEvent => 400
    case _ => 200
  }

  /** The signature is checked before the event header is looked at: an unsigned delivery
      gets 401 whatever its event; a signed one without an event gets 400; ping and unknown
      events get 200. */
  lemma DispatchOrder(event: string)
    ensures Answer(RouteOf(true, false, event)) == 401
    ensures Answer(RouteOf(true, true, "")) == 400
    ensures Answer(RouteOf(true, true, "ping")) == 200
    ensures event !in {"", "push", "pull_request"} ==> Answer(RouteOf(true, true, event)) == 200
  {
  }

  /** Only opened and synchronize pull-request actions deploy. */
  predicate Deploys(action: string)
  {
    action == "opened" || action == "synchronize"
  }

  /** The environment of a pull request's preview. */
  function PullRequestEnvironment(number: int): string
  {
    "preview-pr-" + Text.IntToString(number)
  }

  /** Different pull requests deploy to different environments, none of which is production,
      staging or development. */
  lemma PullRequestEnvironmentsDistinct(m: int, n: int)
    ensures m != n ==> PullRequestEnvironment(m) != PullRequestEnvironment(n)
    ensures PullRequestEnvironment(n) !in {"production", "staging", "development"}
  {
    var prefix := "preview-pr-";
    if m != n && PullRequestEnvironment(m) == PullRequestEnvironment(n) {
      assert PullRequestEnvironment(m)[|prefix|..] == Text.IntToString(m);
      assert PullRequestEnvironment(n)[|prefix|..] == Text.IntToString(n);
      Text.IntToStringInjective(m, n);
    }
    assert PullRequestEnvironment(n)[0] == 'p' && PullRequestEnvironment(n)[1] == 'r';
  }

  /** The GitHub deployment identifier recorded: the created one, else zero. */
  function LinkedId(link: GitHubLink): int
  {
    if link.Created? then link.id else 0
  }

  /** The record a handler builds before queueing it. */
  method NewRecord(owner: string, repo: string, ref: string, sha: string, cloneURL: string,
                   environment: string, prNumber: int, link: GitHubLink)
    returns (dep: Models.Deployment)
    ensures fresh(dep)
    ensures dep.owner == owner && dep.repo == repo && dep.ref == ref && dep.sha == sha
    ensures dep.cloneURL == cloneURL && dep.environment == environment && dep.prNumber == prNumber
    ensures dep.gitHubDeploymentID == LinkedId(link) && dep.status == Models.Unset
  {
    dep := new Models.Deployment(owner, repo, ref, sha, cloneURL, environment, prNumber);
    if link.Created? {
      dep.gitHubDeploymentID := link.id;
    }
  }

  /** Queue a built record. A commit identifier shorter than seven bytes makes the source's
      slice panic before anything is written, and the recovery middleware turns that into a
      500; the model measures the identifier in code points, which agree with bytes on ASCII. */
  method Enqueue(d: Deployer.Deployer, dep: Models.Deployment, now: int, store: Deployer.Exit)
    returns (code: int)
    requires d.Valid()
    modifies d`queue, dep`id, dep`status, dep`logPath
    ensures d.Valid()
    ensures |dep.sha| < 7 ==> code == 500 && d.queue == old(d.queue) && unchanged(dep)
    ensures |dep.sha| >= 7 ==>
              dep.id == Deployer.DeploymentId(dep.owner, dep.repo, dep.sha, now)
              && dep.status == Models.Queued && dep.logPath == Deployer.LogPath(d.config.logsDir, dep.id)
    ensures |dep.sha| >= 7 ==>
              if store.Zero? && |old(d.queue)| < Deployer.QueueCapacity
              then code == 200 && d.queue == old(d.queue) + [dep] && dep.status == Models.Queued
              else code == 500 && d.queue == old(d.queue)
  {
    if |dep.sha| < 7 {
      return 500;
    }
    var r := d.QueueDeployment(dep, now, store);
    code := if r.Pass? then 200 else 500;
  }

  /** handleGitHubWebhook: route, authenticate, decode, build the record and queue it. */
  method HandleGitHubWebhook(d: Deployer.Deployer, body: Option<seq<bv8>>, signature: string,
                             event: string, decoded: Decoded, secret: string, mac: KeyedHash,
                             link: GitHubLink, now: int, store: Deployer.Exit)
    returns (code: int, record: Option<Models.Deployment>)
    requires d.Valid()
    modifies d`queue
    ensures d.Valid()
    ensures var route := RouteOf(body.Some?, body.Some? && VerifySignature(body.value, signature, secret, mac), event);
            (route !in {Push, PullRequest} ==> code == Answer(route) && record.None? && d.queue == old(d.queue))
            && (route == Push && decoded.push.None? ==> code == 400 && record.None? && d.queue == old(d.queue))
            && (route == PullRequest && decoded.pullRequest.None? ==> code == 400 && record.None? && d.queue == old(d.queue))
            && (route == PullRequest && decoded.pullRequest.Some? && !Deploys(decoded.pullRequest.value.action)
                ==> code == 200 && record.None? && d.queue == old(d.queue))
    ensures var route := RouteOf(body.Some?, body.Some? && VerifySignature(body.value, signature, secret, mac), event);
            (route == Push && decoded.push.Some? ==> record.Some?)
            && (route == PullRequest && decoded.pullRequest.Some? && Deploys(decoded.pullRequest.value.action)
                ==> record.Some?)
    ensures record.Some? ==> fresh(record.value)
    ensures record.Some? && |record.value.sha| >= 7 ==>
              var dep := record.value;
              dep.id == Deployer.DeploymentId(dep.owner, dep.repo, dep.sha, now) && dep.status == Models.Queued
              && dep.logPath == Deployer.LogPath(d.config.logsDir, dep.id)
    ensures record.Some? && |record.value.sha| < 7 ==> record.value.status == Models.Unset
    ensures record.Some? && event == "push" ==>
              var e := decoded.push.value;
              var dep := record.value;
              dep.owner == e.owner && dep.repo == e.name && dep.ref == e.ref && dep.sha == e.after
              && dep.cloneURL == e.cloneURL && dep.environment == EnvironmentFromRef(e.ref)
              && dep.prNumber == 0 && dep.gitHubDeploymentID == LinkedId(link)
    ensures record.Some? && event == "pull_request" ==>
              var e := decoded.pullRequest.value;
              var dep := record.value;
              Deploys(e.action)
              && dep.owner == e.owner && dep.repo == e.name && dep.ref == e.headRef && dep.sha == e.headSHA
              && dep.cloneURL == e.cloneURL && dep.environment == PullRequestEnvironment(e.number)
              && dep.prNumber == e.number && dep.gitHubDeploymentID == LinkedId(link)
    ensures record.Some? ==>
              (code == 200 <==> |record.value.sha| >= 7 && store.Zero? && |old(d.queue)| < Deployer.QueueCapacity)
              && (code == 200 ==> d.queue == old(d.queue) + [record.value])
              && (code != 200 ==> code == 500 && d.queue == old(d.queue))
  {
    if body.None? {
      return 400, None;
    }
    if !VerifySignature(body.value, signature, secret, mac) {
      return 401, None;
    }
    if event == "" {
      return 400, None;
    }
    if event == "push" {
      if decoded.push.None? {
        return 400, None;
      }
      var e := decoded.push.value;
      var dep := NewRecord(e.owner, e.name, e.ref, e.after, e.cloneURL, EnvironmentFromRef(e.ref), 0, link);
      code := Enqueue(d, dep, now, store);
      record := Some(dep);
    } else if event == "pull_request" {
      if decoded.pullRequest.None? {
        return 400, None;
      }
      var e := decoded.pullRequest.value;
      if !Deploys(e.action) {
        return 200, None;
      }
      var dep := NewRecord(e.owner, e.name, e.headRef, e.headSHA, e.cloneURL,
                           PullRequestEnvironment(e.number), e.number, link);
      code := Enqueue(d, dep, now, store);
      record := Some(dep);
    } else {
      return 200, None;
    }
  }
}
