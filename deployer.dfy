/** The deployer: admission into a bounded queue, the per-deployment state machine
    (sync, checkout, detect, port, build, displace, start, publish) and the checks it applies
    to commands and paths that come from the deployed repository. Subprocesses, the log file,
    the clock and the storage and notification collaborators are outside the model: their
    outcomes are inputs, and the calls made to them are recorded as values. */
module Deployer {
  import opened Wrappers
  import Text
  import Models
  import Detector
  import Config
  import Paths

  const QueueCapacity := 100
  /** Every build runs with PORT=3000, whatever port the deployment is given. */
  const BuildPort := 3000
  const MaxCommandBytes := 1000
  const BasePort := 3000
  const MaxNameLength := 50

  // The error texts, as the deployer words them.
  const BuildCommandRejected := "build failed: command validation failed: "
  const BuildDirRejected := "build failed: directory validation failed: "
  const BuildFailed := "build failed: "
  const StartCommandRejected := "failed to start application: start command validation failed: "
  const StartDirRejected := "failed to start application: repository path validation failed: "
  const EmptyStartCommand := "failed to start application: empty start command"
  const StartFailed := "failed to start application: "
  const LogFileFailed := "failed to create log file: "
  const EmptyCommand := "empty command not allowed"
  const UnsupportedCharacters := "command contains unsupported characters: "
  const CommandTooLong := "command too long - maximum 1000 characters"
  const InvalidSequences := "path contains invalid sequences"
  const OutsideReposDir := "path outside allowed directory"
  const StoreFailed := "failed to store deployment: "
  const QueueFull := "deployment queue is full"

  // ---------------------------------------------------------------------------
  // validateCommand

  /** The patterns searched for, in the order they are tried. */
  const DangerousPatterns: seq<string> :=
    [";", "|", "&", "`", "$", "&&", "||", ">>", "<<", "$(", "${", ")", "}", ">", "<", "\\"]

  /** The characters the patterns are made of. */
  const ForbiddenChars: set<char> := {';', '|', '&', '`', '$', '>', '<', ')', '}', '\\'}

  /** The first pattern, in list order, that occurs in the command. */
  function FirstDangerous(command: string, patterns: seq<string>): (r: Option<string>)
    ensures r.Some? ==> r.value in patterns && Text.Contains(command, r.value)
    ensures r.None? <==> forall k :: 0 <= k < |patterns| ==> !Text.Contains(command, patterns[k])
  {
    if patterns == [] then None
    else if Text.Contains(command, patterns[0]) then Some(patterns[0])
    else FirstDangerous(command, patterns[1..])
  }

  /** The verdict on a command, with the message for the first rule it breaks: empty, a
      dangerous pattern, then the byte length. */
  function CheckCommand(command: string): Outcome<string>
  {
    if command == "" then Fail(EmptyCommand)
    else match FirstDangerous(command, DangerousPatterns)
      case Some(p) => Fail(UnsupportedCharacters + p)
      case None =>
        if Text.Utf8Len(command) > MaxCommandBytes then Fail(CommandTooLong)
        else Pass
  }

  /** The commands the validator is meant to let through. */
  predicate SafeCommand(command: string)
  {
    command != ""
    && (forall k :: 0 <= k < |command| ==> command[k] !in ForbiddenChars)
    && Text.Utf8Len(command) <= MaxCommandBytes
  }

  /** Where the one-character pattern for a forbidden character stands in the list. */
  function SinglePattern(c: char): (j: nat)
    requires c in ForbiddenChars
    ensures j < |DangerousPatterns| && DangerousPatterns[j] == [c]
  {
    if c == ';' then 0 else if c == '|' then 1 else if c == '&' then 2 else if c == '`' then 3
    else if c == '$' then 4 else if c == ')' then 11 else if c == '}' then 12
    else if c == '>' then 13 else if c == '<' then 14 else 15
  }

  /** No pattern occurs exactly when no forbidden character does: the one-character patterns
      cover every forbidden character and every pattern starts with one. */
  lemma NoPatternIffNoForbiddenChar(command: string)
    ensures FirstDangerous(command, DangerousPatterns).None?
            <==> forall k :: 0 <= k < |command| ==> command[k] !in ForbiddenChars
  {
    PatternsLeadForbidden();
    PatternsCoverForbiddenChars();
    NoPatternIffNoLeadChar(command, DangerousPatterns);
  }

  /** Every pattern of the list starts with a forbidden character. */
  lemma PatternsLeadForbidden()
    ensures forall j :: 0 <= j < |DangerousPatterns| ==> DangerousPatterns[j] != [] && DangerousPatterns[j][0] in ForbiddenChars
  {
    forall j | 0 <= j < |DangerousPatterns|
      ensures DangerousPatterns[j] != [] && DangerousPatterns[j][0] in ForbiddenChars
    {
      PatternLead(j);
    }
  }

  lemma PatternLead(j: nat)
    requires j < |DangerousPatterns|
    ensures DangerousPatterns[j] != [] && DangerousPatterns[j][0] in ForbiddenChars
  {
  }

  /** Every forbidden character is a pattern of its own. */
  lemma PatternsCoverForbiddenChars()
    ensures forall c :: c in ForbiddenChars ==> [c] in DangerousPatterns
  {
    forall c | c in ForbiddenChars
      ensures [c] in DangerousPatterns
    {
      var j := SinglePattern(c);
      assert DangerousPatterns[j] == [c];
    }
  }

  /** For any list whose patterns start with a forbidden character and which holds every
      forbidden character as a pattern of its own, no pattern occurs exactly when no
      forbidden character does. */
  lemma NoPatternIffNoLeadChar(command: string, patterns: seq<string>)
    requires forall j :: 0 <= j < |patterns| ==> patterns[j] != [] && patterns[j][0] in ForbiddenChars
    requires forall c :: c in ForbiddenChars ==> [c] in patterns
    ensures FirstDangerous(command, patterns).None?
            <==> forall k :: 0 <= k < |command| ==> command[k] !in ForbiddenChars
  {
    forall k | 0 <= k < |command| && command[k] in ForbiddenChars
      ensures exists j :: 0 <= j < |patterns| && Text.Contains(command, patterns[j])
    {
      Text.ContainsSingle(command, command[k]);
      var j :| 0 <= j < |patterns| && patterns[j] == [command[k]];
    }
    forall j | 0 <= j < |patterns| && Text.Contains(command, patterns[j])
      ensures patterns[j][0] in command && patterns[j][0] in ForbiddenChars
    {
      Text.ContainsCharsOf(command, patterns[j], 0);
    }
  }

  /** The validator accepts exactly the non-empty commands of at most 1000 bytes that hold
      none of ; | & ` $ > < ) } \ */
  lemma CheckCommandAccepts(command: string)
    ensures CheckCommand(command).Pass? <==> SafeCommand(command)
  {
    NoPatternIffNoForbiddenChar(command);
  }

  /** One step of the scan: the pattern at `i` if it occurs, else the first among the rest. */
  lemma FirstDangerousStep(command: string, patterns: seq<string>, i: nat)
    requires i < |patterns|
    ensures FirstDangerous(command, patterns[i..])
            == if Text.Contains(command, patterns[i]) then Some(patterns[i])
               else FirstDangerous(command, patterns[i + 1..])
  {
    assert patterns[i..][1..] == patterns[i + 1..];
  }

  /** validateCommand's loop over the pattern list. */
  method ValidateCommand(command: string) returns (r: Outcome<string>)
    ensures r == CheckCommand(command)
    ensures r.Pass? <==> SafeCommand(command)
  {
    CheckCommandAccepts(command);
    if command == "" {
      return Fail(EmptyCommand);
    }
    var i := 0;
    while i < |DangerousPatterns|
      invariant 0 <= i <= |DangerousPatterns|
      invariant FirstDangerous(command, DangerousPatterns) == FirstDangerous(command, DangerousPatterns[i..])
    {
      FirstDangerousStep(command, DangerousPatterns, i);
      if Text.Contains(command, DangerousPatterns[i]) {
        return Fail(UnsupportedCharacters + DangerousPatterns[i]);
      }
      i := i + 1;
    }
    if Text.Utf8Len(command) > MaxCommandBytes {
      return Fail(CommandTooLong);
    }
    return Pass;
  }

  /** A command with a shell separator is unsafe; a plain build command is safe. */
  lemma ValidatorExamples()
    ensures !SafeCommand("echo hi; rm -rf /")
    ensures SafeCommand("npm run build")
  {
    assert "echo hi; rm -rf /"[7] == ';';
    PlainBuildSafe("npm run build");
  }

  lemma PlainBuildSafe(command: string)
    requires command == "npm run build"
    ensures SafeCommand(command)
  {
    ShortCommandFits(command);
    PlainBuildClean(command);
  }

  lemma PlainBuildClean(command: string)
    requires command == "npm run build"
    ensures forall k :: 0 <= k < |command| ==> command[k] !in ForbiddenChars
  {
  }

  /** A command of at most 250 characters is within the byte limit whatever it holds. */
  lemma ShortCommandFits(command: string)
    requires |command| <= MaxCommandBytes / 4
    ensures Text.Utf8Len(command) <= MaxCommandBytes
  {
  }

  /** Commands the detector hands out that can never pass validation: the Dockerfile start,
      the Nuxt source build, the Node build with a build step, the Django start, and the
      empty start command of an unrecognised tree. */
  lemma DetectorCommandsRefused(t: Detector.Tree)
    ensures "docker-compose.yml" !in t.files && "Dockerfile" in t.files
            ==> !SafeCommand(Detector.DetectDocker(t).value.startCmd)
    ensures Detector.DetectNuxt(t).Some? && ".output/server/index.mjs" !in t.files
            ==> !SafeCommand(Detector.DetectNuxt(t).value.buildCmd)
    ensures Detector.DetectNode(t).Some?
            && ("build" in t.package.value.scripts
                || Detector.NodeFramework(t.package.value.dependencies) == "nextjs")
            ==> !SafeCommand(Detector.DetectNode(t).value.buildCmd)
    ensures Detector.DetectPython(t).Some? && "manage.py" in t.files
            ==> !SafeCommand(Detector.DetectPython(t).value.startCmd)
    ensures (forall s :: Detector.Detect(s, t).None?) ==> !SafeCommand(Detector.Selected(t).startCmd)
  {
    if "docker-compose.yml" !in t.files && "Dockerfile" in t.files {
      DockerfileStartRefused(t);
    }
    if Detector.DetectNuxt(t).Some? && ".output/server/index.mjs" !in t.files {
      NuxtSourceBuildRefused(t);
    }
    if Detector.DetectNode(t).Some?
       && ("build" in t.package.value.scripts
           || Detector.NodeFramework(t.package.value.dependencies) == "nextjs") {
      NodeBuildStepRefused(t);
    }
    if Detector.DetectPython(t).Some? && "manage.py" in t.files {
      DjangoStartRefused(t);
    }
    Detector.SelectedUnknown(t);
  }

  lemma DockerfileStartRefused(t: Detector.Tree)
    requires "docker-compose.yml" !in t.files && "Dockerfile" in t.files
    ensures !SafeCommand(Detector.DetectDocker(t).value.startCmd)
  {
    UnsafeAt(Detector.DetectDocker(t).value.startCmd, 28);
  }

  lemma NuxtSourceBuildRefused(t: Detector.Tree)
    requires Detector.DetectNuxt(t).Some? && ".output/server/index.mjs" !in t.files
    ensures !SafeCommand(Detector.DetectNuxt(t).value.buildCmd)
  {
    UnsafeAt(Detector.DetectNuxt(t).value.buildCmd, 12);
  }

  lemma NodeBuildStepRefused(t: Detector.Tree)
    requires Detector.DetectNode(t).Some?
    requires "build" in t.package.value.scripts
             || Detector.NodeFramework(t.package.value.dependencies) == "nextjs"
    ensures !SafeCommand(Detector.DetectNode(t).value.buildCmd)
  {
    var build := Detector.DetectNode(t).value.buildCmd;
    assert build[14] == "npm run build && "[14];
    UnsafeAt(build, 14);
  }

  lemma DjangoStartRefused(t: Detector.Tree)
    requires Detector.DetectPython(t).Some? && "manage.py" in t.files
    ensures !SafeCommand(Detector.DetectPython(t).value.startCmd)
  {
    UnsafeAt(Detector.DetectPython(t).value.startCmd, 35);
  }

  /** A forbidden character anywhere makes a command unsafe. */
  lemma UnsafeAt(command: string, k: nat)
    requires k < |command| && command[k] in ForbiddenChars
    ensures !SafeCommand(command)
  {
  }

  // ---------------------------------------------------------------------------
  // validatePath

  /** A `..` anywhere is refused; so is an absolute path outside the repositories root;
      everything else, relative paths included, passes. */
  function ValidatePath(path: string, reposDir: string): (r: Outcome<string>)
    ensures r.Pass? <==> !Text.Contains(path, "..")
                         && (Text.HasPrefix(path, "/") ==> Text.HasPrefix(path, reposDir))
  {
    if Text.Contains(path, "..") then Fail(InvalidSequences)
    else if Text.HasPrefix(path, "/") && !Text.HasPrefix(path, reposDir) then Fail(OutsideReposDir)
    else Pass
  }

  lemma DoubleDotContains(s: string)
    ensures Text.Contains(s, "..") <==> !Paths.NoDoubleDot(s)
  {
    if !Paths.NoDoubleDot(s) {
      var k :| 0 <= k < |s| - 1 && s[k] == '.' && s[k + 1] == '.';
      assert Text.HasPrefix(s[k..], "..");
    }
    if Text.Contains(s, "..") {
      var i :| 0 <= i <= |s| && Text.HasPrefix(s[i..], "..");
      assert s[i] == '.' && s[i + 1] == '.';
    }
  }

  /** Where a repository is checked out: filepath.Join of the root, the owner and the name,
      which cleans the joined path. */
  function RepoPath(reposDir: string, owner: string, repo: string): string
  {
    Paths.JoinElems([reposDir, owner, repo])
  }

  /** The workspace of a repository passes path validation when neither the root nor the owner
      nor the repository name holds `..`, and an absolute root is written in clean form. */
  lemma RepoPathAccepted(reposDir: string, owner: string, repo: string)
    requires !Text.Contains(reposDir, "..") && !Text.Contains(owner, "..") && !Text.Contains(repo, "..")
    requires Paths.Rooted(reposDir) ==> Paths.Clean(reposDir) == reposDir
    ensures ValidatePath(RepoPath(reposDir, owner, repo), reposDir) == Pass
  {
    DoubleDotContains(reposDir);
    DoubleDotContains(owner);
    DoubleDotContains(repo);
    var elems := [reposDir, owner, repo];
    assert Paths.AllNoDoubleDot(elems);
    Paths.JoinElemsNoDoubleDot(elems);
    var path := RepoPath(reposDir, owner, repo);
    DoubleDotContains(path);
    if Text.HasPrefix(path, "/") && reposDir != "" {
      assert path[..1] == "/";
      Paths.Join3(reposDir, owner, repo, '/');
      Paths.ConcatNoDoubleDot(owner, repo);
      Paths.CleanRootPrefix(reposDir, owner + "/" + repo);
    }
  }

  /** Under the default root ./repos, an owner and a name that are plain path elements are
      checked out at repos/<owner>/<repo>: the leading "./" is cleaned away. */
  lemma DefaultWorkspace(owner: string, repo: string)
    requires Paths.PlainElem(owner) && Paths.PlainElem(repo)
    ensures RepoPath("./repos", owner, repo) == "repos/" + owner + "/" + repo
  {
    var parts := ["repos", owner, repo];
    Paths.Join3("./repos", owner, repo, '/');
    Paths.Join3("repos", owner, repo, '/');
    var rest := owner + "/" + repo;
    assert "./repos" + "/" + rest == "./" + ("repos" + "/" + rest);
    Paths.DotRelative(parts);
  }

  /** An absolute root written with a repeated '/' (say "/srv//repos") refuses every
      workspace: the joined path is cleaned, so it no longer starts with the root as
      configured. */
  lemma DoubleSlashRootRefused(reposDir: string, owner: string, repo: string)
    requires Paths.Rooted(reposDir) && Text.Contains(reposDir, "//")
    ensures ValidatePath(RepoPath(reposDir, owner, repo), reposDir).Fail?
  {
    var i :| 0 <= i <= |reposDir| && Text.HasPrefix(reposDir[i..], "//");
    assert reposDir[i] == '/' && reposDir[i + 1] == '/';
    var joined := Text.Join([reposDir, owner, repo], '/');
    Paths.Join3(reposDir, owner, repo, '/');
    assert joined[0] == '/';
    var path := RepoPath(reposDir, owner, repo);
    assert path == Paths.Clean(joined);
    Paths.CleanNoDoubleSlash(joined);
    Paths.DoubleSlashNoPrefix(path, reposDir);
    assert path[..1] == "/";
  }

  // ---------------------------------------------------------------------------
  // sanitizeProcessName

  predicate NameChar(c: char)
  {
    'a' <= c <= 'z' || 'A' <= c <= 'Z' || '0' <= c <= '9' || c == '-' || c == '_'
  }

  predicate NameChars(s: string)
  {
    forall k :: 0 <= k < |s| ==> NameChar(s[k])
  }

  /** What sanitising leaves: name characters only, at most 50 of them, and no '-' at
      either end. */
  predicate CleanName(s: string)
  {
    |s| <= MaxNameLength && NameChars(s) && (s != [] ==> s[0] != '-' && s[|s| - 1] != '-')
  }

  /** Every character outside [A-Za-z0-9_-] becomes '-'. */
  function ReplaceUnsafe(s: string): string
  {
    if s == [] then [] else [if NameChar(s[0]) then s[0] else '-'] + ReplaceUnsafe(s[1..])
  }

  function TrimLeftDashes(s: string): string
  {
    if s != [] && s[0] == '-' then TrimLeftDashes(s[1..]) else s
  }

  function TrimRightDashes(s: string): string
  {
    if s != [] && s[|s| - 1] == '-' then TrimRightDashes(s[..|s| - 1]) else s
  }

  function Truncate(s: string): string
  {
    if |s| > MaxNameLength then s[..MaxNameLength] else s
  }

  /** One component of a process name: replace, cut to 50, trim dashes at both ends. */
  function Sanitize(s: string): string
  {
    TrimRightDashes(TrimLeftDashes(Truncate(ReplaceUnsafe(s))))
  }

  /** Replacing keeps the length, leaves name characters alone and leaves only name
      characters. */
  lemma {:induction false} ReplaceUnsafeShape(s: string)
    ensures |ReplaceUnsafe(s)| == |s| && NameChars(ReplaceUnsafe(s))
    ensures forall k :: 0 <= k < |s| && NameChar(s[k]) ==> ReplaceUnsafe(s)[k] == s[k]
  {
    if s != [] {
      ReplaceUnsafeShape(s[1..]);
      var r := ReplaceUnsafe(s);
      assert forall k :: 1 <= k < |s| ==> r[k] == ReplaceUnsafe(s[1..])[k - 1] && s[k] == s[1..][k - 1];
    }
  }

  /** Trimming on the left leaves a suffix that does not start with '-'. */
  lemma {:induction false} TrimLeftDashesShape(s: string)
    ensures |TrimLeftDashes(s)| <= |s| && TrimLeftDashes(s) == s[|s| - |TrimLeftDashes(s)|..]
    ensures TrimLeftDashes(s) != [] ==> TrimLeftDashes(s)[0] != '-'
  {
    if s != [] && s[0] == '-' {
      TrimLeftDashesShape(s[1..]);
      assert s[1..][|s| - 1 - |TrimLeftDashes(s)|..] == s[|s| - |TrimLeftDashes(s)|..];
    }
  }

  /** Trimming on the right leaves a prefix that does not end with '-'. */
  lemma {:induction false} TrimRightDashesShape(s: string)
    ensures |TrimRightDashes(s)| <= |s| && TrimRightDashes(s) == s[..|TrimRightDashes(s)|]
    ensures TrimRightDashes(s) != [] ==> TrimRightDashes(s)[|TrimRightDashes(s)| - 1] != '-'
  {
    if s != [] && s[|s| - 1] == '-' {
      TrimRightDashesShape(s[..|s| - 1]);
      assert s[..|s| - 1][..|TrimRightDashes(s)|] == s[..|TrimRightDashes(s)|];
    }
  }

  /** Whatever the input, a sanitised component is clean. */
  lemma SanitizeIsClean(s: string)
    ensures CleanName(Sanitize(s))
  {
    var replaced := ReplaceUnsafe(s);
    ReplaceUnsafeShape(s);
    var cut := Truncate(replaced);
    assert NameChars(cut) by {
      forall k | 0 <= k < |cut| ensures NameChar(cut[k]) {
        assert cut[k] == replaced[k];
      }
    }
    var left := TrimLeftDashes(cut);
    TrimLeftDashesShape(cut);
    forall k | 0 <= k < |left| ensures NameChar(left[k]) {
      assert left[k] == cut[|cut| - |left| + k];
    }
    var r := TrimRightDashes(left);
    TrimRightDashesShape(left);
    forall k | 0 <= k < |r| ensures NameChar(r[k]) {
      assert r[k] == left[k];
    }
    if r != [] {
      assert r[0] == left[0];
    }
  }

  /** Sanitising leaves a component alone exactly when it is already clean. */
  lemma SanitizeFixpoints(s: string)
    ensures Sanitize(s) == s <==> CleanName(s)
  {
    SanitizeIsClean(s);
    if CleanName(s) {
      ReplaceUnsafeShape(s);
      assert ReplaceUnsafe(s) == s;
    }
  }

  /** Sanitising twice is sanitising once. */
  lemma SanitizeIdempotent(s: string)
    ensures Sanitize(Sanitize(s)) == Sanitize(s)
  {
    SanitizeIsClean(s);
    SanitizeFixpoints(Sanitize(s));
  }

  /** The name the application is started under. */
  function ProcessName(owner: string, repo: string, environment: string): string
  {
    Sanitize(owner) + "-" + Sanitize(repo) + "-" + Sanitize(environment)
  }

  /** The name the previous instance is stopped under: the raw components. */
  function StopName(owner: string, repo: string, environment: string): string
  {
    owner + "-" + repo + "-" + environment
  }

  lemma NameCharsConcat(a: string, b: string)
    requires NameChars(a) && NameChars(b)
    ensures NameChars(a + b)
  {
    forall k | 0 <= k < |a + b| ensures NameChar((a + b)[k]) {
      if k >= |a| {
        assert (a + b)[k] == b[k - |a|];
      }
    }
  }

  lemma DashJoinChars(a: string, b: string, c: string)
    requires NameChars(a) && NameChars(b) && NameChars(c)
    ensures NameChars(a + "-" + b + "-" + c)
  {
    NameCharsConcat(a, "-");
    NameCharsConcat(a + "-", b);
    NameCharsConcat(a + "-" + b, "-");
    NameCharsConcat(a + "-" + b + "-", c);
  }

  /** The start name is made of name characters only. */
  lemma ProcessNameChars(owner: string, repo: string, environment: string)
    ensures NameChars(ProcessName(owner, repo, environment))
  {
    SanitizeIsClean(owner);
    SanitizeIsClean(repo);
    SanitizeIsClean(environment);
    DashJoinChars(Sanitize(owner), Sanitize(repo), Sanitize(environment));
  }

  /** The stop and start names agree when every component is already clean. */
  lemma StopNameMatchesStartName(owner: string, repo: string, environment: string)
    requires CleanName(owner) && CleanName(repo) && CleanName(environment)
    ensures StopName(owner, repo, environment) == ProcessName(owner, repo, environment)
  {
    SanitizeFixpoints(owner);
    SanitizeFixpoints(repo);
    SanitizeFixpoints(environment);
  }

  /** A component holding any character outside [A-Za-z0-9_-] (a dot in a repository name,
      say) makes the stop name differ from the name the previous instance was started under,
      so that instance is not stopped. */
  lemma StopNameMisses(owner: string, repo: string, environment: string)
    requires !(NameChars(owner) && NameChars(repo) && NameChars(environment))
    ensures StopName(owner, repo, environment) != ProcessName(owner, repo, environment)
  {
    ProcessNameChars(owner, repo, environment);
    StopNameUnclean(owner, repo, environment);
  }

  lemma StopNameUnclean(owner: string, repo: string, environment: string)
    requires !(NameChars(owner) && NameChars(repo) && NameChars(environment))
    ensures !NameChars(StopName(owner, repo, environment))
  {
    var stop := owner + "-" + repo + "-" + environment;
    if !NameChars(owner) {
      var k :| 0 <= k < |owner| && !NameChar(owner[k]);
      assert stop[k] == owner[k];
    } else if !NameChars(repo) {
      var k :| 0 <= k < |repo| && !NameChar(repo[k]);
      assert stop[|owner| + 1 + k] == repo[k];
    } else {
      var k :| 0 <= k < |environment| && !NameChar(environment[k]);
      assert stop[|owner| + |repo| + 2 + k] == environment[k];
    }
  }

  // ---------------------------------------------------------------------------
  // allocatePort and generateURL

  /** The sum of the character codes. */
  function CodeSum(s: string): nat
  {
    if s == [] then 0 else CodeSum(s[..|s| - 1]) + s[|s| - 1] as int
  }

  /** The port an environment gets when the detector names none. */
  function PortFor(environment: string): (port: int)
    ensures BasePort <= port < BasePort + 1000
  {
    BasePort + CodeSum(environment) % 1000
  }

  /** allocatePort's loop over the characters of the environment name. */
  method AllocatePort(environment: string) returns (port: int)
    ensures port == PortFor(environment)
    ensures 3000 <= port <= 3999
  {
    var hash := 0;
    var i := 0;
    while i < |environment|
      invariant 0 <= i <= |environment|
      invariant hash == CodeSum(environment[..i])
    {
      assert environment[..i + 1][..i] == environment[..i];
      hash := hash + environment[i] as int;
      i := i + 1;
    }
    assert environment[..i] == environment;
    port := BasePort + hash % 1000;
  }

  /** The public address: the repository name stands in for "production". */
  function DeploymentURL(environment: string, repo: string, domain: string): string
  {
    "https://" + Subdomain(environment, repo) + "." + domain
  }

  function Subdomain(environment: string, repo: string): string
  {
    if environment == "production" then repo else environment
  }

  /** The subdomain can be read back from the address. */
  lemma URLShape(environment: string, repo: string, domain: string)
    ensures var url := DeploymentURL(environment, repo, domain);
            var sub := Subdomain(environment, repo);
            Text.HasPrefix(url, "https://") && Text.HasSuffix(url, "." + domain)
            && url[8..|url| - |domain| - 1] == sub
  {
    var url := DeploymentURL(environment, repo, domain);
    var sub := Subdomain(environment, repo);
    assert url == "https://" + sub + ("." + domain);
  }

  // ---------------------------------------------------------------------------
  // Identifiers, log paths, clone URLs

  /** owner-repo-<first 7 of the sha>-<unix time>. */
  function DeploymentId(owner: string, repo: string, sha: string, now: int): string
    requires |sha| >= 7
  {
    owner + "-" + repo + "-" + sha[..7] + "-" + Text.IntToString(now)
  }

  /** Two enqueues of the same commit at different seconds get different identifiers. */
  lemma IdsDifferOverTime(owner: string, repo: string, sha: string, t1: int, t2: int)
    requires |sha| >= 7 && t1 != t2
    ensures DeploymentId(owner, repo, sha, t1) != DeploymentId(owner, repo, sha, t2)
  {
    var prefix := owner + "-" + repo + "-" + sha[..7] + "-";
    var a, b := Text.IntToString(t1), Text.IntToString(t2);
    if prefix + a == prefix + b {
      assert (prefix + a)[|prefix|..] == a;
      assert (prefix + b)[|prefix|..] == b;
      Text.IntToStringInjective(t1, t2);
    }
  }

  /** Where a deployment's log is written: filepath.Join of the logs directory and
      "<id>.log", cleaned. */
  function LogPath(logsDir: string, id: string): string
  {
    Paths.JoinElems([logsDir, id + ".log"])
  }

  /** Under the default logs directory ./logs, an identifier without '/' has its log at
      logs/<id>.log. */
  lemma DefaultLogPath(id: string)
    requires '/' !in id
    ensures LogPath("./logs", id) == "logs/" + id + ".log"
  {
    var parts := ["logs", id + ".log"];
    assert Paths.PlainElem(id + ".log") by {
      assert |id + ".log"| >= 4;
    }
    Paths.Join2("./logs", id + ".log", '/');
    Paths.Join2("logs", id + ".log", '/');
    assert "./logs" + "/" + (id + ".log") == "./" + ("logs" + "/" + (id + ".log"));
    Paths.DotRelative(parts);
  }

  /** The clone URL may be sliced past its scheme only when it is at least that long. */
  predicate CloneURLUsable(token: string, url: string)
  {
    token != "" ==> |url| >= 8
  }

  /** With a token, the first eight characters (the https:// scheme) are replaced by
      https://<token>@. */
  function CloneURLFor(token: string, url: string): (r: string)
    requires CloneURLUsable(token, url)
  {
    if token == "" then url else "https://" + token + "@" + url[8..]
  }

  /** For an https address the token is inserted right after the scheme, and nothing else
      changes. */
  lemma TokenAfterScheme(token: string, url: string)
    requires Text.HasPrefix(url, "https://")
    ensures CloneURLFor(token, url) == if token == "" then url else url[..8] + token + "@" + url[8..]
    ensures token != "" ==> Text.HasSuffix(CloneURLFor(token, url), "@" + url[8..])
  {
  }

  // ---------------------------------------------------------------------------
  // The state machine as a specification

  /** The error text of a failed external step; never empty. */
  type ErrText = s: string | s != "" witness "exit status 1"

  /** How an external step ended. */
  datatype Exit = Zero | Fault(message: ErrText)

  /** What the outside world would answer at each step of one deployment. */
  datatype World = World(
    logFile: Exit,          // creating the log file
    repoCloned: bool,       // a .git directory already exists in the workspace
    sync: Exit,             // git fetch --all, or git clone
    checkout: Exit,         // git checkout <sha>
    tree: Detector.Tree,    // the markers of the checked-out tree
    build: Exit,            // sh -c <build command>
    launch: Exit,           // sh -c <start> for docker projects, pm2 start otherwise
    direct: Exit)           // the fallback: the start command's fields executed directly

  /** The external processes started, in order. */
  datatype Action =
    | GitFetch(dir: string)
    | GitClone(url: string, dir: string)
    | GitCheckout(dir: string, sha: string)
    | Build(dir: string, command: string, port: int)  // PORT in the build's environment
    | StopPrevious(name: string)  // pm2 stop, pm2 delete, docker-compose down: failures ignored
    | ComposeUp(dir: string, command: string, project: string)
    | Pm2Start(dir: string, command: string, name: string, port: int)
    | Exec(dir: string, args: seq<string>, port: int)

  /** The parts of a deployment record the state machine reads. */
  datatype Coordinates = Coordinates(owner: string, repo: string, ref: string, sha: string,
                                     cloneURL: string, environment: string, prNumber: int,
                                     gitHubDeploymentID: int)

  /** What processing one deployment comes to: the processes started, the project type and
      port once detection has run, and the public URL or the error text. */
  datatype Report = Report(actions: seq<Action>, projectType: Option<string>, port: Option<int>,
                           result: Result<string, string>)

  /** The port used: the detector's, else the allocated one (no per-project override exists). */
  function ResolvePort(d: Detector.Detection, environment: string): int
  {
    if d.port == 0 then PortFor(environment) else d.port
  }

  /** The build step: skipped without a build command; otherwise validate the command and the
      directory, then run it. Answers the processes started and the error, if any. */
  function BuildStage(reposDir: string, dir: string, command: string, w: World): (seq<Action>, Option<string>)
  {
    if command == "" then ([], None)
    else match CheckCommand(command)
      case Fail(m) => ([], Some(BuildCommandRejected + m))
      case Pass =>
        match ValidatePath(dir, reposDir)
        case Fail(m) => ([], Some(BuildDirRejected + m))
        case Pass =>
          ([Build(dir, command, BuildPort)], if w.build.Fault? then Some(BuildFailed + w.build.message) else None)
  }

  /** The start step: validate the command and the directory; docker projects go through
      compose; others through pm2, falling back once to direct execution of the command's
      fields when pm2 fails. */
  function StartStage(reposDir: string, dir: string, command: string, projectType: string,
                      name: string, port: int, w: World): (seq<Action>, Option<string>)
  {
    match CheckCommand(command)
    case Fail(m) => ([], Some(StartCommandRejected + m))
    case Pass =>
      match ValidatePath(dir, reposDir)
      case Fail(m) => ([], Some(StartDirRejected + m))
      case Pass =>
        if projectType == "docker" then
          ([ComposeUp(dir, command, name)],
           if w.launch.Fault? then Some(StartFailed + w.launch.message) else None)
        else if w.launch.Zero? then
          ([Pm2Start(dir, command, name, port)], None)
        else
          var args := Text.Fields(command);
          if args == [] then
            ([Pm2Start(dir, command, name, port)], Some(EmptyStartCommand))
          else
            ([Pm2Start(dir, command, name, port), Exec(dir, args, port)],
             if w.direct.Fault? then Some(StartFailed + w.direct.message) else None)
  }

  /** Without a .git directory and with a token configured, the clone URL is sliced past
      its scheme, which needs at least eight characters. */
  predicate Runnable(cfg: Config.Config, c: Coordinates, w: World)
  {
    w.repoCloned || CloneURLUsable(cfg.gitHubToken, c.cloneURL)
  }

  /** The steps after the checkout, given the detection: port, build, displacement of the
      previous instance, start, address. */
  function AfterCheckout(cfg: Config.Config, c: Coordinates, d: Detector.Detection, w: World): Report
  {
    var dir := RepoPath(cfg.reposDir, c.owner, c.repo);
    var projectType := Detector.TypeName(d.kind);
    var port := ResolvePort(d, c.environment);
    var (built, buildError) := BuildStage(cfg.reposDir, dir, d.buildCmd, w);
    if buildError.Some? then Report(built, Some(projectType), Some(port), Err(buildError.value))
    else
      var name := ProcessName(c.owner, c.repo, c.environment);
      var (started, startError) := StartStage(cfg.reposDir, dir, d.startCmd, projectType, name, port, w);
      Report(built + [StopPrevious(StopName(c.owner, c.repo, c.environment))] + started,
             Some(projectType), Some(port),
             if startError.Some? then Err(startError.value)
             else Ok(DeploymentURL(c.environment, c.repo, cfg.deploymentDomain)))
  }

  /** The processes that fetch the commit. */
  function Fetching(cfg: Config.Config, c: Coordinates, w: World): (actions: seq<Action>)
    requires Runnable(cfg, c, w)
    ensures |actions| == 2 && (actions[0].GitFetch? || actions[0].GitClone?) && actions[1].GitCheckout?
  {
    var dir := RepoPath(cfg.reposDir, c.owner, c.repo);
    [if w.repoCloned then GitFetch(dir) else GitClone(CloneURLFor(cfg.gitHubToken, c.cloneURL), dir),
     GitCheckout(dir, c.sha)]
  }

  /** processDeployment, step by step, as a function of the configuration, the record's
      coordinates and the world's answers: the detector runs on the checked-out tree. */
  function Pipeline(cfg: Config.Config, c: Coordinates, w: World): Report
    requires Runnable(cfg, c, w)
  {
    Processing(cfg, c, Detector.Selected(w.tree), w)
  }

  /** The same steps for a given outcome `d` of the detection. */
  function Processing(cfg: Config.Config, c: Coordinates, d: Detector.Detection, w: World): Report
    requires Runnable(cfg, c, w)
  {
    var fetching := Fetching(cfg, c, w);
    if w.logFile.Fault? then Report([], None, None, Err(LogFileFailed + w.logFile.message))
    else if w.sync.Fault? then Report(fetching[..1], None, None, Err(w.sync.message))
    else if w.checkout.Fault? then Report(fetching, None, None, Err(w.checkout.message))
    else
      var rest := AfterCheckout(cfg, c, d, w);
      rest.(actions := fetching + rest.actions)
  }

  // ---------------------------------------------------------------------------
  // Collaborator calls

  /** The calls made to storage, the GitHub status API and the alerting channels. */
  datatype Notice =
    | Stored(status: Models.Status)
    | GitHubStatus(state: string, url: string, description: string)
    | PullRequestComment(number: int, body: string)
    | SuccessAlert(project: string, environment: string, ref: string, sha: string, url: string, seconds: int)
    | FailureAlert(project: string, environment: string, ref: string, sha: string, error: string, seconds: int)

  /** The calls made when a worker claims a deployment. */
  function StartNotices(linked: bool, c: Coordinates): seq<Notice>
  {
    [Stored(Models.InProgress)]
    + (if linked && c.gitHubDeploymentID > 0 then [GitHubStatus("in_progress", "", "Deployment started")] else [])
  }

  /** The calls made on the terminal transition, success or failure. */
  function EndNotices(linked: bool, alerting: bool, c: Coordinates, result: Result<string, string>,
                      seconds: int): seq<Notice>
  {
    var project := c.owner + "/" + c.repo;
    var tracked := linked && c.gitHubDeploymentID > 0;
    match result
    case Ok(url) =>
      [Stored(Models.Success)]
      + (if tracked then [GitHubStatus("success", url, "Deployment successful")] else [])
      + (if tracked && c.prNumber > 0
         then [PullRequestComment(c.prNumber, "\U{1F680} Preview deployment ready at " + url)] else [])
      + (if alerting then [SuccessAlert(project, c.environment, c.ref, c.sha, url, seconds)] else [])
    case Err(e) =>
      [Stored(Models.Failed)]
      + (if tracked then [GitHubStatus("failure", "", e)] else [])
      + (if alerting then [FailureAlert(project, c.environment, c.ref, c.sha, e, seconds)] else [])
  }

  // ---------------------------------------------------------------------------
  // Properties of the state machine

  /** What must hold after the checkout for a deployment to succeed. */
  predicate StepsSucceed(cfg: Config.Config, c: Coordinates, d: Detector.Detection, w: World)
  {
    (d.buildCmd != "" ==> SafeCommand(d.buildCmd) && w.build.Zero?)
    && SafeCommand(d.startCmd)
    && ValidatePath(RepoPath(cfg.reposDir, c.owner, c.repo), cfg.reposDir).Pass?
    && (if d.kind == Detector.Docker then w.launch.Zero?
        else w.launch.Zero? || (!Text.AllSpace(d.startCmd) && w.direct.Zero?))
  }

  /** The build step fails exactly when there is a command and it, the directory or the build
      itself is refused. */
  lemma BuildStageSucceeds(reposDir: string, dir: string, command: string, w: World)
    ensures BuildStage(reposDir, dir, command, w).1.None?
            <==> (command != "" ==> SafeCommand(command) && ValidatePath(dir, reposDir).Pass? && w.build.Zero?)
  {
    CheckCommandAccepts(command);
  }

  /** The start step succeeds exactly when the command and the directory pass and the launch
      succeeds, directly or, outside docker, through the fallback on a command with a word. */
  lemma StartStageSucceeds(reposDir: string, dir: string, command: string, projectType: string,
                           name: string, port: int, w: World)
    ensures StartStage(reposDir, dir, command, projectType, name, port, w).1.None?
            <==> SafeCommand(command) && ValidatePath(dir, reposDir).Pass?
                 && (if projectType == "docker" then w.launch.Zero?
                     else w.launch.Zero? || (!Text.AllSpace(command) && w.direct.Zero?))
  {
    CheckCommandAccepts(command);
    Text.FieldsShape(command);
  }

  lemma AfterCheckoutSucceedsIff(cfg: Config.Config, c: Coordinates, d: Detector.Detection, w: World)
    ensures AfterCheckout(cfg, c, d, w).result.Ok? <==> StepsSucceed(cfg, c, d, w)
  {
    var dir := RepoPath(cfg.reposDir, c.owner, c.repo);
    BuildStageSucceeds(cfg.reposDir, dir, d.buildCmd, w);
    StartStageSucceeds(cfg.reposDir, dir, d.startCmd, Detector.TypeName(d.kind),
                       ProcessName(c.owner, c.repo, c.environment), ResolvePort(d, c.environment), w);
    if d.kind != Detector.Docker {
      assert Detector.TypeName(d.kind)[0] != 'd';
    }
  }

  /** Processing succeeds exactly when every step that runs succeeds: the log file, the sync,
      the checkout, the build (if there is one, after its checks), and the start (after its
      checks), where a failed pm2 start is rescued only by a successful direct execution. */
  lemma SucceedsIff(cfg: Config.Config, c: Coordinates, d: Detector.Detection, w: World)
    requires Runnable(cfg, c, w)
    ensures Processing(cfg, c, d, w).result.Ok?
            <==> w.logFile.Zero? && w.sync.Zero? && w.checkout.Zero? && StepsSucceed(cfg, c, d, w)
  {
    ProcessingStages(cfg, c, d, w);
    AfterCheckoutSucceedsIff(cfg, c, d, w);
  }

  /** The first two processes are always the fetching ones; once the log file, the sync and
      the checkout succeed, the rest is the steps after the checkout for the detected project;
      otherwise processing stops with an error before detection. */
  lemma ProcessingStages(cfg: Config.Config, c: Coordinates, d: Detector.Detection, w: World)
    requires Runnable(cfg, c, w)
    ensures var r := Processing(cfg, c, d, w);
            (forall k :: 0 <= k < |r.actions| && k < 2 ==> r.actions[k] == Fetching(cfg, c, w)[k])
            && (|r.actions| > 2 ==> w.logFile.Zero? && w.sync.Zero? && w.checkout.Zero?
                                    && |r.actions| == 2 + |AfterCheckout(cfg, c, d, w).actions|)
            && (forall k :: 2 <= k < |r.actions| ==> r.actions[k] == AfterCheckout(cfg, c, d, w).actions[k - 2])
    ensures var r := Processing(cfg, c, d, w);
            var rest := AfterCheckout(cfg, c, d, w);
            if w.logFile.Zero? && w.sync.Zero? && w.checkout.Zero?
            then r.actions == Fetching(cfg, c, w) + rest.actions
                 && r.projectType == rest.projectType && r.port == rest.port && r.result == rest.result
            else r.result.Err? && r.projectType.None? && r.port.None? && |r.actions| <= 2
  {
    var r := Processing(cfg, c, d, w);
    var fetching := Fetching(cfg, c, w);
    if w.logFile.Zero? && w.sync.Zero? && w.checkout.Zero? {
      var rest := AfterCheckout(cfg, c, d, w);
      assert r.actions == fetching + rest.actions;
      assert forall k :: 2 <= k < |r.actions| ==> r.actions[k] == rest.actions[k - 2];
    }
  }

  /** On success the report carries the detected type, the resolved port and the address. */
  lemma SuccessReport(cfg: Config.Config, c: Coordinates, d: Detector.Detection, w: World)
    requires StepsSucceed(cfg, c, d, w)
    ensures AfterCheckout(cfg, c, d, w).result == Ok(DeploymentURL(c.environment, c.repo, cfg.deploymentDomain))
    ensures AfterCheckout(cfg, c, d, w).projectType == Some(Detector.TypeName(d.kind))
    ensures AfterCheckout(cfg, c, d, w).port == Some(ResolvePort(d, c.environment))
  {
    AfterCheckoutSucceedsIff(cfg, c, d, w);
  }

  /** The build step starts at most one process, the build itself. */
  lemma BuildStageShape(reposDir: string, dir: string, command: string, w: World)
    ensures var acts := BuildStage(reposDir, dir, command, w).0;
            |acts| <= 1
            && forall k :: 0 <= k < |acts| ==> acts[k].Build? && acts[k].port == BuildPort && acts[k].command == command
  {
  }

  /** The start step starts compose, or pm2 followed, only after pm2 failed, by the direct
      execution. */
  lemma StartStageShape(reposDir: string, dir: string, command: string, projectType: string,
                        name: string, port: int, w: World)
    ensures var acts := StartStage(reposDir, dir, command, projectType, name, port, w).0;
            |acts| <= 2
            && (|acts| >= 1 ==> acts[0].Pm2Start? || acts[0].ComposeUp?)
            && (|acts| == 2 ==> acts[0].Pm2Start? && acts[1].Exec? && w.launch.Fault?)
            && forall k :: 0 <= k < |acts| && (acts[k].Pm2Start? || acts[k].Exec?) ==> acts[k].port == port
  {
  }

  /** The processes after the checkout: the build's, then the displacement and the start's. */
  lemma AfterCheckoutActions(cfg: Config.Config, c: Coordinates, d: Detector.Detection, w: World)
    ensures var dir := RepoPath(cfg.reposDir, c.owner, c.repo);
            var b := BuildStage(cfg.reposDir, dir, d.buildCmd, w);
            var st := StartStage(cfg.reposDir, dir, d.startCmd, Detector.TypeName(d.kind),
                                 ProcessName(c.owner, c.repo, c.environment), ResolvePort(d, c.environment), w);
            AfterCheckout(cfg, c, d, w).actions
            == if b.1.Some? then b.0 else b.0 + [StopPrevious(StopName(c.owner, c.repo, c.environment))] + st.0
  {
  }

  /** Every build in acts runs command on the fixed port, and every pm2 start or direct
      execution gets port. */
  predicate ProcessPorts(acts: seq<Action>, command: string, port: int)
  {
    forall k :: 0 <= k < |acts| ==>
      (acts[k].Build? ==> acts[k].port == BuildPort && acts[k].command == command)
      && (acts[k].Pm2Start? || acts[k].Exec? ==> acts[k].port == port)
  }

  lemma ProcessPortsConcat(x: seq<Action>, y: seq<Action>, command: string, port: int)
    requires ProcessPorts(x, command, port) && ProcessPorts(y, command, port)
    ensures ProcessPorts(x + y, command, port)
  {
    forall k | 0 <= k < |x + y|
      ensures ((x + y)[k].Build? ==> (x + y)[k].port == BuildPort && (x + y)[k].command == command)
              && ((x + y)[k].Pm2Start? || (x + y)[k].Exec? ==> (x + y)[k].port == port)
    {
      if k < |x| { assert (x + y)[k] == x[k]; } else { assert (x + y)[k] == y[k - |x|]; }
    }
  }

  /** The build runs on the fixed port 3000 even when the deployment resolves another one;
      only the start processes get the resolved port. */
  lemma BuildOnFixedPort(cfg: Config.Config, c: Coordinates, d: Detector.Detection, w: World)
    ensures ProcessPorts(AfterCheckout(cfg, c, d, w).actions, d.buildCmd, ResolvePort(d, c.environment))
  {
    var dir := RepoPath(cfg.reposDir, c.owner, c.repo);
    var port := ResolvePort(d, c.environment);
    var b := BuildStage(cfg.reposDir, dir, d.buildCmd, w);
    var st := StartStage(cfg.reposDir, dir, d.startCmd, Detector.TypeName(d.kind),
                         ProcessName(c.owner, c.repo, c.environment), port, w);
    var stop := StopPrevious(StopName(c.owner, c.repo, c.environment));
    AfterCheckoutActions(cfg, c, d, w);
    BuildStageShape(cfg.reposDir, dir, d.buildCmd, w);
    StartStageShape(cfg.reposDir, dir, d.startCmd, Detector.TypeName(d.kind),
                    ProcessName(c.owner, c.repo, c.environment), port, w);
    assert ProcessPorts(b.0, d.buildCmd, port);
    assert ProcessPorts(st.0, d.buildCmd, port);
    ProcessPortsSteps(b.0, b.1.Some?, stop, st.0, d.buildCmd, port);
  }

  lemma ProcessPortsSteps(built: seq<Action>, failed: bool, stop: Action, started: seq<Action>,
                        command: string, port: int)
    requires ProcessPorts(built, command, port) && ProcessPorts(started, command, port) && stop.StopPrevious?
    ensures ProcessPorts(if failed then built else built + [stop] + started, command, port)
  {
    if !failed {
      assert ProcessPorts([stop], command, port);
      ProcessPortsConcat(built, [stop], command, port);
      ProcessPortsConcat(built + [stop], started, command, port);
    }
  }

  lemma AfterCheckoutFallback(cfg: Config.Config, c: Coordinates, d: Detector.Detection, w: World, k: nat)
    requires k < |AfterCheckout(cfg, c, d, w).actions| && AfterCheckout(cfg, c, d, w).actions[k].Exec?
    ensures k == |AfterCheckout(cfg, c, d, w).actions| - 1 && k > 0
    ensures AfterCheckout(cfg, c, d, w).actions[k - 1].Pm2Start? && w.launch.Fault?
  {
    var dir := RepoPath(cfg.reposDir, c.owner, c.repo);
    var b := BuildStage(cfg.reposDir, dir, d.buildCmd, w);
    var st := StartStage(cfg.reposDir, dir, d.startCmd, Detector.TypeName(d.kind),
                         ProcessName(c.owner, c.repo, c.environment), ResolvePort(d, c.environment), w);
    BuildStageShape(cfg.reposDir, dir, d.buildCmd, w);
    StartStageShape(cfg.reposDir, dir, d.startCmd, Detector.TypeName(d.kind),
                    ProcessName(c.owner, c.repo, c.environment), ResolvePort(d, c.environment), w);
    AfterCheckoutActions(cfg, c, d, w);
    ExecOnlyLast(b.0, StopPrevious(StopName(c.owner, c.repo, c.environment)), st.0, k);
  }

  /** In a build list, a stop and a start list, a direct execution can only be the start
      list's second and last process, after its pm2 start. */
  lemma ExecOnlyLast(built: seq<Action>, stop: Action, started: seq<Action>, k: nat)
    requires forall j :: 0 <= j < |built| ==> built[j].Build?
    requires stop.StopPrevious?
    requires |started| <= 2 && (|started| >= 1 ==> started[0].Pm2Start? || started[0].ComposeUp?)
             && (|started| == 2 ==> started[0].Pm2Start? && started[1].Exec?)
    ensures var acts := built + [stop] + started;
            k < |acts| && acts[k].Exec? ==> |started| == 2 && k == |acts| - 1 && acts[k - 1] == started[0]
  {
    var acts := built + [stop] + started;
    if k < |acts| {
      var a := acts[k];
      assert k < |built| ==> a == built[k];
      assert k == |built| ==> a == stop;
      assert k > |built| ==> a == started[k - |built| - 1];
    }
  }

  /** The fallback runs only right after a failed pm2 start, and is the last process. */
  lemma FallbackOnlyAfterPm2Fails(cfg: Config.Config, c: Coordinates, d: Detector.Detection, w: World, k: nat)
    requires Runnable(cfg, c, w)
    requires k < |Processing(cfg, c, d, w).actions| && Processing(cfg, c, d, w).actions[k].Exec?
    ensures k == |Processing(cfg, c, d, w).actions| - 1
    ensures Processing(cfg, c, d, w).actions[k - 1].Pm2Start? && w.launch.Fault?
  {
    ProcessingStages(cfg, c, d, w);
    assert k >= 2;
    AfterCheckoutFallback(cfg, c, d, w, k - 2);
  }

  /** The fallback does run when pm2 fails for a project other than docker whose checks
      passed and whose start command has a word: the command's fields, in the workspace, with
      the port. */
  lemma FallbackRuns(cfg: Config.Config, c: Coordinates, d: Detector.Detection, w: World)
    requires d.buildCmd != "" ==> SafeCommand(d.buildCmd) && w.build.Zero?
    requires SafeCommand(d.startCmd) && !Text.AllSpace(d.startCmd)
    requires ValidatePath(RepoPath(cfg.reposDir, c.owner, c.repo), cfg.reposDir).Pass?
    requires d.kind != Detector.Docker && w.launch.Fault?
    ensures var actions := AfterCheckout(cfg, c, d, w).actions;
            actions != []
            && actions[|actions| - 1]
               == Exec(RepoPath(cfg.reposDir, c.owner, c.repo), Text.Fields(d.startCmd), ResolvePort(d, c.environment))
  {
    CheckCommandAccepts(d.buildCmd);
    CheckCommandAccepts(d.startCmd);
    Text.FieldsShape(d.startCmd);
  }

  lemma AfterCheckoutDisplaces(cfg: Config.Config, c: Coordinates, d: Detector.Detection, w: World, k: nat)
    requires k < |AfterCheckout(cfg, c, d, w).actions|
    requires AfterCheckout(cfg, c, d, w).actions[k].Pm2Start? || AfterCheckout(cfg, c, d, w).actions[k].ComposeUp?
    ensures k > 0 && AfterCheckout(cfg, c, d, w).actions[k - 1] == StopPrevious(StopName(c.owner, c.repo, c.environment))
  {
    var dir := RepoPath(cfg.reposDir, c.owner, c.repo);
    var b := BuildStage(cfg.reposDir, dir, d.buildCmd, w);
    var st := StartStage(cfg.reposDir, dir, d.startCmd, Detector.TypeName(d.kind),
                         ProcessName(c.owner, c.repo, c.environment), ResolvePort(d, c.environment), w);
    BuildStageShape(cfg.reposDir, dir, d.buildCmd, w);
    StartStageShape(cfg.reposDir, dir, d.startCmd, Detector.TypeName(d.kind),
                    ProcessName(c.owner, c.repo, c.environment), ResolvePort(d, c.environment), w);
    AfterCheckoutActions(cfg, c, d, w);
    StartOnlyAfterStop(b.0, StopPrevious(StopName(c.owner, c.repo, c.environment)), st.0, k);
  }

  /** In a build list, a stop and a start list, a start can only be the start list's first
      process, right after the stop. */
  lemma StartOnlyAfterStop(built: seq<Action>, stop: Action, started: seq<Action>, k: nat)
    requires forall j :: 0 <= j < |built| ==> built[j].Build?
    requires stop.StopPrevious?
    requires |started| <= 2 && (|started| == 2 ==> started[1].Exec?)
    ensures var acts := built + [stop] + started;
            k < |acts| && (acts[k].Pm2Start? || acts[k].ComposeUp?) ==> k == |built| + 1 && acts[k - 1] == stop
  {
    var acts := built + [stop] + started;
    if k < |acts| {
      var a := acts[k];
      assert k < |built| ==> a == built[k];
      assert k == |built| ==> a == stop;
      assert k > |built| ==> a == started[k - |built| - 1];
    }
  }

  /** The previous instance is always stopped right before the new one is started, under the
      raw owner-repo-environment name. */
  lemma DisplaceBeforeStart(cfg: Config.Config, c: Coordinates, d: Detector.Detection, w: World, k: nat)
    requires Runnable(cfg, c, w)
    requires k < |Processing(cfg, c, d, w).actions|
    requires Processing(cfg, c, d, w).actions[k].Pm2Start? || Processing(cfg, c, d, w).actions[k].ComposeUp?
    ensures k > 0 && Processing(cfg, c, d, w).actions[k - 1] == StopPrevious(StopName(c.owner, c.repo, c.environment))
  {
    ProcessingStages(cfg, c, d, w);
    assert k >= 2;
    AfterCheckoutDisplaces(cfg, c, d, w, k - 2);
  }

  /** A deployment whose detected build or start command fails validation never succeeds:
      this is the case of every Dockerfile-only, Nuxt-from-source, Django and unrecognised
      project, and of Node projects with a build step. */
  lemma UnsafeCommandsNeverDeploy(cfg: Config.Config, c: Coordinates, w: World)
    requires Runnable(cfg, c, w)
    requires var d := Detector.Selected(w.tree);
             (d.buildCmd != "" && !SafeCommand(d.buildCmd)) || !SafeCommand(d.startCmd)
    ensures Pipeline(cfg, c, w).result.Err?
  {
    SucceedsIff(cfg, c, Detector.Selected(w.tree), w);
  }

  /** A tree no strategy recognises always fails at the start step, with the empty-command
      message. */
  lemma UnknownFailsAtStart(cfg: Config.Config, c: Coordinates, w: World)
    requires Runnable(cfg, c, w)
    requires forall s :: Detector.Detect(s, w.tree).None?
    requires w.logFile.Zero? && w.sync.Zero? && w.checkout.Zero?
    ensures Pipeline(cfg, c, w).result == Err(StartCommandRejected + EmptyCommand)
  {
    Detector.SelectedUnknown(w.tree);
    EmptyStartFails(cfg, c, Detector.Selected(w.tree), w);
  }

  /** A detection without a build or start command fails at the start command's check. */
  lemma EmptyStartFails(cfg: Config.Config, c: Coordinates, d: Detector.Detection, w: World)
    requires Runnable(cfg, c, w)
    requires d.buildCmd == "" && d.startCmd == ""
    requires w.logFile.Zero? && w.sync.Zero? && w.checkout.Zero?
    ensures Processing(cfg, c, d, w).result == Err(StartCommandRejected + EmptyCommand)
  {
    ProcessingStages(cfg, c, d, w);
  }

  /** A failed sync ends the deployment with the sync's own error text, after one process and
      before any type or port is recorded. */
  lemma SyncFailureStopsEarly(cfg: Config.Config, c: Coordinates, w: World)
    requires Runnable(cfg, c, w)
    requires w.logFile.Zero? && w.sync.Fault?
    ensures var r := Pipeline(cfg, c, w);
            r.result == Err(w.sync.message) && r.result.error != ""
            && r.projectType.None? && r.port.None? && |r.actions| == 1
  {
  }

  /** A plain site is detected as static, with no build, the python server and port 8080. */
  lemma IndexHtmlSelected(t: Detector.Tree)
    requires Detector.PlainSite(t)
    ensures var d := Detector.Selected(t);
            d.kind == Detector.Static && d.buildCmd == "" && d.startCmd == "python -m http.server 8080"
            && d.port == 8080
  {
    Detector.IndexHtmlGivesStatic(t);
  }

  lemma StaticServerSafe(command: string)
    requires command == "python -m http.server 8080"
    ensures SafeCommand(command)
  {
    ShortCommandFits(command);
    StaticServerClean(command);
  }

  lemma StaticServerClean(command: string)
    requires command == "python -m http.server 8080"
    ensures forall k :: 0 <= k < |command| ==> command[k] !in ForbiddenChars
  {
  }

  /** A repository whose tree holds index.html and no marker of another strategy, with every
      step succeeding, no `..` in the repositories root, the owner or the name, and an
      absolute root in clean form: a static site on port 8080, published at the repository's
      name for production and at the environment's otherwise. */
  lemma IndexHtmlDeploys(cfg: Config.Config, c: Coordinates, w: World)
    requires Runnable(cfg, c, w)
    requires !Text.Contains(cfg.reposDir, "..") && !Text.Contains(c.owner, "..") && !Text.Contains(c.repo, "..")
    requires Paths.Rooted(cfg.reposDir) ==> Paths.Clean(cfg.reposDir) == cfg.reposDir
    requires Detector.PlainSite(w.tree)
    requires w.logFile.Zero? && w.sync.Zero? && w.checkout.Zero? && w.launch.Zero?
    ensures var r := Pipeline(cfg, c, w);
            r.projectType == Some("static") && r.port == Some(8080)
            && r.result == Ok("https://" + (if c.environment == "production" then c.repo else c.environment)
                              + "." + cfg.deploymentDomain)
  {
    var d := Detector.Selected(w.tree);
    IndexHtmlSelected(w.tree);
    RepoPathAccepted(cfg.reposDir, c.owner, c.repo);
    StaticServerSucceeds(cfg, c, d, w);
    ProcessingSuccess(cfg, c, d, w);
  }

  /** The static server passes every check, so with an accepted workspace and a successful
      launch every step succeeds. */
  lemma StaticServerSucceeds(cfg: Config.Config, c: Coordinates, d: Detector.Detection, w: World)
    requires d.kind == Detector.Static && d.buildCmd == "" && d.startCmd == "python -m http.server 8080"
    requires ValidatePath(RepoPath(cfg.reposDir, c.owner, c.repo), cfg.reposDir) == Pass
    requires w.launch.Zero?
    ensures StepsSucceed(cfg, c, d, w)
  {
    StaticServerSafe(d.startCmd);
  }

  /** When every step succeeds, processing reports the address, the detected type and the
      resolved port. */
  lemma ProcessingSuccess(cfg: Config.Config, c: Coordinates, d: Detector.Detection, w: World)
    requires Runnable(cfg, c, w)
    requires w.logFile.Zero? && w.sync.Zero? && w.checkout.Zero? && StepsSucceed(cfg, c, d, w)
    ensures Processing(cfg, c, d, w).result == Ok(DeploymentURL(c.environment, c.repo, cfg.deploymentDomain))
    ensures Processing(cfg, c, d, w).projectType == Some(Detector.TypeName(d.kind))
    ensures Processing(cfg, c, d, w).port == Some(ResolvePort(d, c.environment))
  {
    ProcessingStages(cfg, c, d, w);
    SuccessReport(cfg, c, d, w);
  }

  // ---------------------------------------------------------------------------
  // The deployer

  /** The fields processing writes, as they end up: terminal status and both times, the
      address or the error, and the type and port once detection has run. */
  twostate predicate Recorded(dep: Models.Deployment, rep: Report, startTime: int, endTime: int)
    reads dep
  {
    dep.status == (if rep.result.Ok? then Models.Success else Models.Failed)
    && dep.startedAt == Some(startTime) && dep.completedAt == Some(endTime)
    && dep.url == (if rep.result.Ok? then rep.result.value else old(dep.url))
    && dep.error == (if rep.result.Err? then rep.result.error else old(dep.error))
    && dep.projectType == (if rep.projectType.Some? then rep.projectType.value else old(dep.projectType))
    && dep.port == (if rep.port.Some? then rep.port.value else old(dep.port))
  }

  /** The coordinates of a deployment record. */
  function Coords(dep: Models.Deployment): Coordinates
    reads dep`owner, dep`repo, dep`ref, dep`sha, dep`cloneURL, dep`environment, dep`prNumber,
          dep`gitHubDeploymentID
  {
    Coordinates(dep.owner, dep.repo, dep.ref, dep.sha, dep.cloneURL, dep.environment, dep.prNumber,
                dep.gitHubDeploymentID)
  }

  class Deployer {
    const config: Config.Config
    const workers: int
    const gitHubLinked: bool   // a GitHub client was supplied
    const alerting: bool       // an alerting manager was supplied
    var queue: seq<Models.Deployment>
    var active: map<string, Models.Deployment>

    /** The buffered channel's capacity is all the state the source keeps invariant: the
        active map and the records in the queue may hold anything. */
    ghost predicate Valid()
      reads this
    {
      |queue| <= QueueCapacity
    }

    constructor (cfg: Config.Config, gitHubLinked: bool, alerting: bool)
      ensures Valid() && config == cfg && workers == cfg.maxConcurrentDeployments
      ensures this.gitHubLinked == gitHubLinked && this.alerting == alerting
      ensures queue == [] && active == map[]
    {
      config := cfg;
      workers := cfg.maxConcurrentDeployments;
      this.gitHubLinked := gitHubLinked;
      this.alerting := alerting;
      queue := [];
      active := map[];
    }

    /** QueueDeployment: the identifier, status and log path are written first, whatever
        happens next; a storage failure or a full queue is reported without waiting. */
    method QueueDeployment(dep: Models.Deployment, now: int, store: Exit) returns (r: Outcome<string>)
      requires Valid() && |dep.sha| >= 7
      modifies this`queue, dep`id, dep`status, dep`logPath
      ensures Valid()
      ensures dep.id == DeploymentId(dep.owner, dep.repo, dep.sha, now)
      ensures dep.status == Models.Queued && dep.logPath == LogPath(config.logsDir, dep.id)
      ensures store.Fault? ==> r == Fail(StoreFailed + store.message) && queue == old(queue)
      ensures store.Zero? && |old(queue)| < QueueCapacity ==> r == Pass && queue == old(queue) + [dep]
      ensures store.Zero? && |old(queue)| >= QueueCapacity
              ==> r == Fail(QueueFull) && queue == old(queue)
    {
      dep.id := DeploymentId(dep.owner, dep.repo, dep.sha, now);
      dep.status := Models.Queued;
      dep.logPath := LogPath(config.logsDir, dep.id);
      if store.Fault? {
        return Fail(StoreFailed + store.message);
      }
      if |queue| < QueueCapacity {
        queue := queue + [dep];
        return Pass;
      }
      return Fail(QueueFull);
    }

    /** The record a worker's turn takes, if any: the only one it may write. */
    function Front(): (r: seq<Models.Deployment>)
      reads this
      ensures |r| <= 1 && (queue != [] ==> r == [queue[0]])
    {
      if queue == [] then [] else [queue[0]]
    }

    /** A worker's turn: take the oldest queued deployment, if any, and process it; the
        records queued behind it are not touched. */
    method Work(w: World, startTime: int, endTime: int)
      returns (taken: Option<Models.Deployment>, actions: seq<Action>, notices: seq<Notice>)
      requires Valid()
      requires queue != [] ==> Runnable(config, Coords(queue[0]), w)
      modifies this`queue, this`active, Front()`status, Front()`startedAt, Front()`completedAt,
               Front()`projectType, Front()`port, Front()`url, Front()`error
      ensures Valid()
      ensures old(queue) == [] ==> taken == None && queue == [] && active == old(active)
      ensures old(queue) != [] ==> taken == Some(old(queue)[0]) && queue == old(queue)[1..]
                                   && active == old(active) - {old(queue)[0].id}
      ensures taken.Some? ==>
                var rep := Pipeline(config, Coords(taken.value), w);
                actions == rep.actions && Recorded(taken.value, rep, startTime, endTime)
                && notices == StartNotices(gitHubLinked, Coords(taken.value))
                              + EndNotices(gitHubLinked, alerting, Coords(taken.value), rep.result,
                                           endTime - startTime)
    {
      if queue == [] {
        return None, [], [];
      }
      var dep := queue[0];
      queue := queue[1..];
      actions, notices := ProcessDeployment(dep, w, startTime, endTime);
      taken := Some(dep);
    }

    /** processDeployment: registered as active while it runs, it always ends in success or
        failure, with both times set. */
    method ProcessDeployment(dep: Models.Deployment, w: World, startTime: int, endTime: int)
      returns (actions: seq<Action>, notices: seq<Notice>)
      requires Runnable(config, Coords(dep), w)
      modifies this`active, dep`status, dep`startedAt, dep`completedAt, dep`projectType,
               dep`port, dep`url, dep`error
      ensures var rep := Pipeline(config, Coords(dep), w);
              actions == rep.actions && Recorded(dep, rep, startTime, endTime)
              && notices == StartNotices(gitHubLinked, Coords(dep))
                            + EndNotices(gitHubLinked, alerting, Coords(dep), rep.result, endTime - startTime)
      ensures Models.Terminal(dep.status) && dep.TimesAgree()
      ensures active == old(active) - {dep.id}
    {
      active := active[dep.id := dep];
      actions, notices := Execute(dep, w, startTime, endTime);
      active := active - {dep.id};
    }

    /** The steps run while the deployment is registered as active. */
    method Execute(dep: Models.Deployment, w: World, startTime: int, endTime: int)
      returns (actions: seq<Action>, notices: seq<Notice>)
      requires Runnable(config, Coords(dep), w)
      requires dep.id in active && active[dep.id] == dep
      modifies dep`status, dep`startedAt, dep`completedAt, dep`projectType, dep`port, dep`url, dep`error
      ensures var rep := Pipeline(config, Coords(dep), w);
              actions == rep.actions && Recorded(dep, rep, startTime, endTime)
              && notices == StartNotices(gitHubLinked, Coords(dep))
                            + EndNotices(gitHubLinked, alerting, Coords(dep), rep.result, endTime - startTime)
    {
      var c := Coords(dep);
      dep.status := Models.InProgress;
      dep.startedAt := Some(startTime);
      notices := StartNotices(gitHubLinked, c);
      var rep := Run(c, w);
      actions := rep.actions;
      var end := Finish(dep, rep, startTime, endTime);
      notices := notices + end;
    }

    /** Record what the steps came to: the type and port once detection has run, then the
        success (address, status, completion time and the collaborators' calls) or the
        failure through handleDeploymentError. */
    method Finish(dep: Models.Deployment, rep: Report, startTime: int, endTime: int) returns (notices: seq<Notice>)
      requires dep.startedAt == Some(startTime)
      modifies dep`status, dep`completedAt, dep`projectType, dep`port, dep`url, dep`error
      ensures Recorded(dep, rep, startTime, endTime)
      ensures notices == EndNotices(gitHubLinked, alerting, Coords(dep), rep.result, endTime - startTime)
    {
      if rep.projectType.Some? {
        dep.projectType := rep.projectType.value;
      }
      if rep.port.Some? {
        dep.port := rep.port.value;
      }
      match rep.result {
        case Ok(url) =>
          dep.url := url;
          dep.status := Models.Success;
          dep.completedAt := Some(endTime);
          notices := EndNotices(gitHubLinked, alerting, Coords(dep), rep.result, endTime - startTime);
        case Err(e) =>
          notices := HandleDeploymentError(dep, e, endTime);
      }
    }

    /** The steps as processDeployment takes them, up to the first failure. */
    method Run(c: Coordinates, w: World) returns (rep: Report)
      requires Runnable(config, c, w)
      ensures rep == Pipeline(config, c, w)
    {
      if w.logFile.Fault? {
        return Report([], None, None, Err(LogFileFailed + w.logFile.message));
      }
      var dir := RepoPath(config.reposDir, c.owner, c.repo);
      var sync: Action;
      if w.repoCloned {
        sync := GitFetch(dir);
      } else {
        sync := GitClone(CloneURLFor(config.gitHubToken, c.cloneURL), dir);
      }
      if w.sync.Fault? {
        return Report([sync], None, None, Err(w.sync.message));
      }
      var fetched := [sync, GitCheckout(dir, c.sha)];
      if w.checkout.Fault? {
        return Report(fetched, None, None, Err(w.checkout.message));
      }
      var detection := Detector.DetectProject(w.tree);
      var rest := Deploy(c, detection, w);
      rep := rest.(actions := fetched + rest.actions);
    }

    /** From the detection on: port, build, displacement, start, address. */
    method Deploy(c: Coordinates, d: Detector.Detection, w: World) returns (rep: Report)
      ensures rep == AfterCheckout(config, c, d, w)
    {
      var dir := RepoPath(config.reposDir, c.owner, c.repo);
      var projectType := Detector.TypeName(d.kind);
      var port := d.port;
      if port == 0 {
        port := AllocatePort(c.environment);
      }
      var built: seq<Action> := [];
      if d.buildCmd != "" {
        var buildError: Option<string>;
        built, buildError := RunBuild(dir, d.buildCmd, w);
        if buildError.Some? {
          return Report(built, Some(projectType), Some(port), Err(buildError.value));
        }
      }
      var stop := StopPrevious(StopName(c.owner, c.repo, c.environment));
      var started, startError := StartApplication(c, dir, d.startCmd, projectType, port, w);
      var actions := built + [stop] + started;
      if startError.Some? {
        return Report(actions, Some(projectType), Some(port), Err(startError.value));
      }
      return Report(actions, Some(projectType), Some(port), Ok(DeploymentURL(c.environment, c.repo, config.deploymentDomain)));
    }

    /** runCommand for the build: validate, then run through the shell (with PORT=3000). */
    method RunBuild(dir: string, command: string, w: World) returns (actions: seq<Action>, error: Option<string>)
      requires command != ""
      ensures (actions, error) == BuildStage(config.reposDir, dir, command, w)
    {
      var verdict := ValidateCommand(command);
      if verdict.Fail? {
        return [], Some(BuildCommandRejected + verdict.error);
      }
      var place := ValidatePath(dir, config.reposDir);
      if place.Fail? {
        return [], Some(BuildDirRejected + place.error);
      }
      actions := [Build(dir, command, BuildPort)];
      error := if w.build.Fault? then Some(BuildFailed + w.build.message) else None;
    }

    /** startApplication: validate, then compose for docker projects, pm2 otherwise with one
        direct-execution fallback. */
    method StartApplication(c: Coordinates, dir: string, command: string, projectType: string, port: int, w: World)
      returns (actions: seq<Action>, error: Option<string>)
      ensures (actions, error)
              == StartStage(config.reposDir, dir, command, projectType, ProcessName(c.owner, c.repo, c.environment), port, w)
    {
      var verdict := ValidateCommand(command);
      if verdict.Fail? {
        return [], Some(StartCommandRejected + verdict.error);
      }
      var place := ValidatePath(dir, config.reposDir);
      if place.Fail? {
        return [], Some(StartDirRejected + place.error);
      }
      var name := ProcessName(c.owner, c.repo, c.environment);
      if projectType == "docker" {
        actions := [ComposeUp(dir, command, name)];
        error := if w.launch.Fault? then Some(StartFailed + w.launch.message) else None;
        return;
      }
      actions := [Pm2Start(dir, command, name, port)];
      if w.launch.Zero? {
        return actions, None;
      }
      var args := Text.Fields(command);
      if |args| == 0 {
        return actions, Some(EmptyStartCommand);
      }
      actions := actions + [Exec(dir, args, port)];
      error := if w.direct.Fault? then Some(StartFailed + w.direct.message) else None;
      assert CheckCommand(command) == Pass;
      assert ValidatePath(dir, config.reposDir) == Pass;
      assert projectType != "docker" && w.launch.Fault? && args != [];
      assert actions == [Pm2Start(dir, command, name, port), Exec(dir, args, port)];
    }

    /** handleDeploymentError: mark failed, record the error and the completion time, and
        tell the collaborators. */
    method HandleDeploymentError(dep: Models.Deployment, error: string, endTime: int) returns (notices: seq<Notice>)
      requires dep.startedAt.Some?
      modifies dep`status, dep`error, dep`completedAt
      ensures dep.status == Models.Failed && dep.error == error && dep.completedAt == Some(endTime)
      ensures notices == EndNotices(gitHubLinked, alerting, Coords(dep), Err(error), endTime - dep.startedAt.value)
    {
      dep.status := Models.Failed;
      dep.error := error;
      dep.completedAt := Some(endTime);
      notices := EndNotices(gitHubLinked, alerting, Coords(dep), Err(error), endTime - dep.startedAt.value);
    }
  }
}
