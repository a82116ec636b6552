/** Project-type detection: seven strategies read declarative markers of a checked-out tree
    and each either returns a verdict or nothing; the manager keeps the verdict with the
    strictly highest confidence, so an earlier strategy wins a tie. */
module Detector {
  import opened Wrappers
  import Text

  datatype ProjectType = Docker | Nuxt | Node | Static | Go | Rust | Python | Unknown

  function TypeName(t: ProjectType): string
  {
    match t
    case Docker => "docker"
    case Nuxt => "nuxt"
    case Node => "node"
    case Static => "static"
    case Go => "go"
    case Rust => "rust"
    case Python => "python"
    case Unknown => "unknown"
  }

  datatype MetaValue = Str(text: string) | Flag(on: bool)

  /** A strategy's verdict. Confidence is in hundredths (100 is 1.0). */
  datatype Detection = Detection(kind: ProjectType, confidence: nat, buildCmd: string,
                                 startCmd: string, port: int, metadata: map<string, MetaValue>)

  /** What a `package.json` that unmarshals without error says: the keys of its
      `dependencies`, `devDependencies` and `scripts` objects, each empty when the member is
      missing or is not an object. */
  datatype Package = Package(dependencies: set<string>, devDependencies: set<string>,
                             scripts: set<string>)

  /** The markers of a tree: the relative paths that exist, the parsed `package.json` (None
      when it is missing or does not unmarshal) and the text of `app.py` (empty when it cannot
      be read). */
  datatype Tree = Tree(files: set<string>, package: Option<Package>, appPy: string)

  const EmptyTree := Tree({}, None, "")

  // ---------------------------------------------------------------------------
  // The strategies

  /** docker-compose.yml wins over Dockerfile; neither gives no verdict. */
  function DetectDocker(t: Tree): (r: Option<Detection>)
    ensures r.Some? <==> "docker-compose.yml" in t.files || "Dockerfile" in t.files
    ensures r.Some? ==> r.value.kind == Docker
    ensures "docker-compose.yml" in t.files ==> r.value.confidence == 100 && r.value.port == 0
    ensures "docker-compose.yml" !in t.files && "Dockerfile" in t.files
            ==> r.value.confidence == 90 && r.value.port == 3000
  {
    if "docker-compose.yml" in t.files then
      Some(Detection(Docker, 100, "docker-compose build", "docker-compose up -d", 0,
                     map["compose_file" := Str("docker-compose.yml")]))
    else if "Dockerfile" in t.files then
      Some(Detection(Docker, 90, "docker build -t app .",
                     "docker run -d --name app -p ${PORT}:${PORT} app", 3000,
                     map["dockerfile" := Str("Dockerfile")]))
    else None
  }

  /** A `nuxt` dependency (regular or dev); a prebuilt Nitro server raises 0.95 to 1.0. */
  function DetectNuxt(t: Tree): (r: Option<Detection>)
    ensures r.Some? <==> t.package.Some?
                         && ("nuxt" in t.package.value.dependencies
                             || "nuxt" in t.package.value.devDependencies)
    ensures r.Some? ==> r.value.kind == Nuxt && r.value.port == 3000
                        && r.value.confidence == (if ".output/server/index.mjs" in t.files
                                                  then 100 else 95)
  {
    match t.package
    case None => None
    case Some(pkg) =>
      if "nuxt" in pkg.dependencies || "nuxt" in pkg.devDependencies then
        if ".output/server/index.mjs" in t.files then
          Some(Detection(Nuxt, 100, "npm run build", "node .output/server/index.mjs", 3000,
                         map["version" := Str("3"), "nitro" := Flag(true)]))
        else
          Some(Detection(Nuxt, 95, "npm install && npm run build", "npm run start", 3000,
                         map["version" := Str("3")]))
      else None
  }

  /** A go.mod file; the start command is `./app` whatever main.go or cmd/ hold. */
  function DetectGo(t: Tree): (r: Option<Detection>)
    ensures r.Some? <==> "go.mod" in t.files
    ensures r.Some? ==> r.value.kind == Go && r.value.confidence == 100
                        && r.value.port == 8080 && r.value.startCmd == "./app"
  {
    if "go.mod" !in t.files then None
    else
      Some(Detection(Go, 100, "go build -o app", "./app", 8080,
                     map["has_go_mod" := Flag(true)]))
  }

  function DetectRust(t: Tree): (r: Option<Detection>)
    ensures r.Some? <==> "Cargo.toml" in t.files
    ensures r.Some? ==> r.value.kind == Rust && r.value.confidence == 100 && r.value.port == 8080
  {
    if "Cargo.toml" !in t.files then None
    else
      Some(Detection(Rust, 100, "cargo build --release", "./target/release/app", 8080,
                     map["has_cargo" := Flag(true)]))
  }

  /** The framework a generic Node project is taken for: the first of express, fastify,
      @nestjs/core and next among its dependencies. */
  function NodeFramework(deps: set<string>): string
  {
    if "express" in deps then "express"
    else if "fastify" in deps then "fastify"
    else if "@nestjs/core" in deps then "nestjs"
    else if "next" in deps then "nextjs"
    else "generic"
  }

  /** Any package.json that unmarshals gives a 0.8 verdict. */
  function DetectNode(t: Tree): (r: Option<Detection>)
    ensures r.Some? <==> t.package.Some?
    ensures r.Some? ==> r.value.kind == Node && r.value.confidence == 80 && r.value.port == 3000
    ensures r.Some? ==> Text.HasSuffix(r.value.buildCmd, "npm install")
    ensures r.Some? ==> (Text.HasPrefix(r.value.buildCmd, "npm run build && ")
                         <==> "build" in t.package.value.scripts
                              || NodeFramework(t.package.value.dependencies) == "nextjs")
    ensures r.Some? ==> r.value.metadata == map["framework" := Str(NodeFramework(t.package.value.dependencies))]
    ensures r.Some? ==> r.value.startCmd == (if NodeFramework(t.package.value.dependencies) == "nextjs"
                                             then "npm run start" else "npm start")
  {
    match t.package
    case None => None
    case Some(pkg) =>
      var framework := NodeFramework(pkg.dependencies);
      var prefix := if "build" in pkg.scripts || framework == "nextjs" then "npm run build && " else "";
      var startCmd := if framework == "nextjs" then "npm run start" else "npm start";
      Some(Detection(Node, 80, prefix + "npm install", startCmd, 3000,
                     map["framework" := Str(framework)]))
  }

  /** What app.py imports: flask before fastapi; empty text matches neither. */
  function PythonAppFramework(content: string): (r: string)
    ensures r == "flask" || r == "fastapi" || r == "generic"
    ensures r == "flask" <==> Text.Contains(content, "from flask") || Text.Contains(content, "import flask")
    ensures r == "fastapi" ==> Text.Contains(content, "from fastapi") || Text.Contains(content, "import fastapi")
  {
    if |content| > 0 then
      if Text.Contains(content, "from flask") || Text.Contains(content, "import flask") then "flask"
      else if Text.Contains(content, "from fastapi") || Text.Contains(content, "import fastapi") then "fastapi"
      else "generic"
    else "generic"
  }

  // The Python strategy's commands.
  const PipInstall := "pip install -r requirements.txt"
  const DjangoStart := "python manage.py runserver 0.0.0.0:${PORT}"
  const UvicornStart := "uvicorn app:app --host 0.0.0.0 --port 8000"
  const PythonAppStart := "python app.py"

  /** requirements.txt or pyproject.toml; manage.py means django, otherwise app.py decides:
      flask on 5000 with `python app.py`, fastapi on 8000 under uvicorn, and anything else a
      generic app on 8000 with `python app.py`. */
  function DetectPython(t: Tree): (r: Option<Detection>)
    ensures r.Some? <==> "requirements.txt" in t.files || "pyproject.toml" in t.files
    ensures r.Some? ==> r.value.kind == Python && r.value.confidence == 80
    ensures r.Some? && "manage.py" in t.files
            ==> r.value.metadata == map["framework" := Str("django")] && r.value.port == 8000
                && r.value.startCmd == DjangoStart
    ensures r.Some? && "manage.py" !in t.files && "app.py" in t.files
                    && PythonAppFramework(t.appPy) == "flask"
            ==> r.value.metadata == map["framework" := Str("flask")] && r.value.port == 5000
                && r.value.startCmd == PythonAppStart
    ensures r.Some? && "manage.py" !in t.files && "app.py" in t.files
                    && PythonAppFramework(t.appPy) == "fastapi"
            ==> r.value.metadata == map["framework" := Str("fastapi")] && r.value.port == 8000
                && r.value.startCmd == UvicornStart
    ensures r.Some? && "manage.py" !in t.files
                    && ("app.py" !in t.files || PythonAppFramework(t.appPy) == "generic")
            ==> r.value.metadata == map["framework" := Str("generic")] && r.value.port == 8000
                && r.value.startCmd == PythonAppStart
    ensures r.Some? && r.value.port != 8000
            ==> "manage.py" !in t.files && "app.py" in t.files && PythonAppFramework(t.appPy) == "flask"
    ensures r.Some? ==> r.value.buildCmd == PipInstall
  {
    if "requirements.txt" !in t.files && "pyproject.toml" !in t.files then None
    else
      var framework :=
        if "manage.py" in t.files then "django"
        else if "app.py" in t.files then PythonAppFramework(t.appPy)
        else "generic";
      var startCmd :=
        if framework == "django" then DjangoStart
        else if framework == "fastapi" then UvicornStart
        else PythonAppStart;
      var port := if framework == "flask" then 5000 else 8000;
      Some(Detection(Python, 80, PipInstall, startCmd, port,
                     map["framework" := Str(framework)]))
  }

  /** index.html first, then a Jekyll and then a Hugo configuration. */
  function DetectStatic(t: Tree): (r: Option<Detection>)
    ensures r.Some? <==> "index.html" in t.files || "_config.yml" in t.files || "config.toml" in t.files
    ensures r.Some? ==> r.value.kind == Static
    ensures "index.html" in t.files ==> r.value.confidence == 70 && r.value.port == 8080
    ensures "index.html" !in t.files && "_config.yml" in t.files
            ==> r.value.confidence == 80 && r.value.port == 4000
    ensures "index.html" !in t.files && "_config.yml" !in t.files && "config.toml" in t.files
            ==> r.value.confidence == 80 && r.value.port == 1313
  {
    if "index.html" in t.files then
      Some(Detection(Static, 70, "", "python -m http.server 8080", 8080,
                     map["type" := Str("html")]))
    else if "_config.yml" in t.files then
      Some(Detection(Static, 80, "jekyll build", "jekyll serve --host 0.0.0.0", 4000,
                     map["generator" := Str("jekyll")]))
    else if "config.toml" in t.files then
      Some(Detection(Static, 80, "hugo", "hugo server --bind 0.0.0.0", 1313,
                     map["generator" := Str("hugo")]))
    else None
  }

  // ---------------------------------------------------------------------------
  // The manager

  datatype Strategy = DockerStrategy | NuxtStrategy | GoStrategy | RustStrategy
                    | NodeStrategy | PythonStrategy | StaticStrategy

  /** The registration order, which decides ties. */
  const Strategies: seq<Strategy> :=
    [DockerStrategy, NuxtStrategy, GoStrategy, RustStrategy, NodeStrategy, PythonStrategy, StaticStrategy]

  function Detect(s: Strategy, t: Tree): Option<Detection>
  {
    match s
    case DockerStrategy => DetectDocker(t)
    case NuxtStrategy => DetectNuxt(t)
    case GoStrategy => DetectGo(t)
    case RustStrategy => DetectRust(t)
    case NodeStrategy => DetectNode(t)
    case PythonStrategy => DetectPython(t)
    case StaticStrategy => DetectStatic(t)
  }

  /** Where a strategy stands in the registration order. */
  function Rank(s: Strategy): (k: nat)
    ensures k < |Strategies| && Strategies[k] == s
  {
    match s
    case DockerStrategy => 0
    case NuxtStrategy => 1
    case GoStrategy => 2
    case RustStrategy => 3
    case NodeStrategy => 4
    case PythonStrategy => 5
    case StaticStrategy => 6
  }

  /** Every strategy's verdicts in registration order. */
  function Verdicts(t: Tree): (vs: seq<Option<Detection>>)
    ensures |vs| == |Strategies|
  {
    seq(|Strategies|, i requires 0 <= i < |Strategies| => Detect(Strategies[i], t))
  }

  /** The confidence to beat: that of the best verdict so far, 0 when there is none. */
  function High(best: Option<Detection>): nat
  {
    if best.None? then 0 else best.value.confidence
  }

  /** The manager's loop as a fold over the verdicts: a verdict replaces the best so far only
      when its confidence is strictly higher. */
  function BestOf(vs: seq<Option<Detection>>): Option<Detection>
  {
    if vs == [] then None
    else
      var prev := BestOf(vs[..|vs| - 1]);
      var v := vs[|vs| - 1];
      if v.Some? && v.value.confidence > High(prev) then v else prev
  }

  /** The verdict for an unrecognised tree. */
  const UnknownDetection := Detection(Unknown, 0, "", "", 0, map[])

  /** DetectProject's answer: the best verdict, or `unknown` at confidence 0. */
  function Selected(t: Tree): Detection
  {
    match BestOf(Verdicts(t))
    case None => UnknownDetection
    case Some(d) => d
  }

  /** The manager: never fails and never answers nothing. */
  method DetectProject(t: Tree) returns (r: Detection)
    ensures r == Selected(t)
  {
    var best: Option<Detection> := None;
    var highest: nat := 0;
    var i := 0;
    while i < |Strategies|
      invariant 0 <= i <= |Strategies|
      invariant best == BestOf(Verdicts(t)[..i])
      invariant highest == High(best)
    {
      var detection := Detect(Strategies[i], t);
      assert Verdicts(t)[..i + 1][..i] == Verdicts(t)[..i];
      if detection.Some? && detection.value.confidence > highest {
        highest := detection.value.confidence;
        best := detection;
      }
      i := i + 1;
    }
    assert Verdicts(t)[..i] == Verdicts(t);
    if best.None? {
      r := UnknownDetection;
    } else {
      r := best.value;
    }
  }

  /** The fold keeps a maximum: no verdict beats the one chosen. */
  lemma {:induction false} BestOfIsMaximal(vs: seq<Option<Detection>>, j: nat)
    requires j < |vs| && vs[j].Some?
    ensures vs[j].value.confidence <= High(BestOf(vs))
  {
    var n := |vs| - 1;
    if j < n {
      BestOfIsMaximal(vs[..n], j);
    }
  }

  /** The fold picks the first verdict reaching the maximum, and only a positive one. */
  lemma {:induction false} BestOfIsFirstMaximum(vs: seq<Option<Detection>>)
    requires BestOf(vs).Some?
    ensures exists k :: 0 <= k < |vs| && vs[k] == BestOf(vs)
                        && BestOf(vs).value.confidence > 0
                        && forall j :: 0 <= j < k && vs[j].Some?
                                       ==> vs[j].value.confidence < BestOf(vs).value.confidence
  {
    var n := |vs| - 1;
    var prev := BestOf(vs[..n]);
    if vs[n].Some? && vs[n].value.confidence > High(prev) {
      forall j | 0 <= j < n && vs[j].Some?
        ensures vs[j].value.confidence < vs[n].value.confidence
      {
        BestOfIsMaximal(vs[..n], j);
      }
    } else {
      BestOfIsFirstMaximum(vs[..n]);
      var k :| 0 <= k < n && vs[..n][k] == prev && prev.value.confidence > 0
               && forall j :: 0 <= j < k && vs[..n][j].Some?
                              ==> vs[..n][j].value.confidence < prev.value.confidence;
      assert vs[k] == BestOf(vs);
    }
  }

  /** The fold finds nothing exactly when no verdict has a positive confidence. */
  lemma {:induction false} BestOfNone(vs: seq<Option<Detection>>)
    ensures BestOf(vs).None? <==> forall j :: 0 <= j < |vs| && vs[j].Some? ==> vs[j].value.confidence == 0
  {
    if vs != [] {
      var n := |vs| - 1;
      BestOfNone(vs[..n]);
      if BestOf(vs).None? {
        forall j | 0 <= j < |vs| && vs[j].Some? ensures vs[j].value.confidence == 0 {
          BestOfIsMaximal(vs, j);
        }
      }
    }
  }

  /** The answer is at least as confident as every strategy's verdict. */
  lemma SelectedIsMaximal(t: Tree, j: nat)
    requires j < |Strategies| && Verdicts(t)[j].Some?
    ensures Verdicts(t)[j].value.confidence <= Selected(t).confidence
  {
    BestOfIsMaximal(Verdicts(t), j);
  }

  /** Unless nothing matched, the answer is the verdict of the earliest strategy among those
      tied at the maximum. */
  lemma SelectedIsEarliestMaximum(t: Tree)
    requires Selected(t) != UnknownDetection
    ensures exists k :: 0 <= k < |Strategies| && Verdicts(t)[k] == Some(Selected(t))
                        && forall j :: 0 <= j < k && Verdicts(t)[j].Some?
                                       ==> Verdicts(t)[j].value.confidence < Selected(t).confidence
  {
    BestOfIsFirstMaximum(Verdicts(t));
  }

  /** `unknown` at confidence 0 comes back exactly when no strategy matched. */
  lemma SelectedUnknown(t: Tree)
    ensures Selected(t) == UnknownDetection <==> forall s :: Detect(s, t).None?
  {
    var vs := Verdicts(t);
    BestOfNone(vs);
    if BestOf(vs).Some? {
      BestOfIsFirstMaximum(vs);
    }
    forall s ensures Detect(s, t) == vs[Rank(s)] {
    }
    forall j | 0 <= j < |Strategies|
      ensures vs[j] == Detect(Strategies[j], t)
      ensures vs[j].Some? ==> vs[j].value.confidence >= 70
    {
      if vs[j].Some? {
        VerdictBounds(t, j);
      }
    }
  }

  /** An empty tree matches no strategy. */
  lemma EmptyTreeMatchesNothing(s: Strategy)
    ensures Detect(s, EmptyTree).None?
  {
  }

  // ---------------------------------------------------------------------------
  // Manager outcomes

  /** A compose file always wins: the docker strategy comes first and answers 1.0, which
      nothing exceeds (the compose-plus-express tree is one such case). */
  lemma ComposeBeatsExpress(t: Tree)
    requires "docker-compose.yml" in t.files
    ensures Selected(t).kind == Docker && Selected(t).confidence == 100
  {
    VerdictAt(t, 0);
    SelectedIsMaximal(t, 0);
    SelectedIsEarliestMaximum(t);
    var k :| 0 <= k < |Strategies| && Verdicts(t)[k] == Some(Selected(t))
             && forall j :: 0 <= j < k && Verdicts(t)[j].Some?
                            ==> Verdicts(t)[j].value.confidence < Selected(t).confidence;
    VerdictBounds(t, k);
    assert k == 0;
  }

  /** A nuxt dependency gives nuxt unless a compose file, go.mod or Cargo.toml is present:
      0.95 beats the Dockerfile's 0.9 and every later strategy's 0.8 or less. */
  lemma NuxtDependencyGivesNuxt(t: Tree)
    requires t.package.Some?
    requires "nuxt" in t.package.value.dependencies || "nuxt" in t.package.value.devDependencies
    requires "docker-compose.yml" !in t.files && "go.mod" !in t.files && "Cargo.toml" !in t.files
    ensures Selected(t).kind == Nuxt
  {
    VerdictAt(t, 1);
    SelectedIsMaximal(t, 1);
    SelectedIsEarliestMaximum(t);
    var k :| 0 <= k < |Strategies| && Verdicts(t)[k] == Some(Selected(t));
    VerdictAt(t, k);
    assert k == 1;
  }

  /** A tree with index.html and no marker any earlier strategy looks for. */
  predicate PlainSite(t: Tree)
  {
    "index.html" in t.files && t.package.None?
    && "docker-compose.yml" !in t.files && "Dockerfile" !in t.files
    && "go.mod" !in t.files && "Cargo.toml" !in t.files
    && "requirements.txt" !in t.files && "pyproject.toml" !in t.files
  }

  /** index.html with no marker of an earlier strategy gives the static verdict (the
      index.html-only tree is one such case). */
  lemma IndexHtmlGivesStatic(t: Tree)
    requires "index.html" in t.files && t.package.None?
    requires "docker-compose.yml" !in t.files && "Dockerfile" !in t.files
    requires "go.mod" !in t.files && "Cargo.toml" !in t.files
    requires "requirements.txt" !in t.files && "pyproject.toml" !in t.files
    ensures Selected(t).kind == Static
    ensures Selected(t) == DetectStatic(t).value
  {
    VerdictAt(t, 6);
    SelectedIsMaximal(t, 6);
    SelectedIsEarliestMaximum(t);
    var k :| 0 <= k < |Strategies| && Verdicts(t)[k] == Some(Selected(t));
    VerdictAt(t, k);
    assert k == 6;
  }

  /** A verdict is the strategy's own. */
  lemma VerdictAt(t: Tree, k: nat)
    requires k < |Strategies|
    ensures Verdicts(t)[k] == Detect(Strategies[k], t)
  {
  }

  /** Every verdict lies between 0.7 and 1.0. */
  lemma VerdictBounds(t: Tree, k: nat)
    requires k < |Strategies| && Verdicts(t)[k].Some?
    ensures 70 <= Verdicts(t)[k].value.confidence <= 100
  {
    VerdictAt(t, k);
  }

  /** A package.json that unmarshals rules out static: the Node verdict comes earlier and is
      at least as confident as any static one. */
  lemma PackageNeverStatic(t: Tree)
    requires t.package.Some?
    ensures Selected(t).kind != Static
  {
    SelectedIsMaximal(t, 4) by {
      NodeVerdict(t);
    }
    if Selected(t) != UnknownDetection {
      SelectedIsEarliestMaximum(t);
      var k :| 0 <= k < |Strategies| && Verdicts(t)[k] == Some(Selected(t))
               && forall j :: 0 <= j < k && Verdicts(t)[j].Some?
                              ==> Verdicts(t)[j].value.confidence < Selected(t).confidence;
      StaticVerdict(t, k);
      NodeVerdict(t);
    }
  }

  /** With a parsed package.json the Node strategy, fifth in order, answers with 80. */
  lemma NodeVerdict(t: Tree)
    requires t.package.Some?
    ensures Verdicts(t)[4].Some? && Verdicts(t)[4].value.confidence == 80
  {
    assert Verdicts(t)[4] == DetectNode(t);
  }

  /** Only the last strategy answers static, and never above 80. */
  lemma StaticVerdict(t: Tree, k: nat)
    requires k < |Strategies| && Verdicts(t)[k].Some?
    ensures Verdicts(t)[k].value.kind == Static ==> k == 6 && Verdicts(t)[k].value.confidence <= 80
  {
    assert Verdicts(t)[k] == Detect(Strategies[k], t);
  }

  // ---------------------------------------------------------------------------
  // contains

  /** The index loop of `contains`: true iff `t` occurs in `s` at some index. */
  method ContainsScan(s: string, t: string) returns (found: bool)
    ensures found <==> Text.Contains(s, t)
  {
    var i := 0;
    while i <= |s| - |t|
      invariant 0 <= i <= |s| - |t| + 1 || (i == 0 && |t| > |s|)
      invariant forall j :: 0 <= j < i ==> !Text.HasPrefix(s[j..], t)
    {
      if s[i..i + |t|] == t {
        assert Text.HasPrefix(s[i..], t);
        return true;
      }
      i := i + 1;
    }
    found := false;
  }
}
