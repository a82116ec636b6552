/** Configuration loading: defaults, the values found in the environment or the
    configuration file, the one required secret, and the directories created at start-up. */
module Config {
  import opened Wrappers
  import Text

  datatype Config = Config(
    webhookPort: int,
    adminPort: int,
    gitHubToken: string,
    webhookSecret: string,
    deploymentDomain: string,
    maxConcurrentDeployments: int,
    databasePath: string,
    reposDir: string,
    logsDir: string,
    discordWebhookURL: string,
    n8nWebhookURL: string,
    adminUsername: string,
    adminPassword: string,
    jwtSecret: string)

  /** The settings found in the environment and in the configuration file, by key, with the
      integer settings already converted. */
  datatype Sources = Sources(strings: map<string, string>, ints: map<string, int>)

  /** The registered default of a string setting; "" when it has none. */
  function DefaultString(key: string): string
  {
    if key == "database_path" then "./data/dockrune.db"
    else if key == "repos_dir" then "./repos"
    else if key == "logs_dir" then "./logs"
    else if key == "deployment_domain" then "localhost"
    else ""
  }

  /** The registered default of an integer setting; 0 when it has none. */
  function DefaultInt(key: string): int
  {
    if key == "webhook_port" then 8000
    else if key == "admin_port" then 8001
    else if key == "max_concurrent_deployments" then 5
    else 0
  }

  function GetString(src: Sources, key: string): string
  {
    if key in src.strings then src.strings[key] else DefaultString(key)
  }

  function GetInt(src: Sources, key: string): int
  {
    if key in src.ints then src.ints[key] else DefaultInt(key)
  }

  /** The record assembled from the settings, before validation. */
  function Settings(src: Sources): Config
  {
    Config(
      GetInt(src, "webhook_port"),
      GetInt(src, "admin_port"),
      GetString(src, "github_token"),
      GetString(src, "webhook_secret"),
      GetString(src, "deployment_domain"),
      GetInt(src, "max_concurrent_deployments"),
      GetString(src, "database_path"),
      GetString(src, "repos_dir"),
      GetString(src, "logs_dir"),
      GetString(src, "discord_webhook_url"),
      GetString(src, "n8n_webhook_url"),
      GetString(src, "admin_username"),
      GetString(src, "admin_password"),
      GetString(src, "jwt_secret"))
  }

  /** Only the webhook secret is given: every other setting takes its default. */
  lemma DefaultsApply(secret: string)
    ensures var cfg := Settings(Sources(map["webhook_secret" := secret], map[]));
            cfg.webhookPort == 8000 && cfg.adminPort == 8001
            && cfg.maxConcurrentDeployments == 5 && cfg.deploymentDomain == "localhost"
            && cfg.databasePath == "./data/dockrune.db" && cfg.reposDir == "./repos"
            && cfg.logsDir == "./logs" && cfg.gitHubToken == "" && cfg.webhookSecret == secret
  {
  }

  /** Load: assemble the record, refuse it without a webhook secret, and otherwise report the
      directories it creates (repositories, logs, the database's parent) in that order. */
  method Load(src: Sources) returns (r: Result<Config, string>, created: seq<string>)
    ensures r.Err? <==> GetString(src, "webhook_secret") == ""
    ensures r.Err? ==> r.error == "GITHUB_WEBHOOK_SECRET is required" && created == []
    ensures r.Ok? ==> r.value == Settings(src) && r.value.webhookSecret != ""
    ensures r.Ok? ==> created == [r.value.reposDir, r.value.logsDir, ParentDir(r.value.databasePath)]
  {
    var cfg := Settings(src);
    if cfg.webhookSecret == "" {
      return Err("GITHUB_WEBHOOK_SECRET is required"), [];
    }
    var dbDir := GetDir(cfg.databasePath);
    r, created := Ok(cfg), [cfg.reposDir, cfg.logsDir, dbDir];
  }

  /** The directory part of a path: everything before the last '/', or "." when there is none. */
  function ParentDir(path: string): string
  {
    var i := Text.LastIndex(path, '/');
    if i < 0 then "." else path[..i]
  }

  /** getDir's backward scan for the last '/'. */
  method GetDir(path: string) returns (dir: string)
    ensures dir == ParentDir(path)
    ensures '/' !in path ==> dir == "."
    ensures '/' in path ==> |dir| < |path| && path[|dir|] == '/' && path[..|dir|] == dir
                            && '/' !in path[|dir| + 1..]
  {
    var i := |path| - 1;
    while i >= 0
      invariant -1 <= i < |path|
      invariant '/' !in path[i + 1..]
    {
      if path[i] == '/' {
        assert path == path[..i + 1] + path[i + 1..];
        LastIndexIs(path, i);
        return path[..i];
      }
      i := i - 1;
    }
    assert path[0..] == path;
    return ".";
  }

  /** The last '/' is the one after which no '/' follows. */
  lemma {:induction false} LastIndexIs(s: string, i: nat)
    requires i < |s| && s[i] == '/' && '/' !in s[i + 1..]
    ensures Text.LastIndex(s, '/') == i
  {
    if i < |s| - 1 {
      var t := s[..|s| - 1];
      assert s[|s| - 1] == s[i + 1..][|s| - 2 - i];
      assert t[i + 1..] == s[i + 1..|s| - 1];
      LastIndexIs(t, i);
    }
  }
}
