/**
 * Application settings (settings.py): the global settings record, the
 * repository name taken from the origin URL, the filter pipeline that loads a
 * settings dictionary into a container's environment, and the renaming of
 * GitHub Actions inputs into the environment variables an action reads.
 */
module Settings {
  import opened Wrappers
  import opened Seqs
  import opened Text
  import opened Dicts
  import opened Containers

  /** A Python list object: whoever holds a reference sees its in-place
      changes. */
  class StrList {
    var items: seq<string>

    constructor(xs: seq<string>)
      ensures items == xs
    {
      items := xs;
    }
  }

  const DefaultPythonExclude: seq<string> := ["**/.venv", "**/__pycache__"]

  const DefaultExcludedFiles: seq<string> := [
    ".git", "**/build", "**/.venv", "**/secrets", "**/__pycache__", "**/*.egg-info",
    "**/.vscode", "**/.pytest_cache", "**/.eggs", "**/.mypy_cache", "**/.DS_Store"]

  /** The facts read from the git checkout. */
  datatype GitFacts = GitFacts(
    revision: string,
    branch: string,
    commitMessage: string,
    commitAuthor: string,
    commitTime: string,
    originUrl: string)

  /** `GlobalSettings`, with the fields the modelled code reads. The record is
      immutable, but `DEFAULT_PYTHON_EXCLUDE` is a list object that callers can
      extend in place. */
  datatype GlobalSettings = GlobalSettings(
    gitCurrentRevision: string,
    gitCurrentBranch: string,
    gitLatestCommitMessage: string,
    gitLatestCommitAuthor: string,
    gitLatestCommitTime: string,
    gitRepository: string,
    githubEventName: string,
    githubAction: string,
    githubActor: string,
    githubJob: string,
    githubRunNumber: int,
    githubRunId: int,
    githubApiUrl: string,
    githubServerUrl: string,
    githubGraphqlUrl: string,
    defaultPythonExclude: StrList,
    defaultExcludedFiles: seq<string>,
    dockerVersion: string,
    dockerCliImage: string,
    secretDockerHubUsername: Option<string>,
    secretDockerHubPassword: Option<string>)

  /** `get_git_repo_name` as written: the last '/'-separated part of the origin
      URL with every ".git" in it removed. */
  function RepoNameAsWritten(url: string): (r: string)
    ensures '/' !in r
  {
    LastSegmentSuffix(url, '/');
    ReplaceKeepsOut(LastSegment(url, '/'), ".git", "", '/');
    Replace(LastSegment(url, '/'), ".git", "")
  }

  /** `get_git_repo_name` as evidently intended: the last '/'-separated part of
      the origin URL without a trailing ".git". */
  function RepoName(url: string): (r: string)
    ensures '/' !in r
    ensures EndsWith(LastSegment(url, '/'), ".git") ==> r + ".git" == LastSegment(url, '/')
    ensures !EndsWith(LastSegment(url, '/'), ".git") ==> r == LastSegment(url, '/')
  {
    var segment := LastSegment(url, '/');
    LastSegmentSuffix(url, '/');
    if EndsWith(segment, ".git") then
      var r := segment[..|segment| - 4];
      assert r + ".git" == segment;
      assert forall i :: 0 <= i < |r| ==> r[i] == segment[i];
      r
    else segment
  }

  /** The two readings agree on every origin whose last segment is a name
      without ".git" followed by one ".git", and give that name. */
  lemma RepoNameAgrees(url: string, name: string)
    requires LastSegment(url, '/') == name + ".git" && !Contains(name, ".git")
    ensures RepoNameAsWritten(url) == RepoName(url) == name
  {
    ReplaceTrailingGit(name);
    var segment := LastSegment(url, '/');
    assert EndsWith(segment, ".git");
    assert RepoName(url) == segment[..|segment| - 4] == name;
  }

  /** A repository whose name contains ".git" before its end loses that text
      too when every occurrence is removed. */
  lemma RepoNameDiscrepancy()
    ensures RepoNameAsWritten("https://github.com/acme/web.gitops.git") == "webops"
    ensures RepoName("https://github.com/acme/web.gitops.git") == "web.gitops"
  {
    var segment := "web.gitops.git";
    assert "https://github.com/acme/web.gitops.git" == "https://github.com/acme" + "/" + segment;
    LastSegmentOfSuffix("https://github.com/acme", segment, '/');
    ReplaceGitExample();
  }

  lemma ReplaceGitExample()
    ensures Replace("web.gitops.git", ".git", "") == "webops"
  {
    var last := ".git" + "";
    var ops := "ops" + last;
    assert "web" + (".git" + ops) == "web.gitops.git";
    ReplaceSkip("web", ".git" + ops, ".git", "");
    ReplaceMatch(".git", ops, "");
    ReplaceSkip("ops", last, ".git", "");
    ReplaceMatch(".git", "", "");
    assert "web" + ("" + ("ops" + ("" + ""))) == "webops";
  }

  /** The last segment after a separator is the text that follows it. */
  lemma {:induction false} LastSegmentOfSuffix(prefix: string, segment: string, sep: char)
    requires sep !in segment
    ensures LastSegment(prefix + [sep] + segment, sep) == segment
    decreases |segment|
  {
    var s := prefix + [sep] + segment;
    if segment != [] {
      var front := segment[..|segment| - 1];
      LastSegmentOfSuffix(prefix, front, sep);
      assert s[..|s| - 1] == prefix + [sep] + front;
      assert front + [segment[|segment| - 1]] == segment;
    }
  }

  /** `GlobalSettings()` with no environment overrides: the git facts from the
      checkout and the declared defaults. */
  method NewGlobalSettings(git: GitFacts, dockerHubUsername: Option<string>, dockerHubPassword: Option<string>)
    returns (s: GlobalSettings)
    ensures fresh(s.defaultPythonExclude) && s.defaultPythonExclude.items == DefaultPythonExclude
    ensures s.defaultExcludedFiles == DefaultExcludedFiles
    ensures s.gitCurrentRevision == git.revision && s.gitCurrentBranch == git.branch
    ensures s.gitLatestCommitMessage == git.commitMessage && s.gitLatestCommitAuthor == git.commitAuthor
    ensures s.gitLatestCommitTime == git.commitTime && s.gitRepository == RepoName(git.originUrl)
    ensures s.githubEventName == "local_event" && s.githubAction == "local_action"
    ensures s.githubActor == "local_actor" && s.githubJob == "local_job"
    ensures s.githubRunNumber == 0 && s.githubRunId == 0
    ensures s.githubApiUrl == "https://api.github.com" && s.githubServerUrl == "https://github.com"
    ensures s.githubGraphqlUrl == "https://api.github.com/graphql"
    ensures s.dockerVersion == "20.10.23" && s.dockerCliImage == "docker:20-cli"
    ensures s.secretDockerHubUsername == dockerHubUsername && s.secretDockerHubPassword == dockerHubPassword
  {
    var pythonExclude := new StrList(DefaultPythonExclude);
    s := GlobalSettings(
      git.revision, git.branch, git.commitMessage, git.commitAuthor, git.commitTime, RepoName(git.originUrl),
      "local_event", "local_action", "local_actor", "local_job", 0, 0,
      "https://api.github.com", "https://github.com", "https://api.github.com/graphql",
      pythonExclude, DefaultExcludedFiles, "20.10.23", "docker:20-cli",
      dockerHubUsername, dockerHubPassword);
  }

  /** A value of `settings.dict()`: None, a secret, or any other value by its
      `str()`. */
  datatype SettingValue = NoneValue | PlainValue(text: string) | SecretValue(secret: string)

  /** `{k: v for k, v in d.items() if v is not None}`: the keys whose value is
      not None, in their order. */
  function DropNone(d: Dict<string, SettingValue>): (r: Dict<string, SettingValue>)
    ensures forall k :: Get(r, k) == if Get(d, k) == Some(NoneValue) then None else Get(d, k)
    ensures Keys(r) == Filter(Keys(d), k => Get(d, k) != Some(NoneValue))
    ensures Dicts.Valid(d) ==> Dicts.Valid(r)
  {
    var keep := k => Get(d, k) != Some(NoneValue);
    FilterKeysOrder(d, keep);
    FilterKeys(d, keep)
  }

  /** `{k: d[k] for k in includeKeys if k in d}`: the listed keys present in `d`,
      in the order of the list. */
  function IncludeOnly(d: Dict<string, SettingValue>, includeKeys: seq<string>): (r: Dict<string, SettingValue>)
    ensures forall k :: Get(r, k) == if k in includeKeys then Get(d, k) else None
    ensures Dicts.Valid(r)
  {
    if includeKeys == [] then []
    else
      var front := includeKeys[..|includeKeys| - 1];
      var k := includeKeys[|includeKeys| - 1];
      var p := IncludeOnly(d, front);
      assert forall x :: x in includeKeys <==> x in front || x == k by {
        assert includeKeys == front + [k];
      }
      if k in Keys(d) then
        PutValid(p, k, Get(d, k).value);
        Put(p, k, Get(d, k).value)
      else p
  }

  /** The included keys come in the order of the include list, each once. */
  lemma {:induction false} IncludeOnlyOrder(d: Dict<string, SettingValue>, includeKeys: seq<string>)
    ensures Keys(IncludeOnly(d, includeKeys)) == Dedup(Filter(includeKeys, k => k in Keys(d)))
  {
    if includeKeys != [] {
      var front := includeKeys[..|includeKeys| - 1];
      var k := includeKeys[|includeKeys| - 1];
      IncludeOnlyOrder(d, front);
      var p := IncludeOnly(d, front);
      var fs := Filter(front, k => k in Keys(d));
      DedupSnoc(fs, k);
      if k in Keys(d) {
        assert Filter(includeKeys, k => k in Keys(d)) == fs + [k];
        assert k in Keys(p) <==> k in fs;
      } else {
        assert Filter(includeKeys, k => k in Keys(d)) == fs;
      }
    }
  }

  /** The settings `load_envs` loads: None values dropped, then only the
      `include` keys if a list is given, then the `exclude` keys removed if a
      list is given. */
  function Filtered(d: Dict<string, SettingValue>, includeKeys: Option<seq<string>>, excludeKeys: Option<seq<string>>)
    : (r: Dict<string, SettingValue>)
    ensures forall k :: Get(r, k) ==
                        (if Get(d, k) == Some(NoneValue) || (includeKeys.Some? && k !in includeKeys.value) ||
                            (excludeKeys.Some? && k in excludeKeys.value)
                         then None else Get(d, k))
    ensures Dicts.Valid(d) || includeKeys.Some? ==> Dicts.Valid(r)
  {
    var present := DropNone(d);
    var included := if includeKeys.Some? then IncludeOnly(present, includeKeys.value) else present;
    if excludeKeys.Some? then FilterKeys(included, k => k !in excludeKeys.value) else included
  }

  /** `str(value)`. */
  function Render(v: SettingValue): string {
    match v
    case NoneValue => "None"
    case PlainValue(t) => t
    case SecretValue(s) => s
  }

  /** The operation that loads one setting: a secret under the upper-cased key
      as a secret variable, anything else as a plain variable holding its
      `str()`. */
  function EnvOp(key: string, v: SettingValue): (op: Op)
    ensures op.EnvVariable? || op.SecretVariable?
    ensures op.name == Upper(key)
    ensures op.SecretVariable? <==> v.SecretValue?
    ensures op.SecretVariable? ==> op.secret == Secret(Upper(key), v.secret)
    ensures op.EnvVariable? ==> op.value == Render(v)
  {
    if v.SecretValue? then SecretVariable(Upper(key), Secret(Upper(key), v.secret))
    else EnvVariable(Upper(key), Render(v))
  }

  /** One operation per setting, in the dictionary's order. */
  function EnvOps(d: Dict<string, SettingValue>): (ops: seq<Op>)
    ensures |ops| == |d|
    ensures forall i :: 0 <= i < |d| ==> ops[i] == EnvOp(d[i].0, d[i].1)
  {
    if d == [] then [] else EnvOps(d[..|d| - 1]) + [EnvOp(d[|d| - 1].0, d[|d| - 1].1)]
  }

  lemma EnvOpsSnoc(d: Dict<string, SettingValue>, i: nat)
    requires i < |d|
    ensures EnvOps(d[..i + 1]) == EnvOps(d[..i]) + [EnvOp(d[i].0, d[i].1)]
  {
    assert d[..i + 1][..i] == d[..i];
  }

  /** A setting reaches the container exactly when it is not None, is included
      and is not excluded; it does so once, under its upper-cased name, and a
      secret only ever as a secret variable. */
  lemma LoadedSettings(d: Dict<string, SettingValue>, includeKeys: Option<seq<string>>, excludeKeys: Option<seq<string>>, k: string)
    requires Dicts.Valid(d) || includeKeys.Some?
    ensures k in Keys(Filtered(d, includeKeys, excludeKeys)) <==>
      Get(d, k).Some? && Get(d, k) != Some(NoneValue) &&
      (includeKeys.None? || k in includeKeys.value) && (excludeKeys.None? || k !in excludeKeys.value)
    ensures var f := Filtered(d, includeKeys, excludeKeys);
      forall i, j :: 0 <= i < j < |f| ==> f[i].0 != f[j].0
    ensures var f := Filtered(d, includeKeys, excludeKeys);
      forall i :: 0 <= i < |f| ==> (EnvOps(f)[i].SecretVariable? <==> f[i].1.SecretValue?)
  {
    var f := Filtered(d, includeKeys, excludeKeys);
    assert forall i :: 0 <= i < |f| ==> f[i].0 == Keys(f)[i];
  }

  /** `load_settings(client, settings, includeKeys, excludeKeys)` applied to a
      container: loads the filtered settings one by one. */
  method LoadEnvs(ctr: Container, settingsDict: Dict<string, SettingValue>,
                  includeKeys: Option<seq<string>>, excludeKeys: Option<seq<string>>)
    returns (r: Container)
    ensures r.ops == ctr.ops + EnvOps(Filtered(settingsDict, includeKeys, excludeKeys))
  {
    r := LoadAll(ctr, Filtered(settingsDict, includeKeys, excludeKeys));
  }

  /** The loop of `load_settings`: each remaining setting in turn, a secret as
      a secret variable and anything else as a plain variable. */
  method LoadAll(ctr: Container, d: Dict<string, SettingValue>) returns (r: Container)
    ensures r.ops == ctr.ops + EnvOps(d)
  {
    r := ctr;
    for i := 0 to |d|
      invariant r.ops == ctr.ops + EnvOps(d[..i])
    {
      var (key, value) := d[i];
      var op;
      if value.SecretValue? {
        var envKey := Upper(key);
        op := SecretVariable(envKey, Secret(envKey, value.secret));
      } else {
        op := EnvVariable(Upper(key), Render(value));
      }
      assert op == EnvOp(key, value);
      EnvOpsSnoc(d, i);
      r := With(r, op);
    }
    assert d[..|d|] == d;
  }

  /** An input or context value passed to `GithubActionsInputSettings`. */
  datatype InputValue = Text(text: string) | Number(n: int)

  /** `str()` of an input value: text as it is, a number in decimal. */
  function InputStr(v: InputValue): string {
    if v.Text? then v.text else Decimal(v.n)
  }

  const InputPrefix: string := "INPUT_"

  /** What one character of an input name becomes in its variable name. */
  function InputKeyChar(c: char): char {
    UpperChar(if c == '-' then '_' else c)
  }

  /** The environment variable name GitHub Actions reads an input from:
      '-' becomes '_', letters are upper-cased, and "INPUT_" goes in front. */
  function InputKey(k: string): (r: string)
    ensures StartsWith(r, InputPrefix)
    ensures |r| == |InputPrefix| + |k|
    ensures forall i :: 0 <= i < |k| ==> r[|InputPrefix| + i] == InputKeyChar(k[i])
    ensures '-' !in r
    ensures forall i :: 0 <= i < |r| ==> !IsLowerChar(r[i])
  {
    ReplaceCharGone(k, '-', "_");
    ReplaceCharPointwise(k, '-', '_');
    var body := Upper(Replace(k, "-", "_"));
    assert forall i :: 0 <= i < |body| ==> body[i] != '-';
    InputPrefix + body
  }

  /** Two inputs get the same variable name exactly when they have the same
      length and agree character by character up to case and '-' against '_'. */
  lemma InputKeyCollapse(k1: string, k2: string)
    ensures InputKey(k1) == InputKey(k2) <==>
      |k1| == |k2| && forall i :: 0 <= i < |k1| ==> InputKeyChar(k1[i]) == InputKeyChar(k2[i])
  {
    var r1, r2 := InputKey(k1), InputKey(k2);
    if |k1| == |k2| && forall i :: 0 <= i < |k1| ==> InputKeyChar(k1[i]) == InputKeyChar(k2[i]) {
      forall i | 0 <= i < |r1|
        ensures r1[i] == r2[i]
      {
        if i >= |InputPrefix| {
          assert r1[i] == InputKeyChar(k1[i - |InputPrefix|]);
        }
      }
    }
    if r1 == r2 {
      forall i | 0 <= i < |k1|
        ensures InputKeyChar(k1[i]) == InputKeyChar(k2[i])
      {
        assert r1[|InputPrefix| + i] == r2[|InputPrefix| + i];
      }
    }
  }

  /** The documented renaming, and a name differing only by case and '_'
      against '-' that collapses onto it. */
  lemma InputKeyExamples()
    ensures InputKey("project-token") == "INPUT_PROJECT_TOKEN"
    ensures InputKey("Project_Token") == InputKey("project-token")
  {
    ReplaceDashExample();
    ReplaceUnderscoreExample();
    UpperTokenExamples();
    InputKeyLiteral();
  }

  lemma InputKeyLiteral()
    ensures InputPrefix + "PROJECT_TOKEN" == "INPUT_PROJECT_TOKEN"
  {
  }

  lemma ReplaceUnderscoreExample()
    ensures Replace("Project_Token", "-", "_") == "Project_Token"
  {
    ReplaceCharAbsent("Project_Token", '-', "_");
  }

  lemma ReplaceDashExample()
    ensures Replace("project-token", "-", "_") == "project_token"
  {
    TokenParts();
    ReplaceCharAt("project", '-', "token", "_");
    ReplaceCharAbsent("token", '-', "_");
  }

  lemma TokenParts()
    ensures "project" + ['-'] + "token" == "project-token"
    ensures "project" + "_" + "token" == "project_token"
  {
  }

  lemma UpperTokenExamples()
    ensures Upper("project_token") == "PROJECT_TOKEN"
    ensures Upper("Project_Token") == "PROJECT_TOKEN"
  {
    assert Upper("project_token") == "PROJECT_TOKEN" by {
      assert "project_token" == "project_" + "token";
      UpperAppend("project_", "token");
      assert Upper("project_") == "PROJECT_" && Upper("token") == "TOKEN";
    }
    assert "Project_Token" == "Project_" + "Token";
    UpperAppend("Project_", "Token");
    assert Upper("Project_") == "PROJECT_" && Upper("Token") == "TOKEN";
  }

  /** The renamed inputs, one pair per input in the inputs' order. */
  function InputPairs(data: Dict<string, InputValue>): (pairs: seq<(string, InputValue)>)
    ensures |pairs| == |data|
    ensures forall i :: 0 <= i < |data| ==> pairs[i] == (InputKey(data[i].0), data[i].1)
  {
    if data == [] then [] else [(InputKey(data[0].0), data[0].1)] + InputPairs(data[1..])
  }

  /** The dictionary comprehension of `__init__`: every input under its
      renamed key. */
  function TransformInputs(data: Dict<string, InputValue>): (r: Dict<string, InputValue>)
    ensures |r| <= |data|
    ensures forall i :: 0 <= i < |data| ==> Get(r, InputKey(data[i].0)).Some?
  {
    var pairs := InputPairs(data);
    forall i | 0 <= i < |data|
      ensures Get(PutAll([], pairs), InputKey(data[i].0)).Some?
    {
      PutAllHas([], pairs, i);
    }
    PutAll([], pairs)
  }

  /** Every renamed key carries the "INPUT_" prefix and comes from some input,
      and each key is held once. */
  lemma TransformInputsKeys(data: Dict<string, InputValue>)
    ensures Dicts.Valid(TransformInputs(data))
    ensures forall k :: k in Keys(TransformInputs(data)) ==>
      StartsWith(k, InputPrefix) && exists j :: 0 <= j < |data| && k == InputKey(data[j].0)
  {
    var pairs := InputPairs(data);
    assert Dicts.Valid<string, InputValue>([]);
    PutAllKeys([], pairs);
    forall k | k in Keys(TransformInputs(data))
      ensures StartsWith(k, InputPrefix) && exists j :: 0 <= j < |data| && k == InputKey(data[j].0)
    {
      PutAllKeyFrom([], pairs, k);
      var j :| 0 <= j < |pairs| && pairs[j].0 == k;
      assert pairs[j] == (InputKey(data[j].0), data[j].1);
    }
  }

  /** Inputs whose names differ only by case or by '-' against '_' collapse to
      one key, which holds the value of the last of them. */
  lemma TransformInputsLast(data: Dict<string, InputValue>, i: nat)
    requires i < |data|
    requires forall j :: i < j < |data| ==> InputKey(data[j].0) != InputKey(data[i].0)
    ensures Get(TransformInputs(data), InputKey(data[i].0)) == Some(data[i].1)
  {
    var pairs := InputPairs(data);
    assert Dicts.Valid<string, InputValue>([]);
    PutAllLast([], pairs, InputKey(data[i].0), i);
  }

  /** The GitHub context injected after the inputs. */
  function GithubContext(gs: GlobalSettings): (ctx: seq<(string, InputValue)>)
    ensures |ctx| == 12
    ensures forall i :: 0 <= i < |ctx| ==> StartsWith(ctx[i].0, "GITHUB_")
    ensures forall i, j :: 0 <= i < j < |ctx| ==> ctx[i].0 != ctx[j].0
  {
    var ctx := [
      ("GITHUB_SHA", Text(gs.gitCurrentRevision)),
      ("GITHUB_REF", Text(gs.gitCurrentBranch)),
      ("GITHUB_EVENT_NAME", Text(gs.githubEventName)),
      ("GITHUB_ACTION", Text(gs.githubAction)),
      ("GITHUB_ACTOR", Text(gs.githubActor)),
      ("GITHUB_JOB", Text(gs.githubJob)),
      ("GITHUB_RUN_NUMBER", Number(gs.githubRunNumber)),
      ("GITHUB_RUN_ID", Number(gs.githubRunId)),
      ("GITHUB_API_URL", Text(gs.githubApiUrl)),
      ("GITHUB_SERVER_URL", Text(gs.githubServerUrl)),
      ("GITHUB_GRAPHQL_URL", Text(gs.githubGraphqlUrl)),
      ("GITHUB_REPOSITORY", Text(gs.gitRepository))];
    assert forall i :: 0 <= i < |ctx| ==> ctx[i].0[..7] == "GITHUB_";
    ctx
  }

  /** The fields `GithubActionsInputSettings(global_settings, **data)` is built
      from. */
  function InputSettingsData(gs: GlobalSettings, data: Dict<string, InputValue>): (r: Dict<string, InputValue>)
    ensures |r| <= |data| + 12
    ensures forall i :: 0 <= i < 12 ==> Get(r, GithubContext(gs)[i].0) == Some(GithubContext(gs)[i].1)
  {
    var ctx := GithubContext(gs);
    TransformInputsKeys(data);
    forall i | 0 <= i < 12
      ensures Get(PutAll(TransformInputs(data), ctx), ctx[i].0) == Some(ctx[i].1)
    {
      PutAllLast(TransformInputs(data), ctx, ctx[i].0, i);
    }
    PutAll(TransformInputs(data), ctx)
  }

  /** The context never overwrites an input, since no renamed input key starts
      with "GITHUB_"; and every context key holds its context value. */
  lemma InputSettingsNoCollision(gs: GlobalSettings, data: Dict<string, InputValue>, k: string)
    ensures StartsWith(k, InputPrefix) ==> Get(InputSettingsData(gs, data), k) == Get(TransformInputs(data), k)
    ensures forall i :: 0 <= i < 12 && GithubContext(gs)[i].0 == k ==>
      Get(InputSettingsData(gs, data), k) == Some(GithubContext(gs)[i].1)
  {
    var ctx := GithubContext(gs);
    if StartsWith(k, InputPrefix) {
      forall i | 0 <= i < |ctx|
        ensures ctx[i].0 != k
      {
        assert ctx[i].0[..6] == "GITHUB";
        assert k[..6] == "INPUT_";
      }
      PutAllUntouched(TransformInputs(data), ctx, k);
    }
    forall i | 0 <= i < 12 && ctx[i].0 == k
      ensures Get(InputSettingsData(gs, data), k) == Some(ctx[i].1)
    {
      PutAllLast(TransformInputs(data), ctx, k, i);
    }
  }

  /** Every field of the input settings is a renamed input, which starts with
      "INPUT_", or one of the twelve context keys. */
  lemma InputSettingsKeys(gs: GlobalSettings, data: Dict<string, InputValue>, k: string)
    requires k in Keys(InputSettingsData(gs, data))
    ensures StartsWith(k, InputPrefix) || exists i :: 0 <= i < 12 && GithubContext(gs)[i].0 == k
  {
    PutAllKeyFrom(TransformInputs(data), GithubContext(gs), k);
    TransformInputsKeys(data);
  }

  /** No field of the input settings is called "GITHUB_EVENT_PATH": an input of
      that name is renamed, and the context does not set it. */
  lemma NoEventPathField(gs: GlobalSettings, data: Dict<string, InputValue>)
    ensures "GITHUB_EVENT_PATH" !in Keys(InputSettingsData(gs, data))
  {
    var name := "GITHUB_EVENT_PATH";
    assert |name| == 17 && name[0] == 'G' && name[13] == 'P';
    ContextKeyLetters(gs);
    forall k | k in Keys(InputSettingsData(gs, data))
      ensures k != name
    {
      InputSettingsKeys(gs, data, k);
      if StartsWith(k, InputPrefix) {
        var head := k[..|InputPrefix|];
        assert head == InputPrefix && InputPrefix[0] == 'I';
        assert k[0] == head[0];
      }
    }
  }

  /** The context keys of seventeen letters ("GITHUB_EVENT_NAME",
      "GITHUB_RUN_NUMBER", "GITHUB_SERVER_URL", "GITHUB_REPOSITORY") have no
      'P' at index 13. */
  lemma ContextKeyLetters(gs: GlobalSettings)
    ensures forall i :: 0 <= i < 12 ==> |GithubContext(gs)[i].0| != 17 || GithubContext(gs)[i].0[13] != 'P'
  {
  }

  /** `GithubActionsInputSettings.__init__`: renames the inputs, then updates
      them with the GitHub context. */
  method InputSettings(gs: GlobalSettings, data: Dict<string, InputValue>) returns (fields: Dict<string, InputValue>)
    ensures fields == InputSettingsData(gs, data)
  {
    fields := Update(TransformInputs(data), GithubContext(gs));
  }
}
