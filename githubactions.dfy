/**
 * The mock GitHub event payloads (githubactions.py): the `push`,
 * `pull_request` and `workflow_dispatch` events a local run hands to a
 * GitHub action, each built from the global settings alone.
 */
module GithubActions {
  import opened Wrappers
  import opened Text
  import opened Settings

  /** A JSON value, as far as the payloads use it; an object keeps its keys in
      the order they are written. */
  datatype Json = JStr(text: string) | JInt(n: int) | JObj(fields: seq<(string, Json)>)

  /** The value stored under `key` in an object's fields. */
  function Field(fields: seq<(string, Json)>, key: string): Option<Json> {
    if fields == [] then None
    else if fields[0].0 == key then Some(fields[0].1)
    else Field(fields[1..], key)
  }

  /** The value reached by following `path` through nested objects, as
      `payload[path[0]][path[1]]...` would. */
  function Lookup(j: Json, path: seq<string>): (r: Option<Json>)
    ensures path == [] ==> r == Some(j)
    ensures path != [] && !j.JObj? ==> r.None?
    decreases |path|
  {
    if path == [] then Some(j)
    else if !j.JObj? then None
    else
      match Field(j.fields, path[0])
      case None => None
      case Some(child) => Lookup(child, path[1..])
  }

  /** A key found at position `i` with no earlier occurrence. */
  lemma {:induction false} FieldAt(fields: seq<(string, Json)>, key: string, i: nat)
    requires i < |fields| && fields[i].0 == key
    requires forall j :: 0 <= j < i ==> fields[j].0 != key
    ensures Field(fields, key) == Some(fields[i].1)
    decreases i
  {
    if i > 0 {
      assert fields[1..][i - 1] == fields[i];
      FieldAt(fields[1..], key, i - 1);
    }
  }

  /** One step down a path: looking up its first key, then the rest. */
  lemma LookupStep(j: Json, path: seq<string>, child: Json)
    requires path != [] && j.JObj? && Field(j.fields, path[0]) == Some(child)
    ensures Lookup(j, path) == Lookup(child, path[1..])
  {
  }

  /** A key no field carries. */
  lemma {:induction false} FieldAbsent(fields: seq<(string, Json)>, key: string)
    requires forall i :: 0 <= i < |fields| ==> fields[i].0 != key
    ensures Field(fields, key).None?
    decreases |fields|
  {
    if fields != [] {
      assert forall i :: 0 <= i < |fields| - 1 ==> fields[1..][i] == fields[i + 1];
      FieldAbsent(fields[1..], key);
    }
  }

  /** Every object in the value has each key once, as a Python dict does. */
  predicate WellFormed(j: Json)
    decreases j
  {
    match j
    case JObj(fields) =>
      (forall a, b :: 0 <= a < b < |fields| ==> fields[a].0 != fields[b].0) &&
      forall i :: 0 <= i < |fields| ==> WellFormed(fields[i].1)
    case _ => true
  }

  // ------------------------------------------------------------ the blocks

  /** The `repository` block all three payloads share. */
  function Repository(s: GlobalSettings): (j: Json)
    ensures WellFormed(j)
  {
    JObj([("full_name", JStr(s.gitRepository)),
          ("name", JStr(LastSegment(s.gitRepository, '/'))),
          ("owner", JObj([("login", JStr(s.githubActor))])),
          ("html_url", JStr(s.githubServerUrl + "/" + s.gitRepository))])
  }

  /** The `sender` block all three payloads share. */
  function Sender(s: GlobalSettings): (j: Json)
    ensures WellFormed(j)
  {
    JObj([("type", JStr("User")), ("login", JStr(s.githubActor))])
  }

  // ----------------------------------------------------------- the payloads

  /** `build_push_payload`. */
  function PushPayload(s: GlobalSettings): (p: Json)
    ensures WellFormed(p)
  {
    var commit := JObj([("id", JStr(s.gitCurrentRevision)),
                        ("message", JStr(s.gitLatestCommitMessage)),
                        ("author", JObj([("name", JStr(s.gitLatestCommitAuthor)),
                                         ("email", JStr("mockemail@example.com"))])),
                        ("timestamp", JStr(s.gitLatestCommitTime))]);
    var p := JObj([("ref", JStr(s.gitCurrentBranch)),
                   ("repository", Repository(s)),
                   ("sender", Sender(s)),
                   ("pusher", JObj([("name", JStr(s.githubActor))])),
                   ("head_commit", commit)]);
    assert WellFormed(commit.fields[2].1);
    p
  }

  /** `build_pull_request_payload(action)`. */
  function PullRequestPayload(s: GlobalSettings, action: string): (p: Json)
    ensures WellFormed(p)
  {
    var head := JObj([("ref", JStr(s.gitCurrentBranch)),
                      ("sha", JStr(s.gitCurrentRevision)),
                      ("repo", JObj([("full_name", JStr(s.gitRepository))]))]);
    var pr := JObj([("number", JInt(1)),
                    ("body", JStr("Mock PR Body")),
                    ("html_url", JStr(s.githubServerUrl + "/" + s.gitRepository + "/pull/0")),
                    ("head", head)]);
    assert WellFormed(head.fields[2].1);
    assert WellFormed(pr.fields[3].1);
    JObj([("action", JStr(action)),
          ("number", JInt(1)),
          ("pull_request", pr),
          ("repository", Repository(s)),
          ("sender", Sender(s))])
  }

  /** The action `build_pull_request_payload` uses when none is given. */
  const DefaultPullRequestAction: string := "opened"

  /** Called without an action, the pull request payload reports an opened
      pull request. */
  lemma PullRequestDefaultAction(s: GlobalSettings)
    ensures Lookup(PullRequestPayload(s, DefaultPullRequestAction), ["action"]) == Some(JStr("opened"))
  {
    PullRequestNumbers(s, DefaultPullRequestAction);
  }

  /** `build_workflow_dispatch_payload`. */
  function WorkflowDispatchPayload(s: GlobalSettings): (p: Json)
    ensures WellFormed(p)
  {
    JObj([("ref", JStr(s.gitCurrentBranch)),
          ("repository", Repository(s)),
          ("sender", Sender(s)),
          ("workflow", JObj([("id", JInt(0)),
                             ("name", JStr("Mock Local CI Workflow")),
                             ("state", JStr("active"))])),
          ("inputs", JObj([]))])
  }

  // ----------------------------------------------------------- properties

  /** The repository block's fields: the name is the part of the repository
      after its last '/' (all of it when there is none), and the page is the
      repository under the server URL. */
  lemma RepositoryFields(s: GlobalSettings)
    ensures Lookup(Repository(s), ["full_name"]) == Some(JStr(s.gitRepository))
    ensures Lookup(Repository(s), ["name"]) == Some(JStr(LastSegment(s.gitRepository, '/')))
    ensures Lookup(Repository(s), ["owner", "login"]) == Some(JStr(s.githubActor))
    ensures Lookup(Repository(s), ["html_url"]) == Some(JStr(s.githubServerUrl + "/" + s.gitRepository))
  {
    var fs := Repository(s).fields;
    FieldAt(fs, "full_name", 0);
    FieldAt(fs, "name", 1);
    FieldAt(fs, "owner", 2);
    FieldAt(fs[2].1.fields, "login", 0);
    var loginPath := ["owner", "login"];
    LookupStep(Repository(s), loginPath, fs[2].1);
    LookupStep(fs[2].1, loginPath[1..], fs[2].1.fields[0].1);
    FieldAt(fs, "html_url", 3);
  }

  /** The repository name is the longest suffix of the repository path
      without '/': it holds no '/', ends the path, is the whole path for a
      repository without owner, and follows a '/' otherwise. */
  lemma RepositoryName(s: GlobalSettings)
    ensures var name := LastSegment(s.gitRepository, '/');
      Lookup(Repository(s), ["name"]) == Some(JStr(name)) &&
      '/' !in name && EndsWith(s.gitRepository, name) &&
      ('/' !in s.gitRepository ==> name == s.gitRepository) &&
      (|name| < |s.gitRepository| ==> s.gitRepository[|s.gitRepository| - |name| - 1] == '/')
  {
    RepositoryFields(s);
    LastSegmentSuffix(s.gitRepository, '/');
  }

  /** The name of "airbytehq/aircmd" is "aircmd". */
  lemma RepositoryNameExample(s: GlobalSettings)
    requires s.gitRepository == "airbytehq/aircmd"
    ensures Lookup(Repository(s), ["name"]) == Some(JStr("aircmd"))
  {
    RepositoryFields(s);
    assert s.gitRepository == "airbytehq" + ['/'] + "aircmd";
    LastSegmentOfSuffix("airbytehq", "aircmd", '/');
  }

  /** All three payloads carry the same repository and sender blocks. */
  lemma SharedBlocks(s: GlobalSettings, action: string)
    ensures Lookup(PushPayload(s), ["repository"]) == Some(Repository(s))
    ensures Lookup(PullRequestPayload(s, action), ["repository"]) == Some(Repository(s))
    ensures Lookup(WorkflowDispatchPayload(s), ["repository"]) == Some(Repository(s))
    ensures Lookup(PushPayload(s), ["sender"]) == Some(Sender(s))
    ensures Lookup(PullRequestPayload(s, action), ["sender"]) == Some(Sender(s))
    ensures Lookup(WorkflowDispatchPayload(s), ["sender"]) == Some(Sender(s))
  {
    FieldAt(PushPayload(s).fields, "repository", 1);
    FieldAt(PushPayload(s).fields, "sender", 2);
    FieldAt(PullRequestPayload(s, action).fields, "repository", 3);
    FieldAt(PullRequestPayload(s, action).fields, "sender", 4);
    FieldAt(WorkflowDispatchPayload(s).fields, "repository", 1);
    FieldAt(WorkflowDispatchPayload(s).fields, "sender", 2);
  }

  /** A push is on the current branch, and its head commit is the current
      revision, by the latest commit's author. */
  lemma PushRefs(s: GlobalSettings)
    ensures Lookup(PushPayload(s), ["ref"]) == Some(JStr(s.gitCurrentBranch))
    ensures Lookup(PushPayload(s), ["head_commit", "id"]) == Some(JStr(s.gitCurrentRevision))
    ensures Lookup(PushPayload(s), ["head_commit", "author", "name"]) == Some(JStr(s.gitLatestCommitAuthor))
    ensures Lookup(PushPayload(s), ["pusher", "name"]) == Lookup(PushPayload(s), ["sender", "login"])
  {
    var p := PushPayload(s);
    var fs := p.fields;
    FieldAt(fs, "ref", 0);
    FieldAt(fs, "head_commit", 4);
    var commit := fs[4].1;
    FieldAt(commit.fields, "id", 0);
    var idPath := ["head_commit", "id"];
    LookupStep(p, idPath, commit);
    LookupStep(commit, idPath[1..], commit.fields[0].1);
    FieldAt(commit.fields, "author", 2);
    var author := commit.fields[2].1;
    FieldAt(author.fields, "name", 0);
    var authorPath := ["head_commit", "author", "name"];
    LookupStep(p, authorPath, commit);
    LookupStep(commit, authorPath[1..], author);
    LookupStep(author, authorPath[1..][1..], author.fields[0].1);
    FieldAt(fs, "pusher", 3);
    FieldAt(fs[3].1.fields, "name", 0);
    var pusherPath := ["pusher", "name"];
    LookupStep(p, pusherPath, fs[3].1);
    LookupStep(fs[3].1, pusherPath[1..], fs[3].1.fields[0].1);
    FieldAt(fs, "sender", 2);
    FieldAt(fs[2].1.fields, "login", 1);
    var senderPath := ["sender", "login"];
    LookupStep(p, senderPath, fs[2].1);
    LookupStep(fs[2].1, senderPath[1..], fs[2].1.fields[1].1);
  }

  /** A pull request carries its action, is number 1 at both levels, while
      its page is pull request 0 of the repository. */
  lemma PullRequestNumbers(s: GlobalSettings, action: string)
    ensures Lookup(PullRequestPayload(s, action), ["action"]) == Some(JStr(action))
    ensures Lookup(PullRequestPayload(s, action), ["number"]) == Some(JInt(1))
    ensures Lookup(PullRequestPayload(s, action), ["pull_request", "number"]) == Some(JInt(1))
    ensures var url := Lookup(PullRequestPayload(s, action), ["pull_request", "html_url"]);
      url.Some? && url.value.JStr? &&
      StartsWith(url.value.text, s.githubServerUrl + "/" + s.gitRepository) && EndsWith(url.value.text, "/pull/0")
  {
    var p := PullRequestPayload(s, action);
    var fs := p.fields;
    FieldAt(fs, "action", 0);
    FieldAt(fs, "number", 1);
    FieldAt(fs, "pull_request", 2);
    var pr := fs[2].1;
    FieldAt(pr.fields, "number", 0);
    var numberPath := ["pull_request", "number"];
    LookupStep(p, numberPath, pr);
    LookupStep(pr, numberPath[1..], pr.fields[0].1);
    FieldAt(pr.fields, "html_url", 2);
    var urlPath := ["pull_request", "html_url"];
    LookupStep(p, urlPath, pr);
    LookupStep(pr, urlPath[1..], pr.fields[2].1);
    var prefix := s.githubServerUrl + "/" + s.gitRepository;
    var url := prefix + "/pull/0";
    assert url[..|prefix|] == prefix;
    assert url[|url| - 7..] == "/pull/0";
  }

  /** The pull request's head is the current branch at the current revision,
      in the same repository. */
  lemma PullRequestHead(s: GlobalSettings, action: string)
    ensures Lookup(PullRequestPayload(s, action), ["pull_request", "head", "ref"]) == Some(JStr(s.gitCurrentBranch))
    ensures Lookup(PullRequestPayload(s, action), ["pull_request", "head", "sha"]) == Some(JStr(s.gitCurrentRevision))
    ensures Lookup(PullRequestPayload(s, action), ["pull_request", "head", "repo", "full_name"]) ==
            Lookup(PullRequestPayload(s, action), ["repository", "full_name"])
  {
    var p := PullRequestPayload(s, action);
    FieldAt(p.fields, "pull_request", 2);
    var pr := p.fields[2].1;
    FieldAt(pr.fields, "head", 3);
    var head := pr.fields[3].1;
    FieldAt(head.fields, "ref", 0);
    FieldAt(head.fields, "sha", 1);
    FieldAt(head.fields, "repo", 2);
    var repo := head.fields[2].1;
    FieldAt(repo.fields, "full_name", 0);
    var refPath := ["pull_request", "head", "ref"];
    LookupStep(p, refPath, pr);
    LookupStep(pr, refPath[1..], head);
    LookupStep(head, refPath[1..][1..], head.fields[0].1);
    var shaPath := ["pull_request", "head", "sha"];
    LookupStep(p, shaPath, pr);
    LookupStep(pr, shaPath[1..], head);
    LookupStep(head, shaPath[1..][1..], head.fields[1].1);
    var namePath := ["pull_request", "head", "repo", "full_name"];
    LookupStep(p, namePath, pr);
    LookupStep(pr, namePath[1..], head);
    LookupStep(head, namePath[1..][1..], repo);
    LookupStep(repo, namePath[1..][1..][1..], repo.fields[0].1);
    FieldAt(p.fields, "repository", 3);
    RepositoryFields(s);
    var repoPath := ["repository", "full_name"];
    LookupStep(p, repoPath, Repository(s));
  }

  /** A manual dispatch runs workflow 0, active, with no inputs. */
  lemma WorkflowDispatchFields(s: GlobalSettings)
    ensures Lookup(WorkflowDispatchPayload(s), ["ref"]) == Some(JStr(s.gitCurrentBranch))
    ensures Lookup(WorkflowDispatchPayload(s), ["workflow", "id"]) == Some(JInt(0))
    ensures Lookup(WorkflowDispatchPayload(s), ["workflow", "state"]) == Some(JStr("active"))
    ensures Lookup(WorkflowDispatchPayload(s), ["inputs"]) == Some(JObj([]))
  {
    var p := WorkflowDispatchPayload(s);
    var fs := p.fields;
    FieldAt(fs, "ref", 0);
    FieldAt(fs, "workflow", 3);
    var workflow := fs[3].1;
    FieldAt(workflow.fields, "id", 0);
    FieldAt(workflow.fields, "state", 2);
    var idPath := ["workflow", "id"];
    LookupStep(p, idPath, workflow);
    LookupStep(workflow, idPath[1..], workflow.fields[0].1);
    var statePath := ["workflow", "state"];
    LookupStep(p, statePath, workflow);
    LookupStep(workflow, statePath[1..], workflow.fields[2].1);
    FieldAt(fs, "inputs", 4);
  }

  /** Only a pull request names an action; only a push and a dispatch name a
      ref at the top level. */
  lemma EventShapes(s: GlobalSettings, action: string)
    ensures Lookup(PushPayload(s), ["action"]).None?
    ensures Lookup(WorkflowDispatchPayload(s), ["action"]).None?
    ensures Lookup(PullRequestPayload(s, action), ["ref"]).None?
  {
    var push := PushPayload(s).fields;
    var dispatch := WorkflowDispatchPayload(s).fields;
    var pr := PullRequestPayload(s, action).fields;
    FieldAbsent(push, "action");
    FieldAbsent(dispatch, "action");
    FieldAbsent(pr, "ref");
  }
}
