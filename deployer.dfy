/** The deployment client: resource names built from the configuration, the
    upload mapping built from the definitions directory, and the four remote
    calls issued in order against an abstract Dataform client. */
module Deployer {
  import opened Pipeline
  import opened Scratch
  import Generator

  const Region := "us-central1"
  const DefinitionsPrefix := "definitions/"
  const AuthorName := "Data Engineer"
  const AuthorEmail := "data@company.com"
  const CommitMessage := "Deploy automático via script"

  /** The repository resource the workspace and the release belong to. */
  function RepositoryName(bigqueryProject: string, repoId: string): string
  {
    "projects/" + bigqueryProject + "/locations/" + Region + "/repositories/" + repoId
  }

  /** The client library's path template for a workspace. */
  function WorkspacePath(project: string, location: string, repository: string, workspace: string): string
  {
    "projects/" + project + "/locations/" + location + "/repositories/" + repository + "/workspaces/" + workspace
  }

  /** Position of the first '/' in `s`, or `|s|` when there is none. */
  function IndexOfSlash(s: string): (i: nat)
    ensures i <= |s|
    ensures forall j :: 0 <= j < i ==> s[j] != '/'
    ensures i < |s| ==> s[i] == '/'
  {
    if s == [] || s[0] == '/' then 0 else 1 + IndexOfSlash(s[1..])
  }

  /** Reads the project and the repository back out of a repository name. */
  function ParseRepositoryName(s: string): Option<(string, string)>
  {
    var head := "projects/";
    var middle := "/locations/" + Region + "/repositories/";
    if |s| < |head| || s[..|head|] != head then None
    else
      var rest := s[|head|..];
      var i := IndexOfSlash(rest);
      var tail := rest[i..];
      if |tail| < |middle| || tail[..|middle|] != middle then None
      else Some((rest[..i], tail[|middle|..]))
  }

  /** A repository name determines the project and the repository it was
      built from, as long as the project id has no '/' (GCP project ids
      never do). */
  lemma RepositoryNameRoundTrip(bigqueryProject: string, repoId: string)
    requires '/' !in bigqueryProject
    ensures ParseRepositoryName(RepositoryName(bigqueryProject, repoId)) == Some((bigqueryProject, repoId))
  {
    var head := "projects/";
    var middle := "/locations/" + Region + "/repositories/";
    var s := RepositoryName(bigqueryProject, repoId);
    assert s == head + (bigqueryProject + (middle + repoId));
    var rest := s[|head|..];
    assert rest == bigqueryProject + (middle + repoId);
    var i := IndexOfSlash(rest);
    assert rest[|bigqueryProject|] == '/';
    assert i == |bigqueryProject|;
    assert rest[..i] == bigqueryProject;
    assert rest[i..] == middle + repoId;
  }

  /** Distinct (project, repository) pairs name distinct repositories. */
  lemma RepositoryNameInjective(p1: string, r1: string, p2: string, r2: string)
    requires '/' !in p1 && '/' !in p2
    requires RepositoryName(p1, r1) == RepositoryName(p2, r2)
    ensures p1 == p2 && r1 == r2
  {
    RepositoryNameRoundTrip(p1, r1);
    RepositoryNameRoundTrip(p2, r2);
  }

  /** Workspace and release ids: a fixed prefix and a random suffix. */
  function WorkspaceId(suffix: string): string { "workspace-" + suffix }
  function ReleaseConfigId(suffix: string): string { "release-" + suffix }

  datatype Author = Author(name: string, email: string)

  datatype ReleaseConfig = ReleaseConfig(
    name: string,
    gitCommitish: string,
    includedTags: seq<string>,
    includedPaths: seq<string>,
    cronSchedule: string)

  /** The release configuration registered under `parent`: latest commit, no
      tag filter, only the definitions directory, the configured schedule. */
  function ReleaseConfigFor(parent: string, releaseConfigId: string, schedule: string): ReleaseConfig
  {
    ReleaseConfig(parent + "/releaseConfigs/" + releaseConfigId, "HEAD", [], [DefinitionsPrefix], schedule)
  }

  predicate IsSqlx(f: string)
  {
    |f| >= |Generator.SqlxExtension| && f[|f| - |Generator.SqlxExtension|..] == Generator.SqlxExtension
  }

  /** Prefixing is injective, so no two files share a key. */
  lemma PrefixInjective()
    ensures forall a: string, b: string :: DefinitionsPrefix + a == DefinitionsPrefix + b ==> a == b
  {
    forall a: string, b: string | DefinitionsPrefix + a == DefinitionsPrefix + b
      ensures a == b
    {
      assert a == (DefinitionsPrefix + a)[|DefinitionsPrefix|..];
      assert b == (DefinitionsPrefix + b)[|DefinitionsPrefix|..];
    }
  }

  /** The `entries` mapping: every `.sqlx` file of the directory, under the
      key `definitions/<file name>`. */
  function UploadMap(files: map<string, Artifact>): map<string, Artifact>
  {
    PrefixInjective();
    map f | f in files && IsSqlx(f) :: DefinitionsPrefix + f := files[f]
  }

  /** The upload mapping has an entry for each `.sqlx` file, holding that
      file's content unchanged, and no other entry: every key is the prefix
      followed by the name of a `.sqlx` file of the directory. */
  lemma UploadMapSpec(files: map<string, Artifact>)
    ensures forall f {:trigger DefinitionsPrefix + f} :: f in files && IsSqlx(f) ==>
              DefinitionsPrefix + f in UploadMap(files) && UploadMap(files)[DefinitionsPrefix + f] == files[f]
    ensures forall k :: k in UploadMap(files) ==>
              && |DefinitionsPrefix| <= |k| && k[..|DefinitionsPrefix|] == DefinitionsPrefix
              && var f := k[|DefinitionsPrefix|..]; f in files && IsSqlx(f) && UploadMap(files)[k] == files[f]
  {
    assert forall f :: f in files && IsSqlx(f) ==> (DefinitionsPrefix + f)[|DefinitionsPrefix|..] == f;
  }

  /** Adding one file to the directory adds one entry when it is a `.sqlx`
      file, and none otherwise. */
  lemma UploadMapInsert(files: map<string, Artifact>, f: string, content: Artifact)
    requires f !in files
    ensures UploadMap(files[f := content])
            == if IsSqlx(f) then UploadMap(files)[DefinitionsPrefix + f := content] else UploadMap(files)
  {
    var lhs := UploadMap(files[f := content]);
    var rhs := if IsSqlx(f) then UploadMap(files)[DefinitionsPrefix + f := content] else UploadMap(files);
    UploadMapInsertSub(files, f, content);
    UploadMapInsertSup(files, f, content);
    MapExtensional(lhs, rhs);
  }

  lemma MapExtensional(m: map<string, Artifact>, m': map<string, Artifact>)
    requires forall k :: k in m ==> k in m' && m[k] == m'[k]
    requires forall k :: k in m' ==> k in m
    ensures m == m'
  {
  }

  lemma UploadMapInsertSub(files: map<string, Artifact>, f: string, content: Artifact)
    requires f !in files
    ensures var lhs := UploadMap(files[f := content]);
            var rhs := if IsSqlx(f) then UploadMap(files)[DefinitionsPrefix + f := content] else UploadMap(files);
            forall k :: k in lhs ==> k in rhs && lhs[k] == rhs[k]
  {
    var lhs := UploadMap(files[f := content]);
    var old' := UploadMap(files);
    var rhs := if IsSqlx(f) then old'[DefinitionsPrefix + f := content] else old';
    UploadMapSpec(files[f := content]);
    UploadMapSpec(files);
    forall k | k in lhs ensures k in rhs && lhs[k] == rhs[k] {
      var g := k[|DefinitionsPrefix|..];
      assert k == DefinitionsPrefix + g;
      if g != f {
        assert g in files && k in old' && old'[k] == files[g];
        if IsSqlx(f) {
          assert k != DefinitionsPrefix + f by {
            assert (DefinitionsPrefix + f)[|DefinitionsPrefix|..] == f;
          }
        }
      }
    }
  }

  lemma UploadMapInsertSup(files: map<string, Artifact>, f: string, content: Artifact)
    requires f !in files
    ensures var rhs := if IsSqlx(f) then UploadMap(files)[DefinitionsPrefix + f := content] else UploadMap(files);
            forall k :: k in rhs ==> k in UploadMap(files[f := content])
  {
    var old' := UploadMap(files);
    var rhs := if IsSqlx(f) then old'[DefinitionsPrefix + f := content] else old';
    UploadMapSpec(files[f := content]);
    UploadMapSpec(files);
    forall k | k in rhs ensures k in UploadMap(files[f := content]) {
      if k in old' {
        var g := k[|DefinitionsPrefix|..];
        assert k == DefinitionsPrefix + g;
      } else {
        assert k == DefinitionsPrefix + f;
      }
    }
  }

  /** One request to the remote service. */
  datatype Call =
    | CreateWorkspace(parent: string, workspaceId: string)
    | WriteFileTree(workspace: string, files: map<string, Artifact>)
    | CommitWorkspaceChanges(name: string, author: Author, message: string)
    | CreateReleaseConfig(parent: string, releaseConfigId: string, releaseConfig: ReleaseConfig)

  /** The remote client, reduced to the requests it has been sent and the
      answer it gave to each (`true` for accepted). Any request may fail; the
      service's answer is not otherwise modelled. */
  class DataformClient {
    var trace: seq<Call>
    var answers: seq<bool>

    constructor ()
      ensures trace == [] && answers == []
    {
      trace := [];
      answers := [];
    }

    /** Sends one request; `ok` is the service's answer, recorded beside it. */
    method Send(c: Call) returns (ok: bool)
      modifies this
      ensures trace == old(trace) + [c]
      ensures answers == old(answers) + [ok]
    {
      trace := trace + [c];
      ok := *;
      answers := answers + [ok];
    }
  }

  /** The requests a complete deployment sends, in order. */
  function DeployPlan(cfg: Config, files: map<string, Artifact>, workspaceSuffix: string, releaseSuffix: string): seq<Call>
  {
    var parent := RepositoryName(cfg.bigqueryProject, cfg.projectName);
    var workspacePath := WorkspacePath(cfg.bigqueryProject, Region, cfg.projectName, WorkspaceId(workspaceSuffix));
    [ CreateWorkspace(parent, WorkspaceId(workspaceSuffix)),
      WriteFileTree(workspacePath, UploadMap(files)),
      CommitWorkspaceChanges(workspacePath, Author(AuthorName, AuthorEmail), CommitMessage),
      CreateReleaseConfig(parent, ReleaseConfigId(releaseSuffix),
                          ReleaseConfigFor(parent, ReleaseConfigId(releaseSuffix), cfg.schedule)) ]
  }

  /** What each of the four requests carries, for every configuration and
      every pair of suffixes: the workspace `workspace-<suffix>` is created in
      the repository; the write and the commit address that workspace by the
      library's path, which lies inside the repository; the commit has the
      fixed author and message; the release `release-<suffix>` lies inside the
      repository, follows `HEAD`, has no tag filter, covers only
      `definitions/`, and runs on the configured schedule. */
  lemma DeployPlanShape(cfg: Config, files: map<string, Artifact>, workspaceSuffix: string, releaseSuffix: string)
    ensures var plan := DeployPlan(cfg, files, workspaceSuffix, releaseSuffix);
            var parent := RepositoryName(cfg.bigqueryProject, cfg.projectName);
            var workspace := parent + "/workspaces/workspace-" + workspaceSuffix;
            && |plan| == 4
            && plan[0] == CreateWorkspace(parent, "workspace-" + workspaceSuffix)
            && plan[1] == WriteFileTree(workspace, UploadMap(files))
            && plan[2] == CommitWorkspaceChanges(workspace, Author("Data Engineer", "data@company.com"),
                                       "Deploy automático via script")
            && plan[3].CreateReleaseConfig?
            && plan[3].parent == parent
            && plan[3].releaseConfigId == "release-" + releaseSuffix
            && plan[3].releaseConfig.name == parent + "/releaseConfigs/release-" + releaseSuffix
            && plan[3].releaseConfig.gitCommitish == "HEAD"
            && plan[3].releaseConfig.includedTags == []
            && plan[3].releaseConfig.includedPaths == ["definitions/"]
            && plan[3].releaseConfig.cronSchedule == cfg.schedule
  {
    var parent := RepositoryName(cfg.bigqueryProject, cfg.projectName);
    assert WorkspacePath(cfg.bigqueryProject, Region, cfg.projectName, WorkspaceId(workspaceSuffix))
        == parent + "/workspaces/workspace-" + workspaceSuffix;
  }

  /** Reads every `.sqlx` file of the definitions directory into the upload
      mapping. The directory is enumerated in no particular order. */
  method CollectEntries(dir: ScratchDir) returns (entries: map<string, Artifact>)
    requires dir.Valid()
    ensures entries == UploadMap(dir.files)
  {
    var remaining := dir.files.Keys;
    entries := map[];
    while remaining != {}
      invariant remaining <= dir.files.Keys
      invariant entries == UploadMap(dir.files - remaining)
      decreases remaining
    {
      var f :| f in remaining;
      assert dir.files - (remaining - {f}) == (dir.files - remaining)[f := dir.files[f]];
      UploadMapInsert(dir.files - remaining, f, dir.files[f]);
      if IsSqlx(f) {
        entries := entries[DefinitionsPrefix + f := dir.files[f]];
      }
      remaining := remaining - {f};
    }
    assert dir.files - {} == dir.files;
  }

  /** The answers a deployment that stopped at step `step` received: every
      earlier request accepted, the one at `step` refused. */
  function StoppedAt(step: nat): (answers: seq<bool>)
    ensures |answers| == step + 1 && !answers[step]
    ensures forall i :: 0 <= i < step ==> answers[i]
  {
    if step == 0 then [false] else [true] + StoppedAt(step - 1)
  }

  /** `deploy_to_dataform`: create a workspace, upload the definitions, commit,
      register the release. The requests sent are a prefix of `DeployPlan`,
      decided by the service's answers: all four, each accepted, exactly when
      the outcome is `Pass`; otherwise the outcome names the first refused
      request, every earlier one was accepted, and nothing after it is sent. */
  method Deploy(cfg: Config, dir: ScratchDir, client: DataformClient, workspaceSuffix: string, releaseSuffix: string)
    returns (r: Outcome)
    requires dir.Valid()
    modifies client
    ensures var plan := DeployPlan(cfg, dir.files, workspaceSuffix, releaseSuffix);
            && (r.Pass? ==> && client.trace == old(client.trace) + plan
                            && client.answers == old(client.answers) + [true, true, true, true])
            && (r.Fail? ==> && r.error.RemoteServiceError? && r.error.step < |plan|
                            && client.trace == old(client.trace) + plan[..r.error.step + 1]
                            && client.answers == old(client.answers) + StoppedAt(r.error.step))
  {
    var parent := RepositoryName(cfg.bigqueryProject, cfg.projectName);
    var workspaceId := WorkspaceId(workspaceSuffix);
    var workspacePath := WorkspacePath(cfg.bigqueryProject, Region, cfg.projectName, workspaceId);
    ghost var plan := DeployPlan(cfg, dir.files, workspaceSuffix, releaseSuffix);

    var ok := client.Send(CreateWorkspace(parent, workspaceId));
    assert client.trace == old(client.trace) + plan[..1];
    if !ok { return Fail(RemoteServiceError(0)); }

    var entries := CollectEntries(dir);
    ok := client.Send(WriteFileTree(workspacePath, entries));
    assert plan[1] == WriteFileTree(workspacePath, entries);
    assert plan[..2] == plan[..1] + [plan[1]];
    assert client.trace == old(client.trace) + plan[..2];
    if !ok {
      assert StoppedAt(1) == [true, false];
      return Fail(RemoteServiceError(1));
    }

    ok := client.Send(CommitWorkspaceChanges(workspacePath, Author(AuthorName, AuthorEmail), CommitMessage));
    assert plan[2] == CommitWorkspaceChanges(workspacePath, Author(AuthorName, AuthorEmail), CommitMessage);
    assert plan[..3] == plan[..2] + [plan[2]];
    assert client.trace == old(client.trace) + plan[..3];
    if !ok {
      assert StoppedAt(2) == [true, true, false];
      return Fail(RemoteServiceError(2));
    }

    var releaseConfigId := ReleaseConfigId(releaseSuffix);
    var releaseConfig := ReleaseConfigFor(parent, releaseConfigId, cfg.schedule);
    ok := client.Send(CreateReleaseConfig(parent, releaseConfigId, releaseConfig));
    assert plan[3] == CreateReleaseConfig(parent, releaseConfigId, releaseConfig);
    assert plan[..4] == plan[..3] + [plan[3]];
    assert client.trace == old(client.trace) + plan[..4];
    if !ok {
      assert StoppedAt(3) == [true, true, true, false];
      return Fail(RemoteServiceError(3));
    }
    r := Pass;
  }
}
