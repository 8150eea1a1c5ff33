/** The script's top level and the properties that span generation and
    deployment. */
module Driver {
  import opened Pipeline
  import opened Scratch
  import opened Generator
  import opened Deployer

  /** Every generated file is picked up by the `*.sqlx` enumeration. */
  lemma SqlxNameIsSqlx(name: string)
    ensures IsSqlx(SqlxName(name))
  {
    assert SqlxName(name)[|SqlxName(name)| - |SqlxExtension|..] == SqlxExtension;
  }

  /** After a successful generation into an empty directory, the upload
      mapping has exactly one key `definitions/<name>.sqlx` per table name. */
  lemma UploadKeysAfterGeneration(tables: seq<TableSpec>, defaultSchema: string, sources: map<string, string>)
    requires Generate(map[], tables, defaultSchema, sources).outcome == Pass
    ensures var files := Generate(map[], tables, defaultSchema, sources).files;
            UploadMap(files).Keys == set t | t in tables :: DefinitionsPrefix + SqlxName(t.name)
  {
    var files := Generate(map[], tables, defaultSchema, sources).files;
    GenerateKeys(map[], tables, defaultSchema, sources);
    UploadMapSpec(files);
    var keys := set t | t in tables :: DefinitionsPrefix + SqlxName(t.name);
    forall k | k in UploadMap(files) ensures k in keys {
      var f := k[|DefinitionsPrefix|..];
      assert k == DefinitionsPrefix + f;
    }
    forall t | t in tables ensures DefinitionsPrefix + SqlxName(t.name) in UploadMap(files) {
      SqlxNameIsSqlx(t.name);
    }
  }

  /** After a successful generation into an empty directory, the upload entry
      of each table name carries the record of the last table with that name,
      as it was written to the scratch directory. */
  lemma UploadValuesAfterGeneration(tables: seq<TableSpec>, defaultSchema: string, sources: map<string, string>)
    requires Generate(map[], tables, defaultSchema, sources).outcome == Pass
    ensures var entries := UploadMap(Generate(map[], tables, defaultSchema, sources).files);
            forall j :: 0 <= j < |tables| && LastWithName(tables, j) ==>
              && DefinitionsPrefix + SqlxName(tables[j].name) in entries
              && BuildArtifact(tables[j], defaultSchema, sources).Ok?
              && entries[DefinitionsPrefix + SqlxName(tables[j].name)]
                 == BuildArtifact(tables[j], defaultSchema, sources).value
  {
    var files := Generate(map[], tables, defaultSchema, sources).files;
    UploadMapSpec(files);
    forall j | 0 <= j < |tables| && LastWithName(tables, j)
      ensures && DefinitionsPrefix + SqlxName(tables[j].name) in UploadMap(files)
              && BuildArtifact(tables[j], defaultSchema, sources).Ok?
              && UploadMap(files)[DefinitionsPrefix + SqlxName(tables[j].name)]
                 == BuildArtifact(tables[j], defaultSchema, sources).value
    {
      SqlxNameIsSqlx(tables[j].name);
      GenerateLastWins(map[], tables, defaultSchema, sources, j);
    }
  }

  /** The script's top level: clean the scratch area, generate, deploy, clean
      again. The first failure ends the run, so the final clean runs only when
      everything went through. A missing SQL source sends nothing; a refused
      request stops the deployment there and leaves the scratch directory. */
  method Run(cfg: Config, sources: map<string, string>, dir: ScratchDir, client: DataformClient,
             workspaceSuffix: string, releaseSuffix: string) returns (r: Outcome)
    requires dir.Valid()
    modifies dir, client
    ensures dir.Valid()
    ensures var g := Generate(map[], cfg.tables, cfg.defaultSchema, sources);
            g.outcome.Fail? ==>
              && r == g.outcome
              && client.trace == old(client.trace) && client.answers == old(client.answers)
              && dir.present && dir.files == g.files
    ensures var g := Generate(map[], cfg.tables, cfg.defaultSchema, sources);
            g.outcome.Pass? && r.Pass? ==>
              && !dir.present && dir.files == map[]
              && client.trace == old(client.trace) + DeployPlan(cfg, g.files, workspaceSuffix, releaseSuffix)
              && client.answers == old(client.answers) + [true, true, true, true]
    ensures var g := Generate(map[], cfg.tables, cfg.defaultSchema, sources);
            g.outcome.Pass? && r.Fail? ==>
              && r.error.RemoteServiceError? && r.error.step < 4
              && dir.present && dir.files == g.files
              && client.trace == old(client.trace)
                                 + DeployPlan(cfg, g.files, workspaceSuffix, releaseSuffix)[..r.error.step + 1]
              && client.answers == old(client.answers) + StoppedAt(r.error.step)
  {
    dir.Clean();
    r := CreateSqlxFiles(cfg, sources, dir);
    if r.Fail? {
      return;
    }
    r := Deploy(cfg, dir, client, workspaceSuffix, releaseSuffix);
    if r.Fail? {
      return;
    }
    dir.Clean();
  }

  /** The single-table scenario, generation half: project "p1" in "proj",
      default schema "ds", one table "t1" whose source "t1.sql" holds
      "SELECT 1". Exactly one file is written, with the default schema and no
      dependencies key. */
  lemma SingleTableGeneration()
    ensures Generate(map[], [TableSpec("t1", "table", None, "t1.sql", None)], "ds", map["t1.sql" := "SELECT 1"])
            == Generated(map["t1.sqlx" := Artifact("table", "t1", "ds", None, "SELECT 1")], Pass)
  {
    var t1 := TableSpec("t1", "table", None, "t1.sql", None);
    assert SqlxName("t1") == "t1.sqlx";
    assert [t1][1..] == [];
  }

  /** A directory holding one generated file uploads exactly that file. */
  lemma UploadMapSingleton(name: string, a: Artifact)
    ensures UploadMap(map[SqlxName(name) := a]) == map[DefinitionsPrefix + SqlxName(name) := a]
  {
    var files := map[SqlxName(name) := a];
    UploadMapSpec(files);
    SqlxNameIsSqlx(name);
    var entries := UploadMap(files);
    forall k | k in entries ensures k == DefinitionsPrefix + SqlxName(name) {
      assert k == DefinitionsPrefix + k[|DefinitionsPrefix|..];
    }
    MapExtensional(entries, map[DefinitionsPrefix + SqlxName(name) := a]);
  }

  /** The single-table scenario, deployment half: for a configuration with
      schedule `0 * * * *` and the one generated file `t1.sqlx`, the plan is one
      create-workspace request, one write of the single key
      `definitions/t1.sqlx`, one commit, and one release carrying that
      schedule. */
  lemma SingleTableDeployment(cfg: Config, a: Artifact, workspaceSuffix: string, releaseSuffix: string)
    requires cfg.schedule == "0 * * * *"
    ensures var plan := DeployPlan(cfg, map[SqlxName("t1") := a], workspaceSuffix, releaseSuffix);
            && |plan| == 4
            && plan[0].CreateWorkspace?
            && plan[1].WriteFileTree? && plan[1].files == map["definitions/t1.sqlx" := a]
            && plan[2].CommitWorkspaceChanges?
            && plan[3].CreateReleaseConfig? && plan[3].releaseConfig.cronSchedule == "0 * * * *"
  {
    UploadMapSingleton("t1", a);
    assert DefinitionsPrefix + SqlxName("t1") == "definitions/t1.sqlx";
    DeployPlanShape(cfg, map[SqlxName("t1") := a], workspaceSuffix, releaseSuffix);
  }
}
