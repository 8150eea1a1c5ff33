/** The artifact generator: one definition record per table of the
    configuration, written to `<name>.sqlx` in the scratch directory. */
module Generator {
  import opened Pipeline
  import opened Scratch

  const SqlxExtension := ".sqlx"

  /** The file a table's record is written to. */
  function SqlxName(name: string): string
  {
    name + SqlxExtension
  }

  /** Two tables write the same file exactly when they have the same name. */
  lemma SqlxNameInjective(a: string, b: string)
    requires SqlxName(a) == SqlxName(b)
    ensures a == b
  {
    assert |a| == |b|;
    assert a == SqlxName(a)[..|a|];
    assert b == SqlxName(b)[..|b|];
  }

  /** The schema of a table: its own when it has one, the configuration's
      default otherwise. */
  function ResolveSchema(t: TableSpec, defaultSchema: string): string
  {
    match t.schema
    case Some(s) => s
    case None => defaultSchema
  }

  /** The record for one table, with the query taken from the SQL sources
      (file name to file text). A source that does not exist is an error. */
  function BuildArtifact(t: TableSpec, defaultSchema: string, sources: map<string, string>): (r: Result<Artifact>)
    ensures r.Ok? <==> t.query in sources
    ensures r.Err? ==> r.error == SourceNotFound(t.query)
    ensures r.Ok? ==> r.value.kind == t.kind && r.value.name == t.name
    ensures r.Ok? && t.schema.Some? ==> r.value.schema == t.schema.value
    ensures r.Ok? && t.schema.None? ==> r.value.schema == defaultSchema
    ensures r.Ok? ==> (r.value.dependencies.Some? <==> t.dependsOn.Some?)
    ensures r.Ok? && t.dependsOn.Some? ==> r.value.dependencies.value == t.dependsOn.value
    ensures r.Ok? ==> r.value.query == sources[t.query]
  {
    if t.query !in sources then Err(SourceNotFound(t.query))
    else Ok(Artifact(t.kind, t.name, ResolveSchema(t, defaultSchema), t.dependsOn, sources[t.query]))
  }

  /** What generation leaves behind: the files of the definitions directory
      and how the run ended. */
  datatype Generated = Generated(files: map<string, Artifact>, outcome: Outcome)

  /** The definitions directory after processing `tables` in order, starting
      from `files`, and how the processing ended. Processing stops at the first
      table whose SQL source is missing; what was written before stays. */
  function Generate(files: map<string, Artifact>, tables: seq<TableSpec>, defaultSchema: string,
                    sources: map<string, string>): Generated
    decreases |tables|
  {
    if tables == [] then Generated(files, Pass)
    else match BuildArtifact(tables[0], defaultSchema, sources)
      case Err(e) => Generated(files, Fail(e))
      case Ok(a) => Generate(files[SqlxName(tables[0].name) := a], tables[1..], defaultSchema, sources)
  }

  /** Index of the first table whose SQL source is missing, `|tables|` if none. */
  function FirstMissing(tables: seq<TableSpec>, sources: map<string, string>): (k: nat)
    ensures k <= |tables|
    ensures forall i :: 0 <= i < k ==> tables[i].query in sources
    ensures k < |tables| ==> tables[k].query !in sources
  {
    if tables == [] then 0
    else if tables[0].query !in sources then 0
    else 1 + FirstMissing(tables[1..], sources)
  }

  /** Table `j` is the last one in the list with its name. */
  ghost predicate LastWithName(tables: seq<TableSpec>, j: int)
    requires 0 <= j < |tables|
  {
    forall k :: j < k < |tables| ==> tables[k].name != tables[j].name
  }

  /** Generation succeeds exactly when every table's SQL source exists; when it
      fails, it fails on the first missing one, and the directory then holds
      what the tables before it wrote. */
  lemma {:induction false} GenerateOutcome(files: map<string, Artifact>, tables: seq<TableSpec>,
                                           defaultSchema: string, sources: map<string, string>)
    ensures var k := FirstMissing(tables, sources);
            var g := Generate(files, tables, defaultSchema, sources);
            && (g.outcome == Pass <==> k == |tables|)
            && (k < |tables| ==> g.outcome == Fail(SourceNotFound(tables[k].query)))
            && Generate(files, tables[..k], defaultSchema, sources) == Generated(g.files, Pass)
    decreases |tables|
  {
    if tables != [] && tables[0].query in sources {
      var t := tables[0];
      var a := BuildArtifact(t, defaultSchema, sources).value;
      GenerateOutcome(files[SqlxName(t.name) := a], tables[1..], defaultSchema, sources);
      var k := FirstMissing(tables, sources);
      assert tables[..k][1..] == tables[1..][..k - 1];
    } else if tables != [] {
      assert tables[..0] == [];
    }
  }

  /** The names written by generation: every table processed adds its file,
      and no other file appears. */
  lemma {:induction false} GenerateKeys(files: map<string, Artifact>, tables: seq<TableSpec>,
                                        defaultSchema: string, sources: map<string, string>)
    requires Generate(files, tables, defaultSchema, sources).outcome == Pass
    ensures Generate(files, tables, defaultSchema, sources).files.Keys
            == files.Keys + set t | t in tables :: SqlxName(t.name)
    decreases |tables|
  {
    if tables != [] {
      var t := tables[0];
      var a := BuildArtifact(t, defaultSchema, sources).value;
      GenerateKeys(files[SqlxName(t.name) := a], tables[1..], defaultSchema, sources);
      assert tables == [t] + tables[1..];
      assert (set u | u in tables :: SqlxName(u.name))
          == {SqlxName(t.name)} + set u | u in tables[1..] :: SqlxName(u.name);
    }
  }

  /** A file that no table names keeps its old content, whether generation
      succeeds or not. */
  lemma {:induction false} GeneratePreserves(files: map<string, Artifact>, tables: seq<TableSpec>,
                                             defaultSchema: string, sources: map<string, string>, f: string)
    requires f in files
    requires forall i :: 0 <= i < |tables| ==> SqlxName(tables[i].name) != f
    ensures var g := Generate(files, tables, defaultSchema, sources).files;
            f in g && g[f] == files[f]
    decreases |tables|
  {
    if tables != [] && tables[0].query in sources {
      var t := tables[0];
      var a := BuildArtifact(t, defaultSchema, sources).value;
      forall i | 0 <= i < |tables[1..]|
        ensures SqlxName(tables[1..][i].name) != f
      {
        assert tables[1..][i] == tables[i + 1];
      }
      GeneratePreserves(files[SqlxName(t.name) := a], tables[1..], defaultSchema, sources, f);
    }
  }

  /** After a successful generation the file of every table holds the record of
      the LAST table with that name: a later duplicate replaces the earlier
      record whole, with nothing merged from it. */
  lemma {:induction false} GenerateLastWins(files: map<string, Artifact>, tables: seq<TableSpec>,
                                            defaultSchema: string, sources: map<string, string>, j: int)
    requires Generate(files, tables, defaultSchema, sources).outcome == Pass
    requires 0 <= j < |tables| && LastWithName(tables, j)
    ensures var g := Generate(files, tables, defaultSchema, sources).files;
            SqlxName(tables[j].name) in g
            && BuildArtifact(tables[j], defaultSchema, sources).Ok?
            && g[SqlxName(tables[j].name)] == BuildArtifact(tables[j], defaultSchema, sources).value
    decreases |tables|
  {
    var t := tables[0];
    var a := BuildArtifact(t, defaultSchema, sources).value;
    var files' := files[SqlxName(t.name) := a];
    if j == 0 {
      forall i | 0 <= i < |tables[1..]|
        ensures SqlxName(tables[1..][i].name) != SqlxName(t.name)
      {
        assert tables[1..][i] == tables[i + 1];
        if SqlxName(tables[i + 1].name) == SqlxName(t.name) {
          SqlxNameInjective(tables[i + 1].name, t.name);
        }
      }
      GeneratePreserves(files', tables[1..], defaultSchema, sources, SqlxName(t.name));
    } else {
      assert tables[1..][j - 1] == tables[j];
      GenerateLastWins(files', tables[1..], defaultSchema, sources, j - 1);
    }
  }

  /** `create_sqlx_files`: make the definitions directory, then build and write
      one record per table, in list order. The directory ends as `Generate`
      says, on success and on a missing SQL source alike. */
  method CreateSqlxFiles(cfg: Config, sources: map<string, string>, dir: ScratchDir) returns (r: Outcome)
    requires dir.Valid()
    modifies dir
    ensures dir.Valid() && dir.present
    ensures Generated(dir.files, r) == Generate(old(dir.files), cfg.tables, cfg.defaultSchema, sources)
  {
    dir.MakeDirs();
    var i := 0;
    while i < |cfg.tables|
      invariant 0 <= i <= |cfg.tables|
      invariant dir.Valid() && dir.present
      invariant Generate(dir.files, cfg.tables[i..], cfg.defaultSchema, sources)
                == Generate(old(dir.files), cfg.tables, cfg.defaultSchema, sources)
    {
      var t := cfg.tables[i];
      var content := BuildArtifact(t, cfg.defaultSchema, sources);
      if content.Err? {
        return Fail(content.error);
      }
      assert cfg.tables[i..][1..] == cfg.tables[i + 1..];
      dir.Write(SqlxName(t.name), content.value);
      i := i + 1;
    }
    r := Pass;
  }
}
