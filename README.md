# Dataform pipeline generator — Dafny model

The modelled script, `generate_pipeline/generate_dataform_project.py`, reads a
pipeline configuration (a BigQuery project, a Dataform repository name, a default
schema, a cron schedule and a list of tables). It writes one `<name>.sqlx`
definition file per table into a scratch `definitions` directory. It then
deploys those files to a Dataform repository: it creates a workspace, uploads the
files as one file tree, commits them, and registers a release configuration that
runs on the schedule. Finally it removes the scratch directory.

The model has five modules:

- `Pipeline` (`pipeline.dfy`): the configuration (`Config`, `TableSpec`), the
  definition record written per table (`Artifact`), and the errors a run can end
  with (`SourceNotFound`, `RemoteServiceError`).
- `Scratch` (`scratch.dfy`): the scratch directory as a class `ScratchDir`. Its
  fields are whether the directory exists and a map from file name to the record
  stored in it. Its methods create the directory, write a file (overwriting) and
  remove the directory.
- `Generator` (`generator.dfy`): `create_sqlx_files`. The contract of
  `BuildArtifact` states schema defaulting, optional dependencies and the query
  text of one record. `Generate` is the specification of the whole pass: a
  front-to-back walk over the table list. The loop method `CreateSqlxFiles` is
  proved against it. The lemmas about `Generate` state the set of files
  produced, last-duplicate-wins, and where a missing SQL source stops the run.
- `Deployer` (`deployer.dfy`): `deploy_to_dataform`. It builds the resource names,
  collects the upload mapping `definitions/<file>` with a loop over the
  directory (`CollectEntries`, proved against `UploadMap`), and sends four
  requests to an abstract client. The client records every request and the
  service's answer to it, and any request may be refused. `Deploy` proves that
  the trace grows by a prefix of `DeployPlan` decided by those answers: the
  outcome is `Pass` exactly when all four requests were sent and accepted;
  otherwise the error names the first refused request, every earlier one was
  accepted, and no later one was sent. `DeployPlanShape` states what each
  request carries.
- `Driver` (`driver.dfy`): the `__main__` order (clean, generate, deploy, clean),
  the lemmas that connect generation to the upload mapping, and the single-table
  scenario.

Two points follow the code rather than a looser reading of it:

- A table without `depends_on` produces a record with no `dependencies` key at
  all, not an empty list (`Artifact.dependencies` is an `Option`).
- A missing SQL source aborts the whole run. Records already written for earlier
  tables stay in the scratch directory.

Inputs that the script reads from the environment are parameters of the model:

- the parsed configuration;
- the SQL source directory, as a map from file name to text;
- the two random id suffixes;
- whether each remote request is accepted, chosen nondeterministically inside
  `DataformClient.Send` and recorded in its `answers`.

## Model

| member | source | states |
|---|---|---|
| `Generator.BuildArtifact` | generate_pipeline/generate_dataform_project.py:70-81 | the record exists exactly when the SQL source exists, and otherwise the error names that source; type and name are copied from the table; the schema is the table's own when given, otherwise the default; `dependencies` is present exactly when `depends_on` is, with the same list; the query is the full text of the source |
| `Generator.SqlxNameInjective` | generate_pipeline/generate_dataform_project.py:83 | two tables write the same `<name>.sqlx` file only if their names are equal |
| `Generator.FirstMissing` | generate_pipeline/generate_dataform_project.py:69-81 | the index of the first table whose SQL source is missing: every earlier source exists, and the one at that index does not |
| `Generator.GenerateOutcome` | generate_pipeline/generate_dataform_project.py:69-85 | generation succeeds exactly when every table's source exists; otherwise it fails with the first missing source, and the directory holds what the tables before it wrote |
| `Generator.GenerateKeys` | generate_pipeline/generate_dataform_project.py:66-85 | after a successful generation the file names are exactly the old names plus `t.name + ".sqlx"` for each table `t` |
| `Generator.GeneratePreserves` | generate_pipeline/generate_dataform_project.py:83-85 | a file that no table names keeps its content, on success and on failure |
| `Generator.GenerateLastWins` | generate_pipeline/generate_dataform_project.py:69-85 | when names repeat, the file holds exactly the record of the last table with that name; nothing from an earlier table is merged in |
| `Generator.CreateSqlxFiles` | generate_pipeline/generate_dataform_project.py:35-85 | the directory exists afterwards, and its files and the outcome are those of `Generate` from the old files, both on success and on a missing source |
| `Scratch.ScratchDir.MakeDirs` | generate_pipeline/generate_dataform_project.py:66-67 | the directory exists afterwards, and files already in it are kept |
| `Scratch.ScratchDir.Write` | generate_pipeline/generate_dataform_project.py:83-85 | the named file holds the new record, replacing any earlier one; no other file changes |
| `Scratch.ScratchDir.Clean` | generate_pipeline/generate_dataform_project.py:156-166 | afterwards the directory is absent and empty, whatever the earlier state; a second call therefore changes nothing |
| `Deployer.PrefixInjective` | generate_pipeline/generate_dataform_project.py:127 | prefixing `definitions/` onto two different file names gives two different keys |
| `Deployer.UploadMapSpec` | generate_pipeline/generate_dataform_project.py:122-127 | every `.sqlx` file gets the key `definitions/<file>` holding its content unchanged; every key is that prefix followed by a `.sqlx` file of the directory; there are no other keys |
| `Deployer.UploadMapInsert` | generate_pipeline/generate_dataform_project.py:124-127 | a new `.sqlx` file adds exactly its own entry, and a file of any other kind adds none |
| `Deployer.CollectEntries` | generate_pipeline/generate_dataform_project.py:122-127 | the loop over the directory, in any order, builds exactly `UploadMap` of the directory |
| `Deployer.IndexOfSlash` | generate_pipeline/generate_dataform_project.py:115 | the position of the first `/` of a string (the end when there is none); this is the helper that reads a repository name back |
| `Deployer.RepositoryNameRoundTrip` | generate_pipeline/generate_dataform_project.py:115 | `projects/<project>/locations/us-central1/repositories/<repo>` parses back to the same project and repository when the project id has no `/` |
| `Deployer.RepositoryNameInjective` | generate_pipeline/generate_dataform_project.py:115 | different (project, repository) pairs whose project ids contain no `/` give different repository names |
| `Deployer.DeployPlanShape` | generate_pipeline/generate_dataform_project.py:115-152 | for every configuration and suffixes: the workspace `workspace-<s>` is created in the repository; the write and the commit address that workspace inside the repository; the commit has the fixed author and message; the release `release-<s>` is named inside the repository, with `git_commitish` `HEAD`, no tags, `included_paths` `["definitions/"]` and the configured cron schedule |
| `Deployer.DataformClient.Send` | generate_pipeline/generate_dataform_project.py:119-152 | one request to the service: it is appended to the trace, and the service's answer is appended to the answers and returned |
| `Deployer.StoppedAt` | generate_pipeline/generate_dataform_project.py:119-153 | the answers of a deployment that stopped at step `i`: `i` acceptances, then one refusal |
| `Deployer.Deploy` | generate_pipeline/generate_dataform_project.py:111-154 | requests go in the order create workspace, write file tree, commit, create release config. `Pass` means all four were sent and all four accepted. `Fail` at step `i` means the first `i + 1` requests were sent, the first `i` were accepted, request `i` was refused, and nothing came after it |
| `Driver.SqlxNameIsSqlx` | generate_pipeline/generate_dataform_project.py:124 | every file name the generator writes matches the `*.sqlx` pattern the deployer enumerates |
| `Driver.UploadKeysAfterGeneration` | generate_pipeline/generate_dataform_project.py:69-127 | after generating into an empty directory, the upload keys are exactly `definitions/<t.name>.sqlx`, one per table name |
| `Driver.UploadValuesAfterGeneration` | generate_pipeline/generate_dataform_project.py:69-127 | after generating into an empty directory, the upload entry for each name is the record of the last table with that name |
| `Driver.UploadMapSingleton` | generate_pipeline/generate_dataform_project.py:122-127 | a directory with one generated file uploads exactly one entry, `definitions/<name>.sqlx`, with that file's record |
| `Driver.Run` | generate_pipeline/generate_dataform_project.py:168-173 | if generation fails, no request is sent and the partly written directory stays. If a request is refused, the requests after it are not sent and the directory is not cleaned; for example, a refused write-file-tree means no commit and no release. When all four are accepted, the whole plan is sent and the directory is absent afterwards |
| `Driver.SingleTableGeneration` | generate_pipeline/generate_dataform_project.py:62-85 | one table `t1` with source `SELECT 1` and no schema yields exactly one file `t1.sqlx`, with schema `ds`, query `SELECT 1` and no dependencies |
| `Driver.SingleTableDeployment` | generate_pipeline/generate_dataform_project.py:119-149 | for any configuration with schedule `0 * * * *` and the one generated file `t1.sqlx`, the plan has four requests: one create-workspace, one write carrying exactly the key `definitions/t1.sqlx`, one commit, and one release with that schedule |

## Left out

- Loading the configuration (`load_config`, lines 15-33): YAML parsing is a library call. The model starts from a parsed, typed `Config`.
- Missing keys: a configuration or table entry without a required key raises `KeyError` in the script. The typed records always have the key, so this failure is not modelled. A key present with a null value is not modelled either.
- Serialisation: `yaml.dump` (line 85) writes a record as YAML text. The model stores and uploads the `Artifact` record itself, so "content unchanged" means the same record.
- The filesystem: paths, `mkdir`, `open`, `glob` and `shutil.rmtree` become the `ScratchDir` map. The temporary workspace and its `definitions` sub-directory share one `present` flag. Glob order is not modelled: `CollectEntries` is proved for every enumeration order.
- The Dataform client (lines 111, 117, 119, 129, 137, 149) keeps only the trace of requests and the accepted/refused answer to each. Authentication, the network and the service's own behaviour are not modelled. Neither is the empty `workspace={}` argument.
- `WorkspacePath` stands for the client library's `workspace_path` template. That library is not part of this model.
- `uuid.uuid4()` (lines 116, 141): the two six-character suffixes are parameters. Nothing is proved about their randomness or uniqueness.
- The progress messages printed at lines 120, 130, 138 and 154.
- Exceptions: a Python exception that ends the run becomes a `Fail` outcome. `Run` returns that outcome instead of exiting the process.
- Table names containing `/`: in the script, a name like `a/b` makes `open` at line 84 raise, because nothing creates `definitions/a`; the run then stops and the earlier files stay. A name like `../x` writes the file outside `definitions/`, so the glob at line 124 never uploads it. The model treats every name as a flat file name and writes and uploads the key `a/b.sqlx` in both cases.
- Deployer.RepositoryNameRoundTrip: requires that the project id contain no `/`. Without that, two different pairs can give the same name, for example `RepositoryName(p + m + b, c) == RepositoryName(p, b + m + c)` with `m` the `/locations/us-central1/repositories/` separator.
- Deployer.RepositoryNameInjective: requires, for the same reason, that both project ids contain no `/`. The script itself makes no such check.
