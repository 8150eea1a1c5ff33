/** The data model of the pipeline generator: the configuration as it is read
    from the configuration document, the definition artifact produced for each
    table, and the errors the run can end with. */
module Pipeline {

  datatype Option<T> = None | Some(value: T)

  /** One entry of the configuration's `tables` list. `schema` and
      `dependsOn` are the two optional keys of the entry. */
  datatype TableSpec = TableSpec(
    name: string,
    kind: string,                   // the `type` key: "table", "view", ...
    schema: Option<string>,
    query: string,                  // file name of the SQL source
    dependsOn: Option<seq<string>>)

  /** The whole configuration document. */
  datatype Config = Config(
    projectName: string,
    bigqueryProject: string,
    defaultSchema: string,
    schedule: string,               // cron expression
    tables: seq<TableSpec>)

  /** The record written to `<name>.sqlx`; `dependencies` is a key that is
      present or absent, not an empty list. */
  datatype Artifact = Artifact(
    kind: string,
    name: string,
    schema: string,
    dependencies: Option<seq<string>>,
    query: string)

  /** Why a run stops: a SQL source that is not there, or a remote call that
      failed (`step` is the position of the failed call in the deployment,
      counting from 0). */
  datatype Error = SourceNotFound(path: string) | RemoteServiceError(step: nat)

  datatype Result<T> = Ok(value: T) | Err(error: Error)

  datatype Outcome = Pass | Fail(error: Error)
}
