/** The libraries the tools call but whose insides are not modelled:
    `JSON.parse`, `JSON.stringify(x, null, 2)`, the AJV schema validator and
    the git adapter's "changed since the last commit" query. Each is an
    arbitrary total function supplied by the caller. */
module Host {
  import opened Wrappers
  import opened JsonValues

  /** One entry of AJV's `errors` array. */
  datatype AjvError = AjvError(instancePath: string, message: Option<string>, keyword: string)

  datatype Oracles = Oracles(
    /** `JSON.parse`; a failure carries the SyntaxError's message. */
    parse: string -> Result<Json, string>,
    /** `JSON.stringify(x, null, 2)`. */
    pretty: Json -> string,
    /** `ajv.compile(schema)` applied to `data`: the errors it reports, or the
        message of the exception `compile` throws. */
    ajv: (Json, Json) -> Result<seq<AjvError>, string>,
    /** `isFileChangedFromGit(path)`. */
    changedInGit: string -> bool)
}
