/**
 * What the source and target configuration pages share: the status of the
 * simulated connection test, the choice between a database and a file,
 * the rule that decides a test's outcome, and the rule that decides when
 * the configuration lets the user continue.
 *
 * A JavaScript string is truthy exactly when it is not empty, which is how
 * both pages check their four credential fields.
 */
module ConnectionForm {

  datatype ConnectionStatus = Idle | Success | Error

  /** `"database" | "file"`: where the data comes from or goes to. */
  datatype ConfigKind = UseDatabase | UseFile

  /** The four fields both the test and the validity check look at. */
  datatype Credentials = Credentials(host: string, database: string, username: string, password: string)

  /** All four are truthy, i.e. non-empty. */
  predicate CredentialsPresent(c: Credentials)
  {
    c.host != "" && c.database != "" && c.username != "" && c.password != ""
  }

  /** The status a finished connection test reports for the credentials it was started with. */
  function TestOutcome(c: Credentials): (r: ConnectionStatus)
    ensures r != Idle
    ensures r == Success <==> CredentialsPresent(c)
    ensures r == Error <==> c.host == "" || c.database == "" || c.username == "" || c.password == ""
  {
    if CredentialsPresent(c) then Success else Error
  }

  /**
   * `isConfigValid`: a database configuration needs a successful test and
   * all four credentials as they stand now; a file configuration needs an
   * uploaded file.
   */
  function ConfigValid(kind: ConfigKind, status: ConnectionStatus, current: Credentials, hasFile: bool): (r: bool)
    ensures kind == UseDatabase ==> (r <==> status == Success && CredentialsPresent(current))
    ensures kind == UseFile ==> (r <==> hasFile)
  {
    match kind
    case UseDatabase => status == Success && CredentialsPresent(current)
    case UseFile => hasFile
  }

  /**
   * `disabled={!isConfigValid()}`: a database configuration stays blocked
   * until a test has succeeded and while any credential is empty; a file
   * configuration stays blocked until a file is uploaded.
   */
  function ContinueDisabled(kind: ConfigKind, status: ConnectionStatus, current: Credentials, hasFile: bool): (r: bool)
    ensures kind == UseDatabase ==> (r <==> status != Success || !CredentialsPresent(current))
    ensures kind == UseFile ==> (r <==> !hasFile)
  {
    !ConfigValid(kind, status, current, hasFile)
  }

  /**
   * Testing the credentials that are still in the form decides validity:
   * the configuration is valid exactly when the credentials are present.
   */
  lemma TestedCredentialsDecideValidity(c: Credentials, hasFile: bool)
    ensures ConfigValid(UseDatabase, TestOutcome(c), c, hasFile) <==> CredentialsPresent(c)
  {
  }

  /**
   * Whatever the status says, a database configuration with a missing
   * credential is never valid, so a success reported for an older set of
   * credentials does not let an emptied form continue.
   */
  lemma MissingCredentialBlocks(status: ConnectionStatus, current: Credentials, hasFile: bool)
    requires !CredentialsPresent(current)
    ensures !ConfigValid(UseDatabase, status, current, hasFile)
    ensures ContinueDisabled(UseDatabase, status, current, hasFile)
  {
  }

  /** Without a successful test a database configuration is never valid. */
  lemma UntestedBlocks(status: ConnectionStatus, current: Credentials, hasFile: bool)
    requires status != Success
    ensures !ConfigValid(UseDatabase, status, current, hasFile)
  {
  }
}
