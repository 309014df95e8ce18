/**
 * The target-configuration page: the same connection form as the source
 * page with one more, optional, key (the schema), the same simulated
 * connection test, and the gate on "Continue to Table Selection".
 *
 * The page defines a file-upload handler, but no input on the page calls
 * it: the file panel only offers export settings. `HandleFileUpload` models
 * the handler as written; through the page's own controls `uploadedFile`
 * stays empty, so a file target never lets the user continue.
 *
 * The 2-second test timer becomes `FinishConnectionTest`, judging the form
 * as it stood when the test was started (kept in `pendingTest`).
 */
module TargetConfig {
  import opened Js
  import opened ConnectionForm

  datatype DbConfig = DbConfig(
    host: string,
    port: string,
    database: string,
    username: string,
    password: string,
    dbType: string,
    schema: string)

  /** The keys of DbConfig, as `handleDbConfigChange` receives them. */
  datatype DbField = Host | Port | Database | Username | Password | DbType | Schema

  /** The form the page opens with. */
  function InitialConfig(): (r: DbConfig)
    ensures r.port == "5432" && r.dbType == "postgresql" && r.schema == ""
    ensures !CredentialsPresent(CredentialsOf(r))
  {
    DbConfig("", "5432", "", "", "", "postgresql", "")
  }

  function CredentialsOf(c: DbConfig): Credentials
  {
    Credentials(c.host, c.database, c.username, c.password)
  }

  /** `config[field]`. */
  function Get(c: DbConfig, f: DbField): string
  {
    match f
    case Host => c.host
    case Port => c.port
    case Database => c.database
    case Username => c.username
    case Password => c.password
    case DbType => c.dbType
    case Schema => c.schema
  }

  /** `{ ...config, [field]: value }`: the edited key has the new value and no other key changes. */
  function WithField(c: DbConfig, f: DbField, v: string): (r: DbConfig)
    ensures Get(r, f) == v
    ensures forall g :: g != f ==> Get(r, g) == Get(c, g)
  {
    match f
    case Host => c.(host := v)
    case Port => c.(port := v)
    case Database => c.(database := v)
    case Username => c.(username := v)
    case Password => c.(password := v)
    case DbType => c.(dbType := v)
    case Schema => c.(schema := v)
  }

  /** A record is determined by its seven keys. */
  lemma ConfigExtensional(a: DbConfig, b: DbConfig)
    requires forall f :: Get(a, f) == Get(b, f)
    ensures a == b
  {
    assert Get(a, Host) == Get(b, Host) && Get(a, Port) == Get(b, Port);
    assert Get(a, Database) == Get(b, Database) && Get(a, Username) == Get(b, Username);
    assert Get(a, Password) == Get(b, Password) && Get(a, DbType) == Get(b, DbType);
    assert Get(a, Schema) == Get(b, Schema);
  }

  /** Writing back the value a key already has changes nothing. */
  lemma WithSameValue(c: DbConfig, f: DbField)
    ensures WithField(c, f, Get(c, f)) == c
  {
    ConfigExtensional(WithField(c, f, Get(c, f)), c);
  }

  /** The later of two edits of one key wins. */
  lemma LaterEditWins(c: DbConfig, f: DbField, v: string, w: string)
    ensures WithField(WithField(c, f, v), f, w) == WithField(c, f, w)
  {
    ConfigExtensional(WithField(WithField(c, f, v), f, w), WithField(c, f, w));
  }

  /** `isConfigValid` on this page's state. */
  function IsConfigValid(kind: ConfigKind, status: ConnectionStatus, c: DbConfig, file: Option<FileInfo>): (r: bool)
    ensures kind == UseDatabase ==>
      (r <==> status == Success && c.host != "" && c.database != "" && c.username != "" && c.password != "")
    ensures kind == UseFile ==> (r <==> file.Some?)
  {
    ConfigValid(kind, status, CredentialsOf(c), file.Some?)
  }

  /** Port, database type and schema play no part in validity. */
  lemma PortTypeSchemaIrrelevant(kind: ConfigKind, status: ConnectionStatus, c: DbConfig, file: Option<FileInfo>, f: DbField, v: string)
    requires f == Port || f == DbType || f == Schema
    ensures IsConfigValid(kind, status, WithField(c, f, v), file) == IsConfigValid(kind, status, c, file)
  {
  }

  /** Clearing a credential field makes a database target invalid, even after a successful test. */
  lemma ClearingCredentialInvalidates(status: ConnectionStatus, c: DbConfig, file: Option<FileInfo>, f: DbField)
    requires f != Port && f != DbType && f != Schema
    ensures !IsConfigValid(UseDatabase, status, WithField(c, f, ""), file)
  {
  }

  /** With no uploaded file, a file target is never valid. */
  lemma FileTargetNeedsFile(status: ConnectionStatus, c: DbConfig)
    ensures !IsConfigValid(UseFile, status, c, None)
  {
  }

  /** The page's state. */
  class TargetPage {
    var targetType: ConfigKind
    var isConnecting: bool
    var connectionStatus: ConnectionStatus
    var uploadedFile: Option<FileInfo>
    var dbConfig: DbConfig
    /** The form as it stood when the running test was started. */
    var pendingTest: Option<DbConfig>

    /** A test is running exactly when one is pending, and a running test shows the idle status. */
    ghost predicate Valid()
      reads this
    {
      (isConnecting <==> pendingTest.Some?) && (isConnecting ==> connectionStatus == Idle)
    }

    constructor ()
      ensures Valid()
      ensures targetType == UseDatabase && !isConnecting && connectionStatus == Idle
      ensures uploadedFile.None? && dbConfig == InitialConfig() && pendingTest.None?
    {
      targetType := UseDatabase;
      isConnecting := false;
      connectionStatus := Idle;
      uploadedFile := None;
      dbConfig := InitialConfig();
      pendingTest := None;
    }

    /** `handleDbConfigChange`. */
    method HandleDbConfigChange(f: DbField, v: string)
      modifies this`dbConfig
      ensures dbConfig == WithField(old(dbConfig), f, v)
    {
      dbConfig := WithField(dbConfig, f, v);
    }

    /** The Test Connection button, which is disabled while a test runs. */
    method TestConnection()
      requires Valid() && !isConnecting
      modifies this`isConnecting, this`connectionStatus, this`pendingTest
      ensures Valid()
      ensures isConnecting && connectionStatus == Idle && pendingTest == Some(dbConfig)
    {
      isConnecting := true;
      connectionStatus := Idle;
      pendingTest := Some(dbConfig);
    }

    /** The test timer fires and judges the form it was started with. */
    method FinishConnectionTest()
      requires Valid() && isConnecting
      modifies this`isConnecting, this`connectionStatus, this`pendingTest
      ensures Valid()
      ensures !isConnecting && pendingTest.None?
      ensures connectionStatus == TestOutcome(CredentialsOf(old(pendingTest).value))
    {
      connectionStatus := TestOutcome(CredentialsOf(pendingTest.value));
      isConnecting := false;
      pendingTest := None;
    }

    /** `handleFileUpload`: a chosen file replaces the current one; no file, no change. */
    method HandleFileUpload(file: Option<FileInfo>)
      modifies this`uploadedFile
      ensures uploadedFile == if file.Some? then file else old(uploadedFile)
    {
      if file.Some? {
        uploadedFile := file;
      }
    }

    /** The database/file radio group. */
    method SetTargetType(kind: ConfigKind)
      modifies this`targetType
      ensures targetType == kind
    {
      targetType := kind;
    }
  }

  /**
   * Start a test and let it finish with no edit in between: the target may
   * continue exactly when the four credentials are filled in.
   */
  method TestUnchangedForm(page: TargetPage) returns (valid: bool)
    requires page.Valid() && !page.isConnecting && page.targetType == UseDatabase
    modifies page
    ensures valid <==> CredentialsPresent(CredentialsOf(page.dbConfig))
    ensures valid == IsConfigValid(page.targetType, page.connectionStatus, page.dbConfig, page.uploadedFile)
  {
    page.TestConnection();
    page.FinishConnectionTest();
    valid := IsConfigValid(page.targetType, page.connectionStatus, page.dbConfig, page.uploadedFile);
  }
}
