/**
 * The source-configuration page: a database connection form edited one
 * field at a time, a simulated connection test, an alternative uploaded
 * source file, and the gate on "Continue to Target Configuration".
 *
 * The 2-second test timer becomes `FinishConnectionTest`. The timer's
 * closure judges the form as it stood when the test was started, so the
 * page keeps that copy in `pendingTest` until the timer fires.
 */
module SourceConfig {
  import opened Js
  import opened ConnectionForm

  datatype DbConfig = DbConfig(
    host: string,
    port: string,
    database: string,
    username: string,
    password: string,
    dbType: string)

  /** The keys of DbConfig, as `handleDbConfigChange` receives them. */
  datatype DbField = Host | Port | Database | Username | Password | DbType

  /** The form the page opens with. */
  function InitialConfig(): (r: DbConfig)
    ensures r.port == "5432" && r.dbType == "postgresql"
    ensures !CredentialsPresent(CredentialsOf(r))
  {
    DbConfig("", "5432", "", "", "", "postgresql")
  }

  function CredentialsOf(c: DbConfig): Credentials
  {
    Credentials(c.host, c.database, c.username, c.password)
  }

  /** `config[field]`. */
  function Get(c: DbConfig, f: DbField): string
  {
    match f
    case Host => c.host
    case Port => c.port
    case Database => c.database
    case Username => c.username
    case Password => c.password
    case DbType => c.dbType
  }

  /** `{ ...config, [field]: value }`: the edited key has the new value and no other key changes. */
  function WithField(c: DbConfig, f: DbField, v: string): (r: DbConfig)
    ensures Get(r, f) == v
    ensures forall g :: g != f ==> Get(r, g) == Get(c, g)
  {
    match f
    case Host => c.(host := v)
    case Port => c.(port := v)
    case Database => c.(database := v)
    case Username => c.(username := v)
    case Password => c.(password := v)
    case DbType => c.(dbType := v)
  }

  /** A record is determined by its six keys. */
  lemma ConfigExtensional(a: DbConfig, b: DbConfig)
    requires forall f :: Get(a, f) == Get(b, f)
    ensures a == b
  {
    assert Get(a, Host) == Get(b, Host) && Get(a, Port) == Get(b, Port);
    assert Get(a, Database) == Get(b, Database) && Get(a, Username) == Get(b, Username);
    assert Get(a, Password) == Get(b, Password) && Get(a, DbType) == Get(b, DbType);
  }

  /** Writing back the value a key already has changes nothing. */
  lemma WithSameValue(c: DbConfig, f: DbField)
    ensures WithField(c, f, Get(c, f)) == c
  {
    ConfigExtensional(WithField(c, f, Get(c, f)), c);
  }

  /** The later of two edits of one key wins. */
  lemma LaterEditWins(c: DbConfig, f: DbField, v: string, w: string)
    ensures WithField(WithField(c, f, v), f, w) == WithField(c, f, w)
  {
    ConfigExtensional(WithField(WithField(c, f, v), f, w), WithField(c, f, w));
  }

  /** `isConfigValid` on this page's state. */
  function IsConfigValid(kind: ConfigKind, status: ConnectionStatus, c: DbConfig, file: Option<FileInfo>): (r: bool)
    ensures kind == UseDatabase ==>
      (r <==> status == Success && c.host != "" && c.database != "" && c.username != "" && c.password != "")
    ensures kind == UseFile ==> (r <==> file.Some?)
  {
    ConfigValid(kind, status, CredentialsOf(c), file.Some?)
  }

  /** Port and database type play no part in validity. */
  lemma PortAndTypeIrrelevant(kind: ConfigKind, status: ConnectionStatus, c: DbConfig, file: Option<FileInfo>, f: DbField, v: string)
    requires f == Port || f == DbType
    ensures IsConfigValid(kind, status, WithField(c, f, v), file) == IsConfigValid(kind, status, c, file)
  {
  }

  /** Clearing a credential field makes a database source invalid, even after a successful test. */
  lemma ClearingCredentialInvalidates(status: ConnectionStatus, c: DbConfig, file: Option<FileInfo>, f: DbField)
    requires f != Port && f != DbType
    ensures !IsConfigValid(UseDatabase, status, WithField(c, f, ""), file)
  {
  }

  /** The page's state. */
  class SourcePage {
    var sourceType: ConfigKind
    var isConnecting: bool
    var connectionStatus: ConnectionStatus
    var uploadedFile: Option<FileInfo>
    var dbConfig: DbConfig
    /** The form as it stood when the running test was started. */
    var pendingTest: Option<DbConfig>

    /** A test is running exactly when one is pending, and a running test shows the idle status. */
    ghost predicate Valid()
      reads this
    {
      (isConnecting <==> pendingTest.Some?) && (isConnecting ==> connectionStatus == Idle)
    }

    constructor ()
      ensures Valid()
      ensures sourceType == UseDatabase && !isConnecting && connectionStatus == Idle
      ensures uploadedFile.None? && dbConfig == InitialConfig() && pendingTest.None?
    {
      sourceType := UseDatabase;
      isConnecting := false;
      connectionStatus := Idle;
      uploadedFile := None;
      dbConfig := InitialConfig();
      pendingTest := None;
    }

    /** `handleDbConfigChange`. */
    method HandleDbConfigChange(f: DbField, v: string)
      modifies this`dbConfig
      ensures dbConfig == WithField(old(dbConfig), f, v)
    {
      dbConfig := WithField(dbConfig, f, v);
    }

    /** The Test Connection button, which is disabled while a test runs. */
    method TestConnection()
      requires Valid() && !isConnecting
      modifies this`isConnecting, this`connectionStatus, this`pendingTest
      ensures Valid()
      ensures isConnecting && connectionStatus == Idle && pendingTest == Some(dbConfig)
    {
      isConnecting := true;
      connectionStatus := Idle;
      pendingTest := Some(dbConfig);
    }

    /** The test timer fires and judges the form it was started with. */
    method FinishConnectionTest()
      requires Valid() && isConnecting
      modifies this`isConnecting, this`connectionStatus, this`pendingTest
      ensures Valid()
      ensures !isConnecting && pendingTest.None?
      ensures connectionStatus == TestOutcome(CredentialsOf(old(pendingTest).value))
    {
      connectionStatus := TestOutcome(CredentialsOf(pendingTest.value));
      isConnecting := false;
      pendingTest := None;
    }

    /** `handleFileUpload`: a chosen file replaces the current one; no file, no change. */
    method HandleFileUpload(file: Option<FileInfo>)
      modifies this`uploadedFile
      ensures uploadedFile == if file.Some? then file else old(uploadedFile)
    {
      if file.Some? {
        uploadedFile := file;
      }
    }

    /** The Remove button of the uploaded-file panel. */
    method RemoveFile()
      modifies this`uploadedFile
      ensures uploadedFile.None?
    {
      uploadedFile := None;
    }

    /** The database/file radio group. */
    method SetSourceType(kind: ConfigKind)
      modifies this`sourceType
      ensures sourceType == kind
    {
      sourceType := kind;
    }
  }

  /**
   * Start a test and let it finish with no edit in between: the source may
   * continue exactly when the four credentials are filled in.
   */
  method TestUnchangedForm(page: SourcePage) returns (valid: bool)
    requires page.Valid() && !page.isConnecting && page.sourceType == UseDatabase
    modifies page
    ensures valid <==> CredentialsPresent(CredentialsOf(page.dbConfig))
    ensures valid == IsConfigValid(page.sourceType, page.connectionStatus, page.dbConfig, page.uploadedFile)
  {
    page.TestConnection();
    page.FinishConnectionTest();
    valid := IsConfigValid(page.sourceType, page.connectionStatus, page.dbConfig, page.uploadedFile);
  }
}
