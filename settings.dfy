/**
 * The settings page: general settings, saved database connections,
 * notification channels and validation defaults, each edited in place,
 * with a flag that records whether anything changed since the last save
 * or reset.
 *
 * Dates are kept as the text they were written from; the page only shows
 * them.
 */
module Settings {
  import opened Js

  datatype GeneralSettings = GeneralSettings(
    appName: string,
    defaultBatchSize: int,
    maxConcurrency: int,
    timeoutMinutes: int,
    enableDetailedLogging: bool,
    autoSaveResults: bool,
    retentionDays: int,
    theme: string)

  datatype ConnectionState = Connected | Disconnected | Failed

  datatype DatabaseConnection = DatabaseConnection(
    id: string,
    name: string,
    dbType: string,
    host: string,
    port: nat,
    database: string,
    username: string,
    isDefault: bool,
    lastUsed: string,
    status: ConnectionState)

  datatype Channel = Email | Webhook | Slack

  datatype NotificationSetting = NotificationSetting(
    id: string,
    channel: Channel,
    name: string,
    endpoint: string,
    enabled: bool,
    events: seq<string>)

  datatype ValidationDefaults = ValidationDefaults(
    enableRowCount: bool,
    enableDataType: bool,
    enableNullCheck: bool,
    enablePrimaryKey: bool,
    enableForeignKey: bool,
    enableDuplicateCheck: bool,
    stopOnFirstError: bool,
    includeStatistics: bool,
    customValidationQueries: string)

  /** The value `timeoutMinutes` and `retentionDays` fall back to. */
  const NumericFallback := 30

  function InitialGeneral(): (r: GeneralSettings)
    ensures r.timeoutMinutes == NumericFallback && r.retentionDays == NumericFallback
  {
    GeneralSettings("DataSync Migration Validator", 10000, 4, 30, true, true, 30, "system")
  }

  function InitialConnections(): (r: seq<DatabaseConnection>)
    ensures |r| == 2 && r[0].id != r[1].id
  {
    [ DatabaseConnection("1", "Production DB", "postgresql", "prod-db.company.com", 5432,
        "production", "readonly_user", true, "2024-01-15", Connected),
      DatabaseConnection("2", "Staging DB", "mysql", "staging-db.company.com", 3306,
        "staging", "test_user", false, "2024-01-10", Disconnected) ]
  }

  function InitialNotifications(): (r: seq<NotificationSetting>)
    ensures |r| == 2 && r[0].id != r[1].id
  {
    [ NotificationSetting("1", Email, "Admin Email", "admin@company.com", true,
        ["validation_complete", "validation_failed"]),
      NotificationSetting("2", Webhook, "Slack Integration", "https://hooks.slack.com/...", false,
        ["validation_complete"]) ]
  }

  /**
   * The four basic checks (row count, data type, NULL, primary key) start
   * on, the foreign-key and duplicate checks off; statistics are included,
   * the run does not stop at the first error, and there are no custom queries.
   */
  function InitialDefaults(): (r: ValidationDefaults)
    ensures r.enableRowCount && r.enableDataType && r.enableNullCheck && r.enablePrimaryKey
    ensures !r.enableForeignKey && !r.enableDuplicateCheck
    ensures !r.stopOnFirstError && r.includeStatistics && r.customValidationQueries == ""
  {
    ValidationDefaults(true, true, true, true, false, false, false, true, "")
  }

  // ---------------------------------------------------------------------
  // Connections
  // ---------------------------------------------------------------------

  function KeepsOther(id: string): DatabaseConnection -> bool
  {
    (c: DatabaseConnection) => c.id != id
  }

  /** `dbConnections.filter((conn) => conn.id !== id)`. */
  function WithoutConnection(conns: seq<DatabaseConnection>, id: string): (r: seq<DatabaseConnection>)
    ensures forall c :: c in r <==> c in conns && c.id != id
    ensures IsSubsequence(r, conns)
    ensures forall c :: multiset(r)[c] == if c.id != id then multiset(conns)[c] else 0
  {
    FilterIsSubsequence(conns, KeepsOther(id));
    FilterMultiplicity(conns, KeepsOther(id));
    Filter(conns, KeepsOther(id))
  }

  /** Deleting an id no connection carries keeps the list as it is. */
  lemma DeleteUnknownKeepsAll(conns: seq<DatabaseConnection>, id: string)
    requires forall i :: 0 <= i < |conns| ==> conns[i].id != id
    ensures WithoutConnection(conns, id) == conns
  {
    FilterKeepsAll(conns, KeepsOther(id));
  }

  /** Deleting the same id a second time changes nothing. */
  lemma DeleteTwice(conns: seq<DatabaseConnection>, id: string)
    ensures WithoutConnection(WithoutConnection(conns, id), id) == WithoutConnection(conns, id)
  {
    FilterIdempotent(conns, KeepsOther(id));
  }

  /** With distinct ids, deleting one shortens the list by exactly one. */
  lemma {:induction false} DeleteRemovesOne(conns: seq<DatabaseConnection>, i: nat)
    requires i < |conns|
    requires forall j, k :: 0 <= j < k < |conns| ==> conns[j].id != conns[k].id
    ensures |WithoutConnection(conns, conns[i].id)| == |conns| - 1
  {
    var id := conns[i].id;
    assert conns == conns[..i] + [conns[i]] + conns[i + 1..];
    FilterAppend(conns[..i] + [conns[i]], conns[i + 1..], KeepsOther(id));
    FilterAppend(conns[..i], [conns[i]], KeepsOther(id));
    FilterKeepsAll(conns[..i], KeepsOther(id));
    FilterKeepsAll(conns[i + 1..], KeepsOther(id));
    assert [conns[i]][1..] == [];
  }

  // ---------------------------------------------------------------------
  // Notifications
  // ---------------------------------------------------------------------

  function Flip(n: NotificationSetting, id: string): NotificationSetting
  {
    if n.id == id then n.(enabled := !n.enabled) else n
  }

  /** The list `toggleNotification(id)` installs. */
  function ToggledNotifications(ns: seq<NotificationSetting>, id: string): (r: seq<NotificationSetting>)
    ensures |r| == |ns|
    ensures forall i :: 0 <= i < |ns| ==>
      r[i].(enabled := ns[i].enabled) == ns[i] &&
      (r[i].enabled <==> (ns[i].enabled != (ns[i].id == id)))
  {
    Map(ns, n => Flip(n, id))
  }

  /** Toggling the same notification twice restores the list. */
  lemma ToggleNotificationTwice(ns: seq<NotificationSetting>, id: string)
    ensures ToggledNotifications(ToggledNotifications(ns, id), id) == ns
  {
    var r := ToggledNotifications(ToggledNotifications(ns, id), id);
    forall i | 0 <= i < |ns|
      ensures r[i] == ns[i]
    {
    }
  }

  // ---------------------------------------------------------------------
  // General settings
  // ---------------------------------------------------------------------

  /** One input of the General tab and what it delivered. */
  datatype GeneralEdit =
    | AppName(text: string)
    | Theme(choice: string)
    | BatchSize(size: int)
    | Concurrency(threads: int)
    | TimeoutInput(text: string)
    | DetailedLogging(on: bool)
    | AutoSave(on: bool)
    | RetentionInput(text: string)

  /** Two general records agree on every key except, possibly, the one `e` edits. */
  predicate AgreeExcept(a: GeneralSettings, b: GeneralSettings, e: GeneralEdit)
  {
    && (!e.AppName? ==> a.appName == b.appName)
    && (!e.Theme? ==> a.theme == b.theme)
    && (!e.BatchSize? ==> a.defaultBatchSize == b.defaultBatchSize)
    && (!e.Concurrency? ==> a.maxConcurrency == b.maxConcurrency)
    && (!e.TimeoutInput? ==> a.timeoutMinutes == b.timeoutMinutes)
    && (!e.DetailedLogging? ==> a.enableDetailedLogging == b.enableDetailedLogging)
    && (!e.AutoSave? ==> a.autoSaveResults == b.autoSaveResults)
    && (!e.RetentionInput? ==> a.retentionDays == b.retentionDays)
  }

  /**
   * The record an input's handler installs: the edited key gets the
   * delivered value, the two number boxes read it with
   * `parseInt(text) || 30`, and every other key keeps its value.
   */
  function ApplyGeneral(g: GeneralSettings, e: GeneralEdit): (r: GeneralSettings)
    ensures AgreeExcept(g, r, e)
    ensures e.AppName? ==> r.appName == e.text
    ensures e.Theme? ==> r.theme == e.choice
    ensures e.BatchSize? ==> r.defaultBatchSize == e.size
    ensures e.Concurrency? ==> r.maxConcurrency == e.threads
    ensures e.TimeoutInput? ==> r.timeoutMinutes == IntOrElse(e.text, NumericFallback) && r.timeoutMinutes != 0
    ensures e.DetailedLogging? ==> r.enableDetailedLogging == e.on
    ensures e.AutoSave? ==> r.autoSaveResults == e.on
    ensures e.RetentionInput? ==> r.retentionDays == IntOrElse(e.text, NumericFallback) && r.retentionDays != 0
  {
    match e
    case AppName(t) => g.(appName := t)
    case Theme(t) => g.(theme := t)
    case BatchSize(n) => g.(defaultBatchSize := n)
    case Concurrency(n) => g.(maxConcurrency := n)
    case TimeoutInput(t) => g.(timeoutMinutes := IntOrElse(t, NumericFallback))
    case DetailedLogging(b) => g.(enableDetailedLogging := b)
    case AutoSave(b) => g.(autoSaveResults := b)
    case RetentionInput(t) => g.(retentionDays := IntOrElse(t, NumericFallback))
  }

  /**
   * Typing the number the box shows keeps it, except that 0 becomes 30;
   * an emptied box also becomes 30.
   */
  lemma TimeoutInputReadsBack(g: GeneralSettings, n: int)
    ensures ApplyGeneral(g, TimeoutInput(IntToString(n))).timeoutMinutes == if n == 0 then NumericFallback else n
    ensures ApplyGeneral(g, TimeoutInput("")).timeoutMinutes == NumericFallback
  {
    IntOrElseOfIntToString(n, NumericFallback);
    IntOrElseOfEmpty(NumericFallback);
  }

  /** The same for the retention box. */
  lemma RetentionInputReadsBack(g: GeneralSettings, n: int)
    ensures ApplyGeneral(g, RetentionInput(IntToString(n))).retentionDays == if n == 0 then NumericFallback else n
    ensures ApplyGeneral(g, RetentionInput("")).retentionDays == NumericFallback
  {
    IntOrElseOfIntToString(n, NumericFallback);
    IntOrElseOfEmpty(NumericFallback);
  }

  // ---------------------------------------------------------------------
  // Validation defaults
  // ---------------------------------------------------------------------

  /** The eight switches of the Validation tab. */
  datatype DefaultSwitch =
    | RowCount | DataType | NullCheck | PrimaryKey | ForeignKey | DuplicateCheck
    | StopOnFirstError | IncludeStatistics

  function SwitchValue(d: ValidationDefaults, k: DefaultSwitch): bool
  {
    match k
    case RowCount => d.enableRowCount
    case DataType => d.enableDataType
    case NullCheck => d.enableNullCheck
    case PrimaryKey => d.enablePrimaryKey
    case ForeignKey => d.enableForeignKey
    case DuplicateCheck => d.enableDuplicateCheck
    case StopOnFirstError => d.stopOnFirstError
    case IncludeStatistics => d.includeStatistics
  }

  /** A switch's handler: that switch takes the new state, everything else stays. */
  function WithSwitch(d: ValidationDefaults, k: DefaultSwitch, on: bool): (r: ValidationDefaults)
    ensures SwitchValue(r, k) == on
    ensures forall j :: j != k ==> SwitchValue(r, j) == SwitchValue(d, j)
    ensures r.customValidationQueries == d.customValidationQueries
  {
    match k
    case RowCount => d.(enableRowCount := on)
    case DataType => d.(enableDataType := on)
    case NullCheck => d.(enableNullCheck := on)
    case PrimaryKey => d.(enablePrimaryKey := on)
    case ForeignKey => d.(enableForeignKey := on)
    case DuplicateCheck => d.(enableDuplicateCheck := on)
    case StopOnFirstError => d.(stopOnFirstError := on)
    case IncludeStatistics => d.(includeStatistics := on)
  }

  /** Flipping a switch and flipping it back restores the record. */
  lemma SwitchBackRestores(d: ValidationDefaults, k: DefaultSwitch)
    ensures WithSwitch(WithSwitch(d, k, !SwitchValue(d, k)), k, SwitchValue(d, k)) == d
  {
    match k
    case RowCount =>
    case DataType =>
    case NullCheck =>
    case PrimaryKey =>
    case ForeignKey =>
    case DuplicateCheck =>
    case StopOnFirstError =>
    case IncludeStatistics =>
  }

  // ---------------------------------------------------------------------
  // The page
  // ---------------------------------------------------------------------

  class SettingsPage {
    var hasUnsavedChanges: bool
    var general: GeneralSettings
    var dbConnections: seq<DatabaseConnection>
    var notifications: seq<NotificationSetting>
    var validationDefaults: ValidationDefaults

    /** The two number boxes never hold 0: they start at 30 and 0 reads as 30. */
    ghost predicate Valid()
      reads this
    {
      general.timeoutMinutes != 0 && general.retentionDays != 0
    }

    constructor ()
      ensures Valid() && !hasUnsavedChanges
      ensures general == InitialGeneral() && dbConnections == InitialConnections()
      ensures notifications == InitialNotifications() && validationDefaults == InitialDefaults()
    {
      hasUnsavedChanges := false;
      general := InitialGeneral();
      dbConnections := InitialConnections();
      notifications := InitialNotifications();
      validationDefaults := InitialDefaults();
    }

    /** `deleteConnection`, run from the confirmation dialog's Delete button. */
    method DeleteConnection(id: string)
      requires Valid()
      modifies this`dbConnections, this`hasUnsavedChanges
      ensures Valid()
      ensures dbConnections == WithoutConnection(old(dbConnections), id) && hasUnsavedChanges
    {
      dbConnections := WithoutConnection(dbConnections, id);
      hasUnsavedChanges := true;
    }

    /** `toggleNotification`, run by a notification's switch. */
    method ToggleNotification(id: string)
      requires Valid()
      modifies this`notifications, this`hasUnsavedChanges
      ensures Valid()
      ensures notifications == ToggledNotifications(old(notifications), id) && hasUnsavedChanges
    {
      notifications := ToggledNotifications(notifications, id);
      hasUnsavedChanges := true;
    }

    /** `handleSaveSettings`: only the flag is cleared; nothing is sent anywhere. */
    method SaveSettings()
      modifies this`hasUnsavedChanges
      ensures !hasUnsavedChanges
    {
      hasUnsavedChanges := false;
    }

    /** `handleResetSettings`: clears the flag and leaves every setting as it is. */
    method ResetSettings()
      modifies this`hasUnsavedChanges
      ensures !hasUnsavedChanges
    {
      hasUnsavedChanges := false;
    }

    /** Any input of the General tab. */
    method EditGeneral(e: GeneralEdit)
      requires Valid()
      modifies this`general, this`hasUnsavedChanges
      ensures Valid()
      ensures general == ApplyGeneral(old(general), e) && hasUnsavedChanges
    {
      general := ApplyGeneral(general, e);
      hasUnsavedChanges := true;
    }

    /** Any switch of the Validation tab. */
    method SetDefaultSwitch(k: DefaultSwitch, on: bool)
      requires Valid()
      modifies this`validationDefaults, this`hasUnsavedChanges
      ensures Valid()
      ensures validationDefaults == WithSwitch(old(validationDefaults), k, on) && hasUnsavedChanges
    {
      validationDefaults := WithSwitch(validationDefaults, k, on);
      hasUnsavedChanges := true;
    }

    /** The custom-queries text area. */
    method SetCustomQueries(text: string)
      requires Valid()
      modifies this`validationDefaults, this`hasUnsavedChanges
      ensures Valid()
      ensures validationDefaults == old(validationDefaults).(customValidationQueries := text) && hasUnsavedChanges
      ensures forall k :: SwitchValue(validationDefaults, k) == SwitchValue(old(validationDefaults), k)
    {
      validationDefaults := validationDefaults.(customValidationQueries := text);
      hasUnsavedChanges := true;
    }
  }
}
