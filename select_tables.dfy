/**
 * The table-and-field selection page: a fixed catalogue of tables, a list
 * of selected table names and a record from table name to the selected
 * field names, with the handlers that check and uncheck tables and fields,
 * select everything, clear everything, count the selected fields, mark a
 * field by its key role, and filter the catalogue by a search term.
 *
 * A JavaScript object used as a dictionary becomes a Dafny map; its key
 * order plays no part in anything the page computes from it.
 */
module SelectTables {
  import opened Js

  datatype FieldInfo = FieldInfo(
    name: string,
    fieldType: string,
    nullable: bool,
    isPrimaryKey: bool,
    isForeignKey: bool,
    mappedTo: Option<string>)

  datatype TableInfo = TableInfo(
    name: string,
    schema: string,
    rowCount: nat,
    fields: seq<FieldInfo>)

  function Field(name: string, fieldType: string, nullable: bool, pk: bool, fk: bool, mappedTo: string): FieldInfo
  {
    FieldInfo(name, fieldType, nullable, pk, fk, Some(mappedTo))
  }

  /** The sample catalogue the page lists. */
  function Catalogue(): (r: seq<TableInfo>)
    ensures |r| == 4 && DistinctNames(r)
  {
    [ TableInfo("customers", "public", 10000, [
        Field("customer_id", "INTEGER", false, true, false, "cust_id"),
        Field("customer_name", "VARCHAR(255)", false, false, false, "cust_name"),
        Field("email_address", "VARCHAR(255)", true, false, false, "email"),
        Field("created_date", "TIMESTAMP", false, false, false, "date_created"),
        Field("status", "VARCHAR(50)", false, false, false, "customer_status")]),
      TableInfo("orders", "public", 45678, [
        Field("order_id", "INTEGER", false, true, false, "order_number"),
        Field("customer_id", "INTEGER", false, false, true, "cust_id"),
        Field("order_date", "TIMESTAMP", false, false, false, "purchase_date"),
        Field("order_total", "DECIMAL(10,2)", false, false, false, "total_amount"),
        Field("order_status", "VARCHAR(50)", false, false, false, "status")]),
      TableInfo("products", "public", 1250, [
        Field("product_id", "INTEGER", false, true, false, "sku"),
        Field("product_name", "VARCHAR(255)", false, false, false, "title"),
        Field("price", "DECIMAL(10,2)", false, false, false, "unit_price"),
        Field("category_id", "INTEGER", true, false, true, "cat_id")]),
      TableInfo("categories", "public", 45, [
        Field("category_id", "INTEGER", false, true, false, "cat_id"),
        Field("category_name", "VARCHAR(100)", false, false, false, "name"),
        Field("description", "TEXT", true, false, false, "desc")]) ]
  }

  predicate DistinctNames(tables: seq<TableInfo>)
  {
    forall i, j :: 0 <= i < j < |tables| ==> tables[i].name != tables[j].name
  }

  /** `table.fields.map((f) => f.name)`. */
  function FieldNames(fields: seq<FieldInfo>): (r: seq<string>)
    ensures |r| == |fields| && forall i :: 0 <= i < |fields| ==> r[i] == fields[i].name
  {
    Map(fields, (f: FieldInfo) => f.name)
  }

  /** `tables.map((t) => t.name)`. */
  function TableNames(tables: seq<TableInfo>): (r: seq<string>)
    ensures |r| == |tables| && forall i :: 0 <= i < |tables| ==> r[i] == tables[i].name
  {
    Map(tables, (t: TableInfo) => t.name)
  }

  /** `tables.find((t) => t.name === name)`: the first table of that name. */
  function FindTable(tables: seq<TableInfo>, name: string): (r: Option<TableInfo>)
    ensures r.None? <==> forall i :: 0 <= i < |tables| ==> tables[i].name != name
    ensures r.Some? ==> exists i :: 0 <= i < |tables| && tables[i] == r.value && r.value.name == name
                          && forall j :: 0 <= j < i ==> tables[j].name != name
  {
    if tables == [] then None
    else if tables[0].name == name then Some(tables[0])
    else
      var r := FindTable(tables[1..], name);
      assert r.Some? ==> exists i :: 0 <= i < |tables[1..]| && tables[1..][i] == r.value
                          && forall j :: 0 <= j < i ==> tables[1..][j].name != name;
      r
  }

  // ---------------------------------------------------------------------
  // Search
  // ---------------------------------------------------------------------

  predicate MatchesSearch(t: TableInfo, term: string)
  {
    Contains(ToLower(t.name), ToLower(term))
  }

  /** `filteredTables`: the tables whose lower-cased name contains the lower-cased term. */
  function FilteredTables(tables: seq<TableInfo>, term: string): (r: seq<TableInfo>)
    ensures forall t :: t in r <==> t in tables && MatchesSearch(t, term)
    ensures IsSubsequence(r, tables)
    ensures forall t :: multiset(r)[t] == if MatchesSearch(t, term) then multiset(tables)[t] else 0
  {
    FilterIsSubsequence(tables, t => MatchesSearch(t, term));
    FilterMultiplicity(tables, t => MatchesSearch(t, term));
    Filter(tables, t => MatchesSearch(t, term))
  }

  /** An empty search keeps the whole catalogue, in order. */
  lemma EmptySearchKeepsAll(tables: seq<TableInfo>)
    ensures FilteredTables(tables, "") == tables
  {
    forall i | 0 <= i < |tables|
      ensures MatchesSearch(tables[i], "")
    {
      ContainsEmpty(ToLower(tables[i].name));
    }
    FilterKeepsAll(tables, t => MatchesSearch(t, ""));
  }

  /** The search ignores the case of the term. */
  lemma SearchIgnoresTermCase(tables: seq<TableInfo>, term: string)
    ensures FilteredTables(tables, ToLower(term)) == FilteredTables(tables, term)
  {
    ToLowerIdempotent(term);
    FilterCongruent(tables, t => MatchesSearch(t, ToLower(term)), t => MatchesSearch(t, term));
  }

  // ---------------------------------------------------------------------
  // Field markers
  // ---------------------------------------------------------------------

  /** The markers `getFieldIcon` shows: key, link, lightning, nothing. */
  datatype FieldMarker = KeyMarker | LinkMarker | RequiredMarker | NoMarker

  /** Primary key wins over foreign key, which wins over NOT NULL. */
  function FieldIcon(f: FieldInfo): (r: FieldMarker)
    ensures r == KeyMarker <==> f.isPrimaryKey
    ensures r == LinkMarker <==> !f.isPrimaryKey && f.isForeignKey
    ensures r == RequiredMarker <==> !f.isPrimaryKey && !f.isForeignKey && !f.nullable
    ensures r == NoMarker <==> !f.isPrimaryKey && !f.isForeignKey && f.nullable
  {
    if f.isPrimaryKey then KeyMarker
    else if f.isForeignKey then LinkMarker
    else if !f.nullable then RequiredMarker
    else NoMarker
  }

  // ---------------------------------------------------------------------
  // Selected-field bookkeeping
  // ---------------------------------------------------------------------

  /** Sum of the lengths of all field lists in the record, in whatever key order. */
  ghost function FieldCount(m: map<string, seq<string>>): nat
    decreases |m|
  {
    if m == map[] then 0
    else
      var k :| k in m;
      |m[k]| + FieldCount(m - {k})
  }

  /** Any key may be taken out first: the sum does not depend on the order of the keys. */
  lemma {:induction false} FieldCountRemove(m: map<string, seq<string>>, k: string)
    requires k in m
    ensures FieldCount(m) == |m[k]| + FieldCount(m - {k})
    decreases |m|
  {
    var k' :| k' in m && FieldCount(m) == |m[k']| + FieldCount(m - {k'});
    if k' != k {
      FieldCountRemove(m - {k'}, k);
      FieldCountRemove(m - {k}, k');
      assert m - {k'} - {k} == m - {k} - {k'};
    }
  }

  /** Writing a key replaces its contribution to the sum. */
  lemma FieldCountUpdate(m: map<string, seq<string>>, k: string, v: seq<string>)
    ensures FieldCount(m[k := v]) == FieldCount(m - {k}) + |v|
  {
    FieldCountRemove(m[k := v], k);
    assert m[k := v] - {k} == m - {k};
  }

  /** `getTotalSelectedFields`: the reduce over `Object.values(selectedFields)`. */
  method TotalSelectedFields(selected: map<string, seq<string>>) returns (total: nat)
    ensures total == FieldCount(selected)
  {
    total := 0;
    var rest := selected;
    while rest != map[]
      invariant total + FieldCount(rest) == FieldCount(selected)
      decreases |rest|
    {
      var k :| k in rest;
      FieldCountRemove(rest, k);
      total := total + |rest[k]|;
      rest := rest - {k};
    }
  }

  /** The record `selectAllTables` builds: each table's name to all its field names. */
  function AllFields(tables: seq<TableInfo>): (m: map<string, seq<string>>)
    ensures m.Keys == set t | t in tables :: t.name
  {
    if tables == [] then map[]
    else
      var last := tables[|tables| - 1];
      var rest := tables[..|tables| - 1];
      assert forall t :: t in tables <==> t in rest || t == last;
      AllFields(rest)[last.name := FieldNames(last.fields)]
  }

  /** With distinct names every table is mapped to exactly its own fields. */
  lemma {:induction false} AllFieldsLookup(tables: seq<TableInfo>, i: nat)
    requires DistinctNames(tables) && i < |tables|
    ensures AllFields(tables)[tables[i].name] == FieldNames(tables[i].fields)
  {
    if i < |tables| - 1 {
      var rest := tables[..|tables| - 1];
      assert rest[i] == tables[i];
      AllFieldsLookup(rest, i);
    }
  }

  /** The `forEach` of `selectAllTables` that fills a fresh record table by table. */
  method BuildAllFields(tables: seq<TableInfo>) returns (m: map<string, seq<string>>)
    ensures m == AllFields(tables)
  {
    m := map[];
    var i := 0;
    while i < |tables|
      invariant 0 <= i <= |tables|
      invariant m == AllFields(tables[..i])
    {
      assert tables[..i + 1][..i] == tables[..i];
      m := m[tables[i].name := FieldNames(tables[i].fields)];
      i := i + 1;
    }
    assert tables[..i] == tables;
  }

  /** The selection state of the page. */
  class TableSelection {
    var searchTerm: string
    var selectedTables: seq<string>
    var selectedFields: map<string, seq<string>>

    constructor ()
      ensures searchTerm == "" && selectedTables == [] && selectedFields == map[]
    {
      searchTerm := "";
      selectedTables := [];
      selectedFields := map[];
    }

    /** The search box's onChange. */
    method SetSearchTerm(term: string)
      modifies this`searchTerm
      ensures searchTerm == term
    {
      searchTerm := term;
    }

    /**
     * `handleTableSelect`: checking appends the name and, for a catalogue
     * table, maps it to all its field names; unchecking drops every
     * occurrence of the name and its entry in the record.
     */
    method HandleTableSelect(tableName: string, checked: bool)
      modifies this`selectedTables, this`selectedFields
      ensures checked ==> selectedTables == old(selectedTables) + [tableName]
      ensures checked ==> (selectedFields ==
        match FindTable(Catalogue(), tableName)
        case Some(t) => old(selectedFields)[tableName := FieldNames(t.fields)]
        case None => old(selectedFields))
      ensures !checked ==> selectedTables == Filter(old(selectedTables), (n: string) => n != tableName)
      ensures !checked ==> selectedFields == old(selectedFields) - {tableName}
      ensures forall k :: k != tableName ==>
        (k in selectedFields <==> k in old(selectedFields)) &&
        (k in selectedFields ==> selectedFields[k] == old(selectedFields)[k])
    {
      if checked {
        selectedTables := selectedTables + [tableName];
        var table := FindTable(Catalogue(), tableName);
        if table.Some? {
          selectedFields := selectedFields[tableName := FieldNames(table.value.fields)];
        }
      } else {
        selectedTables := Filter(selectedTables, (n: string) => n != tableName);
        selectedFields := selectedFields - {tableName};
      }
    }

    /**
     * `handleFieldSelect`: the table's list (empty when missing) gets the
     * field appended, or loses every occurrence of it; other tables stay.
     */
    method HandleFieldSelect(tableName: string, fieldName: string, checked: bool)
      modifies this`selectedFields
      ensures selectedFields == old(selectedFields)[tableName := FieldListAfter(old(selectedFields), tableName, fieldName, checked)]
    {
      var tableFields := if tableName in selectedFields then selectedFields[tableName] else [];
      if checked {
        selectedFields := selectedFields[tableName := tableFields + [fieldName]];
      } else {
        selectedFields := selectedFields[tableName := Filter(tableFields, (f: string) => f != fieldName)];
      }
    }

    /** `selectAllTables`: every catalogue table, each with all of its fields. */
    method SelectAllTables()
      modifies this`selectedTables, this`selectedFields
      ensures selectedTables == TableNames(Catalogue())
      ensures selectedFields == AllFields(Catalogue())
    {
      selectedTables := TableNames(Catalogue());
      var allFields := BuildAllFields(Catalogue());
      selectedFields := allFields;
    }

    /** `clearAllTables`. */
    method ClearAllTables()
      modifies this`selectedTables, this`selectedFields
      ensures selectedTables == [] && selectedFields == map[]
      ensures FieldCount(selectedFields) == 0
    {
      selectedTables := [];
      selectedFields := map[];
    }
  }

  /** The list a field checkbox leaves for its table. */
  function FieldListAfter(selected: map<string, seq<string>>, tableName: string, fieldName: string, checked: bool): (r: seq<string>)
    ensures var before := if tableName in selected then selected[tableName] else [];
      && (checked ==> r == before + [fieldName])
      && (!checked ==> fieldName !in r && IsSubsequence(r, before)
                       && forall f :: f != fieldName ==> (f in r <==> f in before))
      && (!checked ==> multiset(r) == multiset(before)[fieldName := 0])
  {
    var before := if tableName in selected then selected[tableName] else [];
    FilterIsSubsequence(before, (f: string) => f != fieldName);
    FilterMultiplicity(before, (f: string) => f != fieldName);
    if checked then before + [fieldName] else Filter(before, (f: string) => f != fieldName)
  }

  /** After selecting everything, each catalogue table is mapped to exactly its own fields. */
  lemma SelectAllMapsEveryTable(i: nat)
    requires i < |Catalogue()|
    ensures Catalogue()[i].name in AllFields(Catalogue())
    ensures AllFields(Catalogue())[Catalogue()[i].name] == FieldNames(Catalogue()[i].fields)
  {
    AllFieldsLookup(Catalogue(), i);
  }

  /** Checking a catalogue table adds its field count to the total, after dropping any old entry. */
  lemma CheckTableCount(selected: map<string, seq<string>>, t: TableInfo)
    ensures FieldCount(selected[t.name := FieldNames(t.fields)]) == FieldCount(selected - {t.name}) + |t.fields|
  {
    FieldCountUpdate(selected, t.name, FieldNames(t.fields));
  }

  /** Unchecking a table subtracts exactly its list's length from the total. */
  lemma UncheckTableCount(selected: map<string, seq<string>>, name: string)
    requires name in selected
    ensures FieldCount(selected - {name}) == FieldCount(selected) - |selected[name]|
  {
    FieldCountRemove(selected, name);
  }

  /** "Continue to Validations" is disabled while no table is selected. */
  predicate ContinueDisabled(selectedTables: seq<string>)
    ensures ContinueDisabled(selectedTables) <==> forall t :: t !in selectedTables
  {
    assert |selectedTables| > 0 ==> selectedTables[0] in selectedTables;
    |selectedTables| == 0
  }

  /** Checking a table, or selecting all of them, enables Continue. */
  lemma SelectionEnablesContinue(selectedTables: seq<string>, tableName: string)
    ensures !ContinueDisabled(selectedTables + [tableName])
    ensures !ContinueDisabled(TableNames(Catalogue()))
  {
  }

  /** Unchecking the only selected table disables Continue again. */
  lemma UncheckOnlyTableDisablesContinue(tableName: string)
    ensures ContinueDisabled(Filter([tableName], (n: string) => n != tableName))
  {
    FilterKeepsNone([tableName], (n: string) => n != tableName);
  }
}
