/** The lakehouse data-catalog extractor
    (archive/fabric-infrastructure/extract_data_catalog.py): finding Delta
    tables from their `_delta_log` directories, accumulating the files of a
    Delta log, and the markdown cells and anchors of the report. Listing
    paths and downloading files are replaced by their results. */
module DataCatalog {
  import opened Wrappers
  import opened Text
  import opened Grouping

  const DeltaLog := "_delta_log"

  // ---------------------------------------------------------------------------
  // discover_tables: parsing one path

  /** What one `_delta_log` directory path yields. `NoComponent` is the
      ValueError `parts.index` raises when the name contains "_delta_log"
      only inside a longer component. */
  datatype PathOutcome =
    | Found(schema: string, table: string, path: string)
    | TooShallow
    | NoComponent

  function ParseDeltaPath(name: string): PathOutcome {
    ParseParts(Split(name, '/'))
  }

  function ParseParts(parts: seq<string>): PathOutcome {
    match IndexOf(parts, DeltaLog)
    case None => NoComponent
    case Some(i) =>
      if i >= 2 then Found(if i >= 3 then parts[i - 2] else "default", parts[i - 1], Join(parts[..i], '/'))
      else TooShallow
  }

  /** The table is the component just before the first "_delta_log"
      component, its path the join of the components before that one, and
      the schema the component before the table, or "default" when the
      table sits at depth one. */
  lemma ParseDeltaPathMeaning(name: string)
    ensures var parts := Split(name, '/');
      (ParseDeltaPath(name) == NoComponent <==> DeltaLog !in parts)
      && (ParseDeltaPath(name).Found? ==>
            exists i :: 2 <= i < |parts| && parts[i] == DeltaLog && DeltaLog !in parts[..i]
              && ParseDeltaPath(name) == Found(if i >= 3 then parts[i - 2] else "default", parts[i - 1], Join(parts[..i], '/')))
      && (ParseDeltaPath(name) == TooShallow <==> parts[0] == DeltaLog || (|parts| > 1 && parts[1] == DeltaLog))
  {
    var parts := Split(name, '/');
    match IndexOf(parts, DeltaLog)
    case None =>
    case Some(i) =>
      if i >= 2 {
        assert parts[..i][0] == parts[0] && parts[..i][1] == parts[1];
      }
  }

  /** Building a path from components and parsing it gives the components back. */
  lemma ParseJoinedPath(prefix: seq<string>, rest: seq<string>)
    requires |prefix| >= 2
    requires forall k :: 0 <= k < |prefix| ==> '/' !in prefix[k] && prefix[k] != DeltaLog
    requires forall k :: 0 <= k < |rest| ==> '/' !in rest[k]
    ensures var n := |prefix|;
      ParseDeltaPath(Join(prefix + [DeltaLog] + rest, '/'))
        == Found(if n >= 3 then prefix[n - 2] else "default", prefix[n - 1], Join(prefix, '/'))
  {
    var parts := prefix + [DeltaLog] + rest;
    var n := |prefix|;
    NoSlashIn(prefix, rest);
    SplitJoin(parts, '/');
    assert DeltaLog !in prefix;
    ParsePartsAt(prefix, rest);
  }

  lemma NoSlashIn(prefix: seq<string>, rest: seq<string>)
    requires forall k :: 0 <= k < |prefix| ==> '/' !in prefix[k]
    requires forall k :: 0 <= k < |rest| ==> '/' !in rest[k]
    ensures forall k :: 0 <= k < |prefix + [DeltaLog] + rest| ==> '/' !in (prefix + [DeltaLog] + rest)[k]
  {
    var parts := prefix + [DeltaLog] + rest;
    forall k | 0 <= k < |parts| ensures '/' !in parts[k] {
      if k < |prefix| {
        assert parts[k] == prefix[k];
      } else if k > |prefix| {
        assert parts[k] == rest[k - |prefix| - 1];
      }
    }
  }

  lemma ParsePartsAt(prefix: seq<string>, rest: seq<string>)
    requires |prefix| >= 2 && DeltaLog !in prefix
    ensures var n := |prefix|;
      ParseParts(prefix + [DeltaLog] + rest)
        == Found(if n >= 3 then prefix[n - 2] else "default", prefix[n - 1], Join(prefix, '/'))
  {
    ParsedSchema(prefix, rest);
    ParsedTable(prefix, rest);
    ParsedPath(prefix, rest);
  }

  lemma ParsedSchema(prefix: seq<string>, rest: seq<string>)
    requires |prefix| >= 2 && DeltaLog !in prefix
    ensures ParseParts(prefix + [DeltaLog] + rest).Found?
    ensures ParseParts(prefix + [DeltaLog] + rest).schema == if |prefix| >= 3 then prefix[|prefix| - 2] else "default"
  {
    IndexAfterPrefix(prefix, DeltaLog, rest);
  }

  lemma ParsedTable(prefix: seq<string>, rest: seq<string>)
    requires |prefix| >= 2 && DeltaLog !in prefix
    ensures ParseParts(prefix + [DeltaLog] + rest).Found?
    ensures ParseParts(prefix + [DeltaLog] + rest).table == prefix[|prefix| - 1]
  {
    IndexAfterPrefix(prefix, DeltaLog, rest);
  }

  lemma ParsedPath(prefix: seq<string>, rest: seq<string>)
    requires |prefix| >= 2 && DeltaLog !in prefix
    ensures ParseParts(prefix + [DeltaLog] + rest).Found?
    ensures ParseParts(prefix + [DeltaLog] + rest).path == Join(prefix, '/')
  {
    IndexAfterPrefix(prefix, DeltaLog, rest);
    assert (prefix + [DeltaLog] + rest)[..|prefix|] == prefix;
  }

  /** The first x of prefix + [x] + rest is the one after the prefix when the prefix holds none. */
  lemma IndexAfterPrefix<T>(prefix: seq<T>, x: T, rest: seq<T>)
    requires x !in prefix
    ensures IndexOf(prefix + [x] + rest, x) == Some(|prefix|)
  {
    var s := prefix + [x] + rest;
    assert s[..|prefix|] == prefix;
    IndexOfAt(s, x, |prefix|);
  }

  lemma IndexOfAt<T>(s: seq<T>, x: T, n: nat)
    requires n < |s| && s[n] == x && x !in s[..n]
    ensures IndexOf(s, x) == Some(n)
  {
  }

  /** A name holding "_delta_log" only inside a longer component raises. */
  lemma SubstringRaises()
    ensures ParseDeltaPath("t/x_delta_log") == NoComponent
  {
    var parts := ["t", "x_delta_log"];
    assert Join(parts, '/') == "t/x_delta_log";
    SplitJoin(parts, '/');
    assert |parts[0]| != |DeltaLog| && |parts[1]| != |DeltaLog|;
  }

  // ---------------------------------------------------------------------------
  // discover_tables: the scan

  /** One entry of the recursive path listing. */
  datatype PathItem = PathItem(name: string, isDirectory: bool)

  /** One recorded table: `{'name': ..., 'path': ...}`. */
  datatype Entry = Entry(name: string, path: string)

  /** schema -> tables, in insertion order. */
  type Tables = Groups<seq<Entry>>

  /** The scan's state: the dict and the running count. */
  datatype Scan = Scan(tables: Tables, count: nat)

  /** A directory whose name contains "_delta_log". */
  predicate Qualifies(p: PathItem) {
    Contains(p.name, DeltaLog) && p.isDirectory
  }

  function Names(es: seq<Entry>): (r: seq<string>)
    ensures |r| == |es| && forall i :: 0 <= i < |es| ==> r[i] == es[i].name
  {
    seq(|es|, i requires 0 <= i < |es| => es[i].name)
  }

  /** The table is already listed under the schema. */
  predicate Known(tables: Tables, schema: string, table: string) {
    var g := Get(tables, schema);
    g.Some? && table in Names(g.value)
  }

  /** Appends an entry to the schema's list, creating the list first when the schema is new. */
  function Insert(tables: Tables, schema: string, e: Entry): Tables {
    match IndexOf(Keys(tables), schema)
    case None => tables + [(schema, [e])]
    case Some(i) => tables[i := (schema, tables[i].1 + [e])]
  }

  /** Records a parsed table unless its name is already listed under its schema. */
  function Record(st: Scan, schema: string, table: string, path: string): Scan {
    if Known(st.tables, schema, table) then st
    else Scan(Insert(st.tables, schema, Entry(table, path)), st.count + 1)
  }

  /** The loop from a given state: non-qualifying paths are skipped, a
      qualifying path without a "_delta_log" component raises (the error
      carries its name), and after every qualifying path the scan stops
      once the count has reached the limit. */
  function ScanFrom(paths: seq<PathItem>, st: Scan, maxTables: int): Result<Scan, string>
    decreases |paths|
  {
    if paths == [] then Ok(st)
    else if !Qualifies(paths[0]) then ScanFrom(paths[1..], st, maxTables)
    else
      match ParseDeltaPath(paths[0].name)
      case NoComponent => Err(paths[0].name)
      case TooShallow =>
        if st.count >= maxTables then Ok(st) else ScanFrom(paths[1..], st, maxTables)
      case Found(schema, table, path) =>
        var next := Record(st, schema, table, path);
        if next.count >= maxTables then Ok(next) else ScanFrom(paths[1..], next, maxTables)
  }

  function Discover(paths: seq<PathItem>, maxTables: int): Result<Tables, string> {
    match ScanFrom(paths, Scan([], 0), maxTables)
    case Ok(st) => Ok(st.tables)
    case Err(name) => Err(name)
  }

  method DiscoverTables(paths: seq<PathItem>, maxTables: int) returns (r: Result<Tables, string>)
    ensures r == Discover(paths, maxTables)
  {
    var tables: Tables := [];
    var count: nat := 0;
    var i := 0;
    while i < |paths|
      invariant 0 <= i <= |paths|
      invariant ScanFrom(paths, Scan([], 0), maxTables) == ScanFrom(paths[i..], Scan(tables, count), maxTables)
    {
      var p := paths[i];
      assert paths[i..][1..] == paths[i + 1..];
      if Contains(p.name, DeltaLog) && p.isDirectory {
        var parts := Split(p.name, '/');
        var deltaIdx := IndexOf(parts, DeltaLog);
        assert ParseDeltaPath(p.name) == ParseParts(parts);
        if deltaIdx.None? {
          return Err(p.name);
        }
        if deltaIdx.value >= 2 {
          var tableName := parts[deltaIdx.value - 1];
          var schemaName := if deltaIdx.value >= 3 then parts[deltaIdx.value - 2] else "default";
          var tablePath := Join(parts[..deltaIdx.value], '/');
          assert ParseParts(parts) == Found(schemaName, tableName, tablePath);
          ghost var next := Record(Scan(tables, count), schemaName, tableName, tablePath);
          if !Known(tables, schemaName, tableName) {
            tables := Insert(tables, schemaName, Entry(tableName, tablePath));
            count := count + 1;
          }
          assert Scan(tables, count) == next;
        } else {
          assert ParseParts(parts) == TooShallow;
        }
        if count >= maxTables {
          return Ok(tables);
        }
      }
      i := i + 1;
    }
    return Ok(tables);
  }

  // ---------------------------------------------------------------------------
  // discover_tables: what the scan keeps

  /** The number of recorded entries over all schemas. */
  function Total(tables: Tables): nat {
    if tables == [] then 0 else Total(tables[..|tables| - 1]) + |tables[|tables| - 1].1|
  }

  lemma {:induction false} TotalUpdate(tables: Tables, i: nat, v: (string, seq<Entry>))
    requires i < |tables|
    ensures Total(tables[i := v]) == Total(tables) - |tables[i].1| + |v.1|
    decreases |tables|
  {
    var n := |tables| - 1;
    if i < n {
      assert tables[i := v][..n] == tables[..n][i := v];
      TotalUpdate(tables[..n], i, v);
    } else {
      assert tables[i := v][..n] == tables[..n];
    }
  }

  predicate NoDuplicates(s: seq<string>) {
    forall i, j :: 0 <= i < j < |s| ==> s[i] != s[j]
  }

  /** Each schema once, each holding at least one table and each table name
      once within its schema, and the count the number of entries. */
  predicate WellFormed(st: Scan) {
    DistinctKeys(st.tables) && ListsWellFormed(st.tables) && st.count == Total(st.tables)
  }

  /** Every schema holds at least one table, each table name once. */
  predicate ListsWellFormed(tables: Tables) {
    forall i :: 0 <= i < |tables| ==> tables[i].1 != [] && NoDuplicates(Names(tables[i].1))
  }

  lemma RecordWellFormed(st: Scan, schema: string, table: string, path: string)
    requires WellFormed(st)
    ensures WellFormed(Record(st, schema, table, path))
  {
    RecordWellFormedKeys(st, schema, table, path);
    RecordLists(st, schema, table, path);
    RecordCount(st, schema, table, path);
  }

  lemma RecordLists(st: Scan, schema: string, table: string, path: string)
    requires DistinctKeys(st.tables) && ListsWellFormed(st.tables)
    ensures ListsWellFormed(Record(st, schema, table, path).tables)
  {
    if !Known(st.tables, schema, table) {
      var t := st.tables;
      match IndexOf(Keys(t), schema)
      case None =>
      case Some(i) =>
        GetAt(t, i);
        assert table !in Names(t[i].1);
        assert Names(t[i].1 + [Entry(table, path)]) == Names(t[i].1) + [table];
    }
  }

  lemma RecordCount(st: Scan, schema: string, table: string, path: string)
    requires st.count == Total(st.tables)
    ensures Record(st, schema, table, path).count == Total(Record(st, schema, table, path).tables)
  {
    if !Known(st.tables, schema, table) {
      var t := st.tables;
      var u := Insert(t, schema, Entry(table, path));
      match IndexOf(Keys(t), schema)
      case None =>
        assert u[..|t|] == t;
      case Some(i) =>
        TotalUpdate(t, i, (schema, t[i].1 + [Entry(table, path)]));
    }
  }

  /** After recording, exactly the previously known pairs and the new one are known. */
  lemma RecordKnown(st: Scan, schema: string, table: string, path: string, s2: string, t2: string)
    requires DistinctKeys(st.tables)
    ensures Known(Record(st, schema, table, path).tables, s2, t2)
      <==> Known(st.tables, s2, t2) || (s2 == schema && t2 == table)
  {
    if !Known(st.tables, schema, table) {
      var t := st.tables;
      var e := Entry(table, path);
      var f := (es: seq<Entry>) => es + [e];
      var u := Insert(t, schema, e);
      InsertIsUpsert(t, schema, e);
      UpsertGet(t, schema, [], f, s2);
      if s2 == schema {
        assert Names(Get(t, schema).GetOr([]) + [e]) == Names(Get(t, schema).GetOr([])) + [table];
      }
    }
  }

  lemma {:induction false} ScanWellFormed(paths: seq<PathItem>, st: Scan, maxTables: int)
    requires WellFormed(st)
    ensures ScanFrom(paths, st, maxTables).Ok? ==> WellFormed(ScanFrom(paths, st, maxTables).value)
    decreases |paths|
  {
    if paths != [] && Qualifies(paths[0]) {
      match ParseDeltaPath(paths[0].name)
      case NoComponent =>
      case TooShallow =>
        ScanWellFormed(paths[1..], st, maxTables);
      case Found(schema, table, path) =>
        RecordWellFormed(st, schema, table, path);
        ScanWellFormed(paths[1..], Record(st, schema, table, path), maxTables);
    } else if paths != [] {
      ScanWellFormed(paths[1..], st, maxTables);
    }
  }

  /** Each qualifying path adds at most one table and the limit is checked
      after each, so the count passes the limit by no more than one step
      into the scan. */
  lemma {:induction false} ScanBound(paths: seq<PathItem>, st: Scan, maxTables: int)
    ensures ScanFrom(paths, st, maxTables).Ok? ==>
      ScanFrom(paths, st, maxTables).value.count <= if st.count < maxTables then maxTables else st.count + 1
    decreases |paths|
  {
    if paths != [] && Qualifies(paths[0]) {
      match ParseDeltaPath(paths[0].name)
      case NoComponent =>
      case TooShallow =>
        ScanBound(paths[1..], st, maxTables);
      case Found(schema, table, path) =>
        ScanBound(paths[1..], Record(st, schema, table, path), maxTables);
    } else if paths != [] {
      ScanBound(paths[1..], st, maxTables);
    }
  }

  /** The (schema, table) pairs of the qualifying paths that parse, in order. */
  function FoundIn(paths: seq<PathItem>): seq<(string, string)> {
    if paths == [] then []
    else
      var rest := FoundIn(paths[1..]);
      if Qualifies(paths[0]) && ParseDeltaPath(paths[0].name).Found? then
        [(ParseDeltaPath(paths[0].name).schema, ParseDeltaPath(paths[0].name).table)] + rest
      else rest
  }

  /** Known pairs are kept, every pair the scan knows was known before or
      comes from a path, and a scan that ends below the limit (so never
      stopped early) knows every pair its paths yield. */
  lemma {:induction false} ScanKnown(paths: seq<PathItem>, st: Scan, maxTables: int, schema: string, table: string)
    requires DistinctKeys(st.tables) && ScanFrom(paths, st, maxTables).Ok?
    ensures var r := ScanFrom(paths, st, maxTables).value;
      (Known(st.tables, schema, table) ==> Known(r.tables, schema, table))
      && (Known(r.tables, schema, table) ==> Known(st.tables, schema, table) || (schema, table) in FoundIn(paths))
      && (r.count < maxTables && (schema, table) in FoundIn(paths) ==> Known(r.tables, schema, table))
    decreases |paths|
  {
    if paths != [] && Qualifies(paths[0]) {
      match ParseDeltaPath(paths[0].name)
      case NoComponent =>
      case TooShallow =>
        if st.count < maxTables {
          ScanKnown(paths[1..], st, maxTables, schema, table);
        }
      case Found(s2, t2, path) =>
        var next := Record(st, s2, t2, path);
        RecordKnown(st, s2, t2, path, schema, table);
        if next.count < maxTables {
          RecordWellFormedKeys(st, s2, t2, path);
          ScanKnown(paths[1..], next, maxTables, schema, table);
        }
    } else if paths != [] {
      ScanKnown(paths[1..], st, maxTables, schema, table);
    }
  }

  /** Insert is the defaultdict update that appends the entry. */
  lemma InsertIsUpsert(tables: Tables, schema: string, e: Entry)
    ensures Insert(tables, schema, e) == Upsert(tables, schema, [], (es: seq<Entry>) => es + [e])
  {
    var f := (es: seq<Entry>) => es + [e];
    match IndexOf(Keys(tables), schema)
    case None =>
      assert f([]) == [e];
    case Some(i) =>
      assert f(tables[i].1) == tables[i].1 + [e];
  }

  lemma RecordWellFormedKeys(st: Scan, schema: string, table: string, path: string)
    requires DistinctKeys(st.tables)
    ensures DistinctKeys(Record(st, schema, table, path).tables)
  {
    if !Known(st.tables, schema, table) {
      var e := Entry(table, path);
      var f := (es: seq<Entry>) => es + [e];
      InsertIsUpsert(st.tables, schema, e);
      UpsertGet(st.tables, schema, [], f, schema);
    }
  }

  /** The scan raises exactly on a qualifying path reached before the stop
      that has no "_delta_log" component; a listing without such paths never raises. */
  lemma {:induction false} ScanRaises(paths: seq<PathItem>, st: Scan, maxTables: int)
    ensures ScanFrom(paths, st, maxTables).Err? ==>
      exists k :: 0 <= k < |paths| && paths[k].name == ScanFrom(paths, st, maxTables).error
        && Qualifies(paths[k]) && ParseDeltaPath(paths[k].name) == NoComponent
    ensures (forall k :: 0 <= k < |paths| && Qualifies(paths[k]) ==> ParseDeltaPath(paths[k].name) != NoComponent)
      ==> ScanFrom(paths, st, maxTables).Ok?
    decreases |paths|
  {
    if paths != [] {
      var next := if Qualifies(paths[0]) && ParseDeltaPath(paths[0].name).Found? then
        Record(st, ParseDeltaPath(paths[0].name).schema, ParseDeltaPath(paths[0].name).table, ParseDeltaPath(paths[0].name).path)
        else st;
      ScanRaises(paths[1..], next, maxTables);
      if ScanFrom(paths[1..], next, maxTables).Err? && ScanFrom(paths, st, maxTables) == ScanFrom(paths[1..], next, maxTables) {
        var k :| 0 <= k < |paths[1..]| && paths[1..][k].name == ScanFrom(paths[1..], next, maxTables).error
          && Qualifies(paths[1..][k]) && ParseDeltaPath(paths[1..][k].name) == NoComponent;
        assert paths[k + 1] == paths[1..][k];
      }
    }
  }

  /** What discover_tables returns: each schema once with a non-empty list
      of distinct table names, at most max_tables tables (one when the
      limit is not positive), every listed pair parsed from a qualifying
      path, and, when the limit was not reached, every such pair listed. */
  lemma DiscoverMeaning(paths: seq<PathItem>, maxTables: int, schema: string, table: string)
    requires Discover(paths, maxTables).Ok?
    ensures var tables := Discover(paths, maxTables).value;
      WellFormed(Scan(tables, Total(tables)))
      && Total(tables) <= (if 0 < maxTables then maxTables else 1)
      && (Known(tables, schema, table) ==> (schema, table) in FoundIn(paths))
      && (Total(tables) < maxTables && (schema, table) in FoundIn(paths) ==> Known(tables, schema, table))
  {
    var init := Scan([], 0);
    ScanWellFormed(paths, init, maxTables);
    ScanBound(paths, init, maxTables);
    ScanKnown(paths, init, maxTables, schema, table);
  }

  // ---------------------------------------------------------------------------
  // generate_markdown: anchors and the sample-data block

  /** The table-of-contents anchor of a table. */
  function Anchor(schema: string, table: string): string {
    Replace(Lower(schema + "-" + table), '_', '-')
  }

  /** The anchor is "{schema}-{table}" character for character, with
      underscores turned into hyphens and capitals lowered, so it holds
      neither. */
  lemma AnchorMeaning(schema: string, table: string)
    ensures var a, x := Anchor(schema, table), schema + "-" + table;
      |a| == |x| && a[|schema|] == '-'
      && (forall i :: 0 <= i < |a| ==> a[i] != '_' && !('A' <= a[i] <= 'Z'))
      && (forall i :: 0 <= i < |a| && x[i] == '_' ==> a[i] == '-')
      && (forall i :: 0 <= i < |a| && x[i] != '_' && !('A' <= x[i] <= 'Z') ==> a[i] == x[i])
  {
    var x := schema + "-" + table;
    assert x[|schema|] == '-';
  }

  /** Distinct tables can share an anchor. */
  lemma AnchorsCollide()
    ensures Anchor("a_b", "c") == Anchor("a", "b_c") == "a-b-c"
  {
    var x, y := "a_b" + "-" + "c", "a" + "-" + "b_c";
    assert Lower(x) == x && Lower(y) == y;
  }

  const CellWidth := 30
  const HeaderWidth := 20
  const ShownColumns := 10
  const ShownRows := 10

  function Escape(c: char): char {
    if c == '|' then '/' else if c == '\n' then ' ' else c
  }

  /** One sample cell: the text cut to 30 characters with '|' and newlines
      replaced, "NULL" when nothing is left. */
  function CellText(v: string): string {
    var t := Replace(Replace(Take(v, CellWidth), '|', '/'), '\n', ' ');
    if t != "" then t else "NULL"
  }

  /** A cell is 1 to 30 characters without '|' or newline; an empty value
      shows as "NULL" and any other as its escaped first 30 characters. */
  lemma CellTextMeaning(v: string)
    ensures var r := CellText(v);
      1 <= |r| <= CellWidth && '|' !in r && '\n' !in r
      && (v == "" ==> r == "NULL")
      && (v != "" ==> (|r| == (if |v| < CellWidth then |v| else CellWidth)
                       && forall i :: 0 <= i < |r| ==> r[i] == Escape(v[i])))
  {
  }

  /** `row.get(c, '')`, the row holding each value's `str()`. */
  function Lookup(row: map<string, string>, c: string): string {
    if c in row then row[c] else ""
  }

  /** A markdown table line: `"| " + " | ".join(vals) + " |"`. */
  function RowLine(vals: seq<string>): string {
    "| " + JoinWith(vals, " | ") + " |"
  }

  function Padded(vals: seq<string>): (r: seq<string>)
    ensures |r| == |vals| && forall i :: 0 <= i < |vals| ==> r[i] == " " + vals[i] + " "
  {
    seq(|vals|, i requires 0 <= i < |vals| => " " + vals[i] + " ")
  }

  lemma {:induction false} PaddedJoin(vals: seq<string>)
    requires vals != []
    ensures " " + JoinWith(vals, " | ") + " " == Join(Padded(vals), '|')
    decreases |vals|
  {
    if |vals| > 1 {
      PaddedJoin(vals[1..]);
      assert Padded(vals)[1..] == Padded(vals[1..]);
      JoinCons(Padded(vals)[0], Padded(vals)[1..], '|');
      assert [Padded(vals)[0]] + Padded(vals)[1..] == Padded(vals);
    }
  }

  lemma {:induction false} JoinSnoc(parts: seq<string>, d: char)
    requires parts != []
    ensures Join(parts + [""], d) == Join(parts, d) + [d]
    decreases |parts|
  {
    if |parts| > 1 {
      JoinSnoc(parts[1..], d);
      assert (parts + [""])[1..] == parts[1..] + [""];
    }
  }

  /** A row line is the '|'-join of the padded cells between two empty ends. */
  lemma RowLineJoin(vals: seq<string>)
    requires vals != []
    ensures RowLine(vals) == Join([""] + Padded(vals) + [""], '|')
  {
    var p := Padded(vals);
    PaddedJoin(vals);
    JoinSnoc(p, '|');
    JoinCons("", p + [""], '|');
    assert [""] + Padded(vals) + [""] == [""] + (p + [""]);
  }

  /** Cells without '|' can be read back from their line, one per column. */
  lemma RowLineCells(vals: seq<string>)
    requires vals != [] && forall i :: 0 <= i < |vals| ==> '|' !in vals[i]
    ensures Split(RowLine(vals), '|') == [""] + Padded(vals) + [""]
  {
    var parts := [""] + Padded(vals) + [""];
    RowLineJoin(vals);
    forall i | 0 <= i < |parts| ensures '|' !in parts[i] {
      if 0 < i <= |vals| {
        assert parts[i] == " " + vals[i - 1] + " ";
      }
    }
    SplitJoin(parts, '|');
  }

  function RowCells(row: map<string, string>, display: seq<string>): (r: seq<string>)
    ensures |r| == |display| && forall j :: 0 <= j < |display| ==> r[j] == CellText(Lookup(row, display[j]))
  {
    seq(|display|, j requires 0 <= j < |display| => CellText(Lookup(row, display[j])))
  }

  function Headers(display: seq<string>): (r: seq<string>)
    ensures |r| == |display| && forall j :: 0 <= j < |display| ==> r[j] == Take(display[j], HeaderWidth)
  {
    seq(|display|, j requires 0 <= j < |display| => Take(display[j], HeaderWidth))
  }

  function Rule(n: nat): (r: seq<string>)
    ensures |r| == n && forall j :: 0 <= j < n ==> r[j] == "---"
  {
    seq(n, j => "---")
  }

  function RowLines(rows: seq<map<string, string>>, display: seq<string>): (r: seq<string>)
    ensures |r| == |rows| && forall k :: 0 <= k < |rows| ==> r[k] == RowLine(RowCells(rows[k], display))
  {
    seq(|rows|, k requires 0 <= k < |rows| => RowLine(RowCells(rows[k], display)))
  }

  const SampleHeading := "### Sample Data (10 rows)\n"
  const NoSample := "*No sample data available*"

  /** The table's header line and rule. */
  function TableHead(display: seq<string>): seq<string> {
    [RowLine(Headers(display)), "|" + JoinWith(Rule(|display|), "|") + "|"]
  }

  function MoreColumns(n: nat): seq<string> {
    if n > ShownColumns then ["\n*..." + Digits(n - ShownColumns) + " more columns not shown*"] else []
  }

  /** The lines of one table's sample-data block. */
  function SampleLines(sample: seq<map<string, string>>, cols: seq<string>): seq<string> {
    if sample != [] && cols != [] then
      var display := Take(cols, ShownColumns);
      [SampleHeading] + TableHead(display) + RowLines(Take(sample, ShownRows), display) + MoreColumns(|cols|)
    else [SampleHeading, NoSample]
  }

  /** The escaped cells of one row over the shown columns. */
  method CellsOf(row: map<string, string>, display: seq<string>) returns (vals: seq<string>)
    ensures vals == RowCells(row, display)
  {
    vals := [];
    var j := 0;
    while j < |display|
      invariant 0 <= j <= |display|
      invariant vals == RowCells(row, display[..j])
    {
      var v := Take(Lookup(row, display[j]), CellWidth);
      v := Replace(Replace(v, '|', '/'), '\n', ' ');
      vals := vals + [if v != "" then v else "NULL"];
      j := j + 1;
    }
    assert display[..j] == display;
  }

  lemma RowLinesSnoc(rows: seq<map<string, string>>, k: nat, display: seq<string>)
    requires k < |rows|
    ensures RowLines(rows[..k + 1], display) == RowLines(rows[..k], display) + [RowLine(RowCells(rows[k], display))]
  {
    var a, b := RowLines(rows[..k + 1], display), RowLines(rows[..k], display) + [RowLine(RowCells(rows[k], display))];
    assert |a| == |b|;
    forall i | 0 <= i < |a| ensures a[i] == b[i] {
      assert rows[..k + 1][i] == rows[i];
      if i < k {
        assert rows[..k][i] == rows[i];
      }
    }
  }

  /** Appends the sample-data block to the report's lines. */
  method AppendSample(lines0: seq<string>, sample: seq<map<string, string>>, cols: seq<string>) returns (lines: seq<string>)
    ensures lines == lines0 + SampleLines(sample, cols)
  {
    lines := lines0 + [SampleHeading];
    if sample != [] && cols != [] {
      var display := Take(cols, ShownColumns);
      lines := lines + TableHead(display);
      ghost var top := lines;
      var rows := Take(sample, ShownRows);
      var k := 0;
      while k < |rows|
        invariant 0 <= k <= |rows|
        invariant lines == top + RowLines(rows[..k], display)
      {
        var vals := CellsOf(rows[k], display);
        RowLinesSnoc(rows, k, display);
        SnocAssoc(top, RowLines(rows[..k], display), RowLine(vals));
        lines := lines + [RowLine(vals)];
        k := k + 1;
      }
      assert rows[..k] == rows;
      lines := lines + MoreColumns(|cols|);
      Assoc4(lines0, [SampleHeading], TableHead(display), RowLines(rows, display), MoreColumns(|cols|));
    } else {
      Assoc4(lines0, [SampleHeading], [NoSample], [], []);
      lines := lines + [NoSample];
    }
  }

  lemma SnocAssoc<T>(a: seq<T>, b: seq<T>, x: T)
    ensures a + b + [x] == a + (b + [x])
  {
  }

  lemma Assoc4<T>(a: seq<T>, b: seq<T>, c: seq<T>, d: seq<T>, e: seq<T>)
    ensures a + b + c + d + e == a + (b + c + d + e)
    ensures a + b + c == a + (b + c)
  {
  }

  /** With data, the block holds a header of at most ten column names cut
      to twenty characters, a rule, one line per row for at most ten rows
      and a note when columns were dropped; without, the placeholder. */
  lemma SampleShape(sample: seq<map<string, string>>, cols: seq<string>)
    ensures var lines := SampleLines(sample, cols);
      var nc := if |cols| < ShownColumns then |cols| else ShownColumns;
      var nr := if |sample| < ShownRows then |sample| else ShownRows;
      (sample == [] || cols == [] ==> lines == [SampleHeading, NoSample])
      && (sample != [] && cols != [] ==>
            |lines| == 3 + nr + (if |cols| > ShownColumns then 1 else 0)
            && lines[1] == RowLine(Headers(cols[..nc]))
            && (forall j :: 0 <= j < nc ==> |Headers(cols[..nc])[j]| <= HeaderWidth && Headers(cols[..nc])[j] <= cols[j]))
  {
  }

  /** Each row line of the block reads back, cell by cell, as the escaped
      values of the first ten columns of the corresponding sample row. */
  lemma SampleRowsReadBack(sample: seq<map<string, string>>, cols: seq<string>, k: nat)
    requires sample != [] && cols != [] && k < |sample| && k < ShownRows
    ensures var nc := if |cols| < ShownColumns then |cols| else ShownColumns;
      Split(SampleLines(sample, cols)[3 + k], '|') == [""] + Padded(RowCells(sample[k], cols[..nc])) + [""]
  {
    var display := Take(cols, ShownColumns);
    var rows := Take(sample, ShownRows);
    var lines := SampleLines(sample, cols);
    var vals := RowCells(sample[k], display);
    assert rows[k] == sample[k];
    forall j | 0 <= j < |vals| ensures '|' !in vals[j] {
      CellTextMeaning(Lookup(sample[k], display[j]));
    }
    assert lines[3 + k] == RowLines(rows, display)[k];
    RowLineCells(vals);
  }

  // ---------------------------------------------------------------------------
  // read_delta_schema

  predicate IsJsonName(name: string) {
    |name| >= 5 && name[|name| - 5..] == ".json"
  }

  /** The last of the log's ".json" files in name order, if there is one. */
  function LatestLog(names: seq<string>): (r: Option<string>)
    ensures r.Some? ==> r.value in names && IsJsonName(r.value)
    ensures r.None? <==> forall i :: 0 <= i < |names| ==> !IsJsonName(names[i])
  {
    if names == [] then None
    else
      var m := LatestLog(names[..|names| - 1]);
      var x := names[|names| - 1];
      assert forall i :: 0 <= i < |names| - 1 ==> names[..|names| - 1][i] == names[i];
      if IsJsonName(x) && (m.None? || Less(m.value, x)) then Some(x) else m
  }

  /** No ".json" name sorts after the chosen one. */
  lemma {:induction false} LatestLogIsLast(names: seq<string>)
    ensures LatestLog(names).Some? ==>
      forall i :: 0 <= i < |names| && IsJsonName(names[i]) ==> !Less(LatestLog(names).value, names[i])
  {
    if names != [] {
      var init := names[..|names| - 1];
      var m := LatestLog(init);
      var x := names[|names| - 1];
      LatestLogIsLast(init);
      var r := LatestLog(names);
      forall i | 0 <= i < |names| && IsJsonName(names[i]) ensures !Less(r.value, names[i]) {
        if i < |names| - 1 {
          assert names[i] == init[i];
          if r.value == x && m.Some? && Less(x, names[i]) {
            LessTransitive(m.value, x, names[i]);
          }
        } else if r.value != x {
          LessTotal(m.value, x);
        } else {
          LessIrreflexive(x);
        }
      }
    }
  }

  /** A field's "type": absent, a string, or a nested type object given by
      its own "type" entry (if any) and its `str()`. */
  datatype FieldType = NoType | Named(name: string) | Nested(typeEntry: Option<string>, text: string)

  datatype Field = Field(name: Option<string>, fieldType: FieldType, nullable: Option<bool>)

  /** The decoded schemaString: not JSON, or an object with or without "fields". */
  datatype SchemaString = Unparsable | Parsed(fields: Option<seq<Field>>)

  datatype MetaData = MetaData(schema: SchemaString, partitionColumns: Option<seq<string>>)

  datatype AddAction = AddAction(size: Option<int>)

  /** One line of the log: not JSON, or an action object. */
  datatype LogLine = Malformed | Action(metaData: Option<MetaData>, add: Option<AddAction>)

  datatype Column = Column(name: Option<string>, columnType: string, nullable: bool)

  datatype SchemaInfo = SchemaInfo(columns: seq<Column>, partitionColumns: seq<string>, numFiles: nat, totalSizeBytes: int)

  const NoSchema := SchemaInfo([], [], 0, 0)

  function ColumnType(t: FieldType): string {
    match t
    case NoType => "unknown"
    case Named(n) => n
    case Nested(entry, text) => entry.GetOr(text)
  }

  function ColumnsOf(fields: seq<Field>): (r: seq<Column>)
    ensures |r| == |fields|
    ensures forall i :: 0 <= i < |fields| ==>
      r[i] == Column(fields[i].name, ColumnType(fields[i].fieldType), fields[i].nullable.GetOr(true))
  {
    seq(|fields|, i requires 0 <= i < |fields| =>
      Column(fields[i].name, ColumnType(fields[i].fieldType), fields[i].nullable.GetOr(true)))
  }

  /** A schemaString that is not JSON raises inside the line's handler,
      which skips the rest of the line, its "add" included. */
  predicate Skipped(line: LogLine) {
    line.Malformed? || (line.metaData.Some? && line.metaData.value.schema.Unparsable?)
  }

  predicate Counted(line: LogLine) {
    !Skipped(line) && line.add.Some?
  }

  /** One line of the loop: metaData appends the schema's columns and sets
      the partition columns, an "add" counts one file and its size. */
  function Step(info: SchemaInfo, line: LogLine): SchemaInfo {
    if Skipped(line) then info
    else
      var withMeta :=
        if line.metaData.None? then info
        else
          var meta := line.metaData.value;
          var fields := if meta.schema.fields.Some? then ColumnsOf(meta.schema.fields.value) else [];
          info.(columns := info.columns + fields, partitionColumns := meta.partitionColumns.GetOr([]));
      if line.add.None? then withMeta
      else withMeta.(numFiles := withMeta.numFiles + 1, totalSizeBytes := withMeta.totalSizeBytes + line.add.value.size.GetOr(0))
  }

  /** The loop over the lines from a given state. */
  function Accumulate(info: SchemaInfo, lines: seq<LogLine>): SchemaInfo {
    if lines == [] then info else Step(Accumulate(info, lines[..|lines| - 1]), lines[|lines| - 1])
  }

  function SchemaOf(lines: seq<LogLine>): SchemaInfo {
    Accumulate(NoSchema, lines)
  }

  /** read_delta_schema, given the log's file names and the lines of the
      latest ".json" file. */
  function DeltaSchema(names: seq<string>, content: seq<LogLine>): SchemaInfo {
    if LatestLog(names).None? then NoSchema else SchemaOf(content)
  }

  method ReadDeltaSchema(names: seq<string>, content: seq<LogLine>) returns (info: SchemaInfo)
    ensures info == DeltaSchema(names, content)
  {
    info := NoSchema;
    if LatestLog(names).None? {
      return;
    }
    var i := 0;
    while i < |content|
      invariant 0 <= i <= |content|
      invariant info == SchemaOf(content[..i])
    {
      assert content[..i + 1][..i] == content[..i];
      var line := content[i];
      if line.Action? {
        if line.metaData.Some? {
          var meta := line.metaData.value;
          if meta.schema.Unparsable? {
            i := i + 1;
            continue;
          }
          if meta.schema.fields.Some? {
            var fields := meta.schema.fields.value;
            var j := 0;
            ghost var before := info.columns;
            while j < |fields|
              invariant 0 <= j <= |fields|
              invariant info.columns == before + ColumnsOf(fields[..j])
              invariant info.partitionColumns == SchemaOf(content[..i]).partitionColumns
              invariant info.numFiles == SchemaOf(content[..i]).numFiles
              invariant info.totalSizeBytes == SchemaOf(content[..i]).totalSizeBytes
            {
              var f := fields[j];
              var colType := if f.fieldType.NoType? then "unknown"
                else if f.fieldType.Named? then f.fieldType.name
                else f.fieldType.typeEntry.GetOr(f.fieldType.text);
              info := info.(columns := info.columns + [Column(f.name, colType, f.nullable.GetOr(true))]);
              assert ColumnsOf(fields[..j + 1]) == ColumnsOf(fields[..j]) + [ColumnsOf(fields)[j]];
              j := j + 1;
            }
            assert fields[..j] == fields;
          }
          info := info.(partitionColumns := meta.partitionColumns.GetOr([]));
        }
        if line.add.Some? {
          info := info.(numFiles := info.numFiles + 1, totalSizeBytes := info.totalSizeBytes + line.add.value.size.GetOr(0));
        }
      }
      i := i + 1;
    }
    assert content[..i] == content;
  }

  lemma {:induction false} AccumulateAppend(info: SchemaInfo, a: seq<LogLine>, b: seq<LogLine>)
    ensures Accumulate(info, a + b) == Accumulate(Accumulate(info, a), b)
    decreases |b|
  {
    if b == [] {
      assert a + b == a;
    } else {
      assert (a + b)[..|a + b| - 1] == a + b[..|b| - 1];
      AccumulateAppend(info, a, b[..|b| - 1]);
    }
  }

  /** Lines that are not JSON, and lines whose schemaString is not JSON,
      leave the result as if they were absent. */
  lemma SkippedLineIgnored(a: seq<LogLine>, line: LogLine, b: seq<LogLine>)
    requires Skipped(line)
    ensures SchemaOf(a + [line] + b) == SchemaOf(a + b)
  {
    AccumulateAppend(NoSchema, a + [line], b);
    AccumulateAppend(NoSchema, a, [line]);
    AccumulateAppend(NoSchema, a, b);
    assert [line][..0] == [];
  }

  /** The counters only add: num_files goes up by the lines counted and
      total_size_bytes by their sizes (0 when missing), and the column list
      only grows. */
  lemma {:induction false} AccumulateCounts(info: SchemaInfo, lines: seq<LogLine>)
    ensures var r := Accumulate(info, lines);
      r.numFiles == info.numFiles + SchemaOf(lines).numFiles
      && r.totalSizeBytes == info.totalSizeBytes + SchemaOf(lines).totalSizeBytes
      && r.columns == info.columns + SchemaOf(lines).columns
    decreases |lines|
  {
    if lines != [] {
      AccumulateCounts(info, lines[..|lines| - 1]);
    }
  }

  /** One line counts one file exactly when it has an "add" and is not skipped. */
  lemma LineCounts(line: LogLine)
    ensures SchemaOf([line]).numFiles == if Counted(line) then 1 else 0
    ensures SchemaOf([line]).totalSizeBytes == if Counted(line) then line.add.value.size.GetOr(0) else 0
  {
    var one := [line];
    assert one[..|one| - 1] == [] && one[|one| - 1] == line;
    assert Accumulate(NoSchema, one) == Step(Accumulate(NoSchema, []), line);
  }

  /** Over the concatenation of two logs, num_files, total_size_bytes and the columns add up. */
  lemma SchemaOfAppend(a: seq<LogLine>, b: seq<LogLine>)
    ensures SchemaOf(a + b).numFiles == SchemaOf(a).numFiles + SchemaOf(b).numFiles
    ensures SchemaOf(a + b).totalSizeBytes == SchemaOf(a).totalSizeBytes + SchemaOf(b).totalSizeBytes
    ensures SchemaOf(a + b).columns == SchemaOf(a).columns + SchemaOf(b).columns
  {
    AccumulateAppend(NoSchema, a, b);
    AccumulateCounts(SchemaOf(a), b);
  }

  /** At most one file per line, and no negative total from non-negative sizes. */
  lemma {:induction false} SchemaBounds(lines: seq<LogLine>)
    ensures SchemaOf(lines).numFiles <= |lines|
    ensures (forall i :: 0 <= i < |lines| && Counted(lines[i]) ==> lines[i].add.value.size.GetOr(0) >= 0)
      ==> SchemaOf(lines).totalSizeBytes >= 0
    decreases |lines|
  {
    if lines != [] {
      var init := lines[..|lines| - 1];
      SchemaBounds(init);
      assert forall i :: 0 <= i < |init| ==> init[i] == lines[i];
    }
  }

  /** A nested type reads as its own "type" entry, or its text without one; a missing type as "unknown". */
  lemma ColumnTypeMeaning(t: FieldType)
    ensures t.NoType? ==> ColumnType(t) == "unknown"
    ensures t.Nested? && t.typeEntry.Some? ==> ColumnType(t) == t.typeEntry.value
    ensures t.Nested? && t.typeEntry.None? ==> ColumnType(t) == t.text
  {
  }
}
