/** The gold-schema reader (parquet_test/gold_table_reader.py): table URIs,
    read_table's column selection and limit, and the inventory joined with
    product models and dealerships. Opening a table is replaced by the
    frame it yields (None when it cannot be opened). */
module GoldReader {
  import opened Wrappers
  import opened Text
  import opened Frames
  import DeltaCache

  /** Both readers address the same workspace and lakehouse, declared once in DeltaCache. */
  const Host := DeltaCache.WorkspaceId + "@onelake.dfs.fabric.microsoft.com"

  function TableUri(schema: string, table: string): string {
    "abfss://" + DeltaCache.WorkspaceId + "@onelake.dfs.fabric.microsoft.com/" + DeltaCache.LakehouseId + "/Tables/" + schema + "/" + table
  }

  lemma Join7(a: string, b: string, c: string, e: string, f: string, g: string, h: string, d: char)
    ensures Join([a, b, c, e, f, g, h], d) == a + [d] + b + [d] + c + [d] + e + [d] + f + [d] + g + [d] + h
  {
    JoinCons(g, [h], d);
    JoinCons(f, [g, h], d);
    JoinCons(e, [f, g, h], d);
    JoinCons(c, [e, f, g, h], d);
    JoinCons(b, [c, e, f, g, h], d);
    JoinCons(a, [b, c, e, f, g, h], d);
  }

  /** The URI is the '/'-join of its path components. */
  lemma TableUriComponents(schema: string, table: string)
    ensures TableUri(schema, table) == Join(["abfss:", "", Host, DeltaCache.LakehouseId, "Tables", schema, table], '/')
  {
    Join7("abfss:", "", Host, DeltaCache.LakehouseId, "Tables", schema, table, '/');
    var p1 := "abfss:" + ['/'] + "" + ['/'];
    assert p1 == "abfss://";
    var p2 := p1 + Host + ['/'];
    assert p2 == "abfss://" + DeltaCache.WorkspaceId + "@onelake.dfs.fabric.microsoft.com/" by {
      assert Host + ['/'] == DeltaCache.WorkspaceId + "@onelake.dfs.fabric.microsoft.com/";
    }
    var p3 := p2 + DeltaCache.LakehouseId + ['/'];
    var p4 := p3 + "Tables" + ['/'];
    assert p4 == p2 + DeltaCache.LakehouseId + "/Tables/" by {
      assert ['/'] + "Tables" + ['/'] == "/Tables/";
    }
    assert p4 + schema + ['/'] + table == p2 + DeltaCache.LakehouseId + "/Tables/" + schema + "/" + table;
  }

  lemma NoSlashInWorkspace()
    ensures '/' !in DeltaCache.WorkspaceId
  {
  }

  lemma NoSlashInLakehouse()
    ensures '/' !in DeltaCache.LakehouseId
  {
  }

  lemma NoSlashInDomain()
    ensures '/' !in "@onelake.dfs.fabric.microsoft.com"
  {
  }

  lemma NoSlashInIds()
    ensures '/' !in Host && '/' !in DeltaCache.LakehouseId && '/' !in "abfss:" && '/' !in "Tables"
  {
    NoSlashInWorkspace();
    NoSlashInLakehouse();
    NoSlashInDomain();
    assert forall c :: c in Host ==> c in DeltaCache.WorkspaceId || c in "@onelake.dfs.fabric.microsoft.com";
  }

  /** Schema and table names without '/' can be read back from the URI, so
      distinct (schema, table) pairs have distinct URIs. */
  lemma TableUriParse(schema: string, table: string)
    requires '/' !in schema && '/' !in table
    ensures Split(TableUri(schema, table), '/') == ["abfss:", "", Host, DeltaCache.LakehouseId, "Tables", schema, table]
    ensures Split(TableUri(schema, table), '/')[5] == schema && Split(TableUri(schema, table), '/')[6] == table
  {
    var ps := ["abfss:", "", Host, DeltaCache.LakehouseId, "Tables", schema, table];
    TableUriComponents(schema, table);
    NoSlashInIds();
    forall i | 0 <= i < |ps| ensures '/' !in ps[i] {
      assert ps[i] in {"abfss:", "", Host, DeltaCache.LakehouseId, "Tables", schema, table};
    }
    SplitJoin(ps, '/');
  }

  /** The cache builder's URI is the reader's URI in the gold schema. */
  lemma CacheUriIsGold(table: string)
    ensures DeltaCache.TableUri(table) == TableUri("gold", table)
  {
  }

  /** read_table: None when the table cannot be opened; a non-empty column
      list selects those columns; a truthy limit keeps the first rows, and a
      negative one drops that many from the end, as `head(-n)` does. */
  function ReadTable(read: Option<Frame>, columns: seq<string>, limit: Option<int>): Option<Frame>
    requires read.Some? ==> forall c :: c in columns ==> c in read.value.columns
  {
    if read.None? then None
    else
      var df := if columns != [] then Select(read.value, columns) else read.value;
      Some(if TruthyInt(limit) then Head(df, limit.value) else df)
  }

  lemma ReadTableMeaning(read: Option<Frame>, columns: seq<string>, limit: Option<int>)
    requires read.Some? ==> forall c :: c in columns ==> c in read.value.columns
    ensures ReadTable(read, columns, limit).None? <==> read.None?
    ensures read.Some? ==>
      var df, f := ReadTable(read, columns, limit).value, read.value;
      (columns != [] ==> df.columns == columns) && (columns == [] ==> df.columns == f.columns)
      && (TruthyInt(limit) && limit.value > 0 ==> |df.rows| == if limit.value < |f.rows| then limit.value else |f.rows|)
      && (TruthyInt(limit) && limit.value < 0 ==>
            |df.rows| == if |f.rows| + limit.value < 0 then 0 else |f.rows| + limit.value)
      && (!TruthyInt(limit) ==> |df.rows| == |f.rows|)
      && (columns == [] ==> df.rows <= f.rows)
      && (forall k :: 0 <= k < |df.rows| ==> forall c :: c in columns ==> Cell(df.rows[k], c) == Cell(f.rows[k], c))
  {
  }

  // ---------------------------------------------------------------------------
  // get_inventory_with_details

  const ProductKey := "dim_product_model_skey"
  const DealerKey := "dim_dealership_skey"
  const ProductColumns := [ProductKey, "rv_type", "manufacturer", "model"]
  const DealerColumns := [DealerKey, "dealer_group", "dealership", "state", "region", "city", "county"]

  /** The join runs only when the key is a column of both frames. */
  predicate Guarded(fact: Frame, dim: Frame, key: string) {
    key in fact.columns && key in dim.columns
  }

  /** A guarded join is defined: its selected columns exist and add nothing but the key twice. */
  predicate StageDefined(fact: Frame, dim: Frame, cols: seq<string>, key: string) {
    Guarded(fact, dim, key) ==> Mergeable(fact, dim, cols, key, key)
  }

  function Stage(fact: Frame, dim: Frame, cols: seq<string>, key: string): Frame
    requires StageDefined(fact, dim, cols, key)
  {
    if Guarded(fact, dim, key) then Merge(fact, dim, cols, key, key) else fact
  }

  predicate DetailsDefined(inventory: Frame, products: Frame, dealers: Frame) {
    StageDefined(inventory, products, ProductColumns, ProductKey)
    && StageDefined(Stage(inventory, products, ProductColumns, ProductKey), dealers, DealerColumns, DealerKey)
  }

  function InventoryWithDetails(inventory: Option<Frame>, products: Option<Frame>, dealers: Option<Frame>): (r: Option<Frame>)
    requires inventory.Some? && products.Some? && dealers.Some? ==>
      DetailsDefined(inventory.value, products.value, dealers.value)
    ensures r.None? <==> inventory.None? || products.None? || dealers.None?
  {
    if inventory.None? || products.None? || dealers.None? then None
    else
      var withProducts := Stage(inventory.value, products.value, ProductColumns, ProductKey);
      Some(Stage(withProducts, dealers.value, DealerColumns, DealerKey))
  }

  /** An unguarded stage passes the frame through unchanged. */
  lemma StagePassThrough(fact: Frame, dim: Frame, cols: seq<string>, key: string)
    requires !Guarded(fact, dim, key)
    ensures Stage(fact, dim, cols, key) == fact
  {
  }

  lemma StageKeeps(fact: Frame, dim: Frame, cols: seq<string>, key: string)
    requires Valid(fact) && Distinct(cols) && StageDefined(fact, dim, cols, key)
    ensures Valid(Stage(fact, dim, cols, key)) && |Stage(fact, dim, cols, key).rows| >= |fact.rows|
    ensures DeltaCache.Covers(Stage(fact, dim, cols, key).rows, fact.rows)
  {
    if Guarded(fact, dim, key) {
      SelectValid(dim, cols);
      LeftJoinValid(fact, Select(dim, cols), key, key);
    } else {
      forall l | l in fact.rows ensures exists r :: r in fact.rows && Extends(r, l) {
        assert Extends(l, l);
      }
    }
  }

  /** Left joins only: every inventory row survives both stages with its own cells. */
  lemma DetailsKeepRows(inventory: Frame, products: Frame, dealers: Frame)
    requires Valid(inventory) && DetailsDefined(inventory, products, dealers)
    ensures var r := InventoryWithDetails(Some(inventory), Some(products), Some(dealers)).value;
      Valid(r) && |r.rows| >= |inventory.rows| && DeltaCache.Covers(r.rows, inventory.rows)
  {
    var s1 := Stage(inventory, products, ProductColumns, ProductKey);
    var s2 := Stage(s1, dealers, DealerColumns, DealerKey);
    assert Distinct(ProductColumns) && Distinct(DealerColumns);
    StageKeeps(inventory, products, ProductColumns, ProductKey);
    StageKeeps(s1, dealers, DealerColumns, DealerKey);
    DeltaCache.CoversTrans(inventory.rows, s1.rows, s2.rows);
  }

  /** With each product model key held once, the product stage keeps row k
      in place; a row whose key matches no product model carries nulls in
      every column the stage adds. */
  lemma ProductStageNulls(inventory: Frame, products: Frame, k: nat)
    requires StageDefined(inventory, products, ProductColumns, ProductKey) && Guarded(inventory, products, ProductKey)
    requires UniqueOn(products.rows, ProductKey)
    requires k < |inventory.rows| && NoMatch(products, ProductKey, Cell(inventory.rows[k], ProductKey))
    ensures var s := Stage(inventory, products, ProductColumns, ProductKey);
      |s.rows| == |inventory.rows|
      && forall c :: c in Added(inventory, Select(products, ProductColumns)) ==> Cell(s.rows[k], c) == Null
  {
    var sel := Select(products, ProductColumns);
    DeltaCache.SelectUnique(products, ProductColumns, ProductKey);
    assert NoMatch(sel, ProductKey, Cell(inventory.rows[k], ProductKey)) by {
      forall i | 0 <= i < |sel.rows| ensures Cell(sel.rows[i], ProductKey) != Cell(inventory.rows[k], ProductKey) {
        assert Cell(sel.rows[i], ProductKey) == Cell(products.rows[i], ProductKey);
      }
    }
    LeftJoinUnique(inventory, sel, ProductKey, ProductKey);
    UnmatchedNulls(inventory, sel, ProductKey, ProductKey, k);
  }
}
