/** The path, query and grouping logic of the Parquet data catalog: how a
    catalog is located (`from_uri`, the filesystem protocol default), where a
    class's data lives (`_make_path`), the DataFusion SQL text of a query
    (`_build_query`, contrasted with the pyarrow filters of
    `_load_pyarrow_table`), how `write_data` splits its input into
    single-class chunks, and how a backtest or live run's Feather files are
    named and read back (`_list_feather_files`, `_read_feather`).

    Filesystems, globbing, Arrow tables and (de)serialisation are outside the
    model: what they return is a parameter. The helpers `urisafe_instrument_id`,
    `class_to_filename` and `dt_to_unix_nanos` are function parameters too. */
module ParquetCatalog {
  import opened Collections
  import opened Text

  // ---------------------------------------------------------------------------
  // Locating the catalog

  const DefaultFsProtocol: string := "file"

  /** `fs_protocol or _DEFAULT_FS_PROTOCOL`: both `None` and `""` fall back to
      `"file"`; any other protocol is kept. */
  function FsProtocol(fsProtocol: Option<string>): (r: string)
    ensures r != ""
    ensures r == DefaultFsProtocol || fsProtocol == Some(r)
    ensures fsProtocol.Some? && fsProtocol.value != "" ==> r == fsProtocol.value
  {
    if fsProtocol.None? || fsProtocol.value == "" then DefaultFsProtocol else fsProtocol.value
  }

  /** The scheme defaulting of `from_uri`: a URI without `://` is a local
      path and gets `file://` in front. */
  function FromUriNormalize(uri: string): (r: string)
    ensures Contains(r, "://")
    ensures EndsWith(r, uri)
    ensures Contains(uri, "://") ==> r == uri
    ensures !Contains(uri, "://") ==> r == "file://" + uri
  {
    if Contains(uri, "://") then uri
    else
      var r := "file://" + uri;
      assert OccursAt(r, "://", 4);
      assert r[|r| - |uri|..] == uri;
      r
  }

  /** Normalising twice is normalising once. */
  lemma FromUriIdempotent(uri: string)
    ensures FromUriNormalize(FromUriNormalize(uri)) == FromUriNormalize(uri)
  {
  }

  // ---------------------------------------------------------------------------
  // Directory layout

  /** `_make_path`: `{path}/data/{class_file}/{urisafe(id)}` with an instrument
      id, `{path}/data/{class_file}` without. */
  function MakePath(root: string, classFile: string, instrumentId: Option<string>, urisafe: string -> string): string {
    if instrumentId.Some? then root + "/data/" + classFile + "/" + urisafe(instrumentId.value)
    else root + "/data/" + classFile
  }

  /** An instrument's directory is its class's directory extended by exactly
      one path segment, the URI-safe instrument id. */
  lemma {:induction false} MakePathOneSegmentDeeper(root: string, classFile: string, id: string, urisafe: string -> string)
    requires '/' !in urisafe(id)
    ensures MakePath(root, classFile, Some(id), urisafe) == MakePath(root, classFile, None, urisafe) + "/" + urisafe(id)
    ensures Split(MakePath(root, classFile, Some(id), urisafe)) == Split(MakePath(root, classFile, None, urisafe)) + [urisafe(id)]
  {
    SplitAppendSegment(MakePath(root, classFile, None, urisafe), urisafe(id));
  }

  /** The directory holding an instrument's data is named after the class. */
  lemma {:induction false} MakePathParentIsClass(root: string, classFile: string, id: string, urisafe: string -> string)
    requires IsSegment(classFile) && IsSegment(urisafe(id))
    ensures ParentName(MakePath(root, classFile, Some(id), urisafe)) == classFile
  {
    assert MakePath(root, classFile, Some(id), urisafe) == (root + "/data") + "/" + classFile + "/" + urisafe(id);
    ParentNameOfNested(root + "/data", classFile, urisafe(id));
  }

  // ---------------------------------------------------------------------------
  // Query construction

  /** A `TimestampLike`: an int, a str or a float, as Python truth-tests them. */
  datatype TimestampLike = TsInt(n: int) | TsStr(s: string) | TsFloat(x: real)

  predicate Truthy(t: TimestampLike) {
    match t
    case TsInt(n) => n != 0
    case TsStr(s) => s != ""
    case TsFloat(x) => x != 0.0
  }

  /** Python's `if x:` for an optional timestamp. */
  predicate Given(t: Option<TimestampLike>) {
    t.Some? && Truthy(t.value)
  }

  const SelectPrefix: string := "SELECT * FROM "
  const OrderSuffix: string := " ORDER BY ts_init"

  /** The `conditions` list of `_build_query`: the `where` text when truthy,
      then the inclusive start bound, then the inclusive end bound, each only
      when truthy. `toNanos` is `dt_to_unix_nanos`. */
  function Conditions(start: Option<TimestampLike>, end: Option<TimestampLike>, where: Option<string>,
                      toNanos: TimestampLike -> int): seq<string> {
    (if where.Some? && where.value != "" then [where.value] else [])
    + (if Given(start) then ["ts_init >= " + IntToDecimal(toNanos(start.value))] else [])
    + (if Given(end) then ["ts_init <= " + IntToDecimal(toNanos(end.value))] else [])
  }

  /** The query text over a list of conditions. */
  function QueryText(table: string, conditions: seq<string>): string {
    SelectPrefix + table
    + (if conditions != [] then " WHERE " + Join(conditions, " AND ") else "")
    + OrderSuffix
  }

  /** `_build_query`, step by step as the source builds the string. */
  method BuildQuery(table: string, start: Option<TimestampLike>, end: Option<TimestampLike>, where: Option<string>,
                    toNanos: TimestampLike -> int)
    returns (query: string)
    ensures query == QueryText(table, Conditions(start, end, where, toNanos))
  {
    query := SelectPrefix + table;
    ghost var select := query;
    var conditions: seq<string> := [] + (if where.Some? && where.value != "" then [where.value] else []);
    if Given(start) {
      var startTs := toNanos(start.value);
      conditions := conditions + ["ts_init >= " + IntToDecimal(startTs)];
    }
    if Given(end) {
      var endTs := toNanos(end.value);
      conditions := conditions + ["ts_init <= " + IntToDecimal(endTs)];
    }
    assert conditions == Conditions(start, end, where, toNanos);
    ghost var clause := if conditions != [] then " WHERE " + Join(conditions, " AND ") else "";
    if conditions != [] {
      query := query + " WHERE " + Join(conditions, " AND ");
      assert query == select + clause;
    } else {
      assert query == select + clause;
    }
    query := query + OrderSuffix;
  }

  /** Every query selects everything from the table and orders by `ts_init`. */
  lemma QueryFrame(table: string, conditions: seq<string>)
    ensures StartsWith(QueryText(table, conditions), SelectPrefix + table)
    ensures EndsWith(QueryText(table, conditions), OrderSuffix)
  {
    var q := QueryText(table, conditions);
    var w := if conditions != [] then " WHERE " + Join(conditions, " AND ") else "";
    assert q == (SelectPrefix + table) + (w + OrderSuffix);
    assert q == ((SelectPrefix + table) + w) + OrderSuffix;
  }

  /** The `WHERE` clause is there exactly when there is a condition. */
  lemma WhereIffConditions(table: string, conditions: seq<string>)
    ensures StartsWith(QueryText(table, conditions), SelectPrefix + table + " WHERE ") <==> conditions != []
  {
    var q := QueryText(table, conditions);
    var p := SelectPrefix + table;
    if conditions == [] {
      assert q == p + OrderSuffix;
      assert q[|p| + 1] == 'O';
      assert (p + " WHERE ")[|p| + 1] == 'W';
    } else {
      assert q == (p + " WHERE ") + (Join(conditions, " AND ") + OrderSuffix);
    }
  }

  /** A falsy bound (`0`, `""`, `0.0`) adds no condition: it reads as no bound. */
  lemma FalsyBoundIgnored(start: Option<TimestampLike>, end: Option<TimestampLike>, where: Option<string>,
                          toNanos: TimestampLike -> int)
    requires start.Some? && !Truthy(start.value)
    requires end.Some? && !Truthy(end.value)
    ensures Conditions(start, end, where, toNanos) == Conditions(None, None, where, toNanos)
    ensures Conditions(start, None, where, toNanos) == Conditions(None, None, where, toNanos)
    ensures Conditions(None, end, where, toNanos) == Conditions(None, None, where, toNanos)
  {
  }

  predicate IsLowerBound(condition: string) {
    StartsWith(condition, "ts_init >= ")
  }

  predicate IsUpperBound(condition: string) {
    StartsWith(condition, "ts_init <= ")
  }

  lemma BoundTexts(n: int)
    ensures IsLowerBound("ts_init >= " + IntToDecimal(n)) && !IsUpperBound("ts_init >= " + IntToDecimal(n))
    ensures IsUpperBound("ts_init <= " + IntToDecimal(n)) && !IsLowerBound("ts_init <= " + IntToDecimal(n))
  {
    var lo, hi := "ts_init >= " + IntToDecimal(n), "ts_init <= " + IntToDecimal(n);
    assert lo[..11] == "ts_init >= " && hi[..11] == "ts_init <= ";
    assert lo[8] == '>' && hi[8] == '<';
  }

  /** The bounds are inclusive, and each appears exactly when it is truthy:
      the conditions hold a `ts_init >= ` text iff the start is given, and a
      `ts_init <= ` text iff the end is given (for a `where` text that is not
      itself such a bound). */
  lemma {:induction false} BoundsIffGiven(start: Option<TimestampLike>, end: Option<TimestampLike>, where: Option<string>,
                                          toNanos: TimestampLike -> int)
    requires where.None? || (!IsLowerBound(where.value) && !IsUpperBound(where.value))
    ensures var c := Conditions(start, end, where, toNanos);
      && ((exists i :: 0 <= i < |c| && IsLowerBound(c[i])) <==> Given(start))
      && ((exists i :: 0 <= i < |c| && IsUpperBound(c[i])) <==> Given(end))
      && |c| <= 3
  {
    var c := Conditions(start, end, where, toNanos);
    var w := if where.Some? && where.value != "" then [where.value] else [];
    var s := if Given(start) then ["ts_init >= " + IntToDecimal(toNanos(start.value))] else [];
    var e := if Given(end) then ["ts_init <= " + IntToDecimal(toNanos(end.value))] else [];
    assert c == w + s + e;
    if Given(start) {
      BoundTexts(toNanos(start.value));
    }
    if Given(end) {
      BoundTexts(toNanos(end.value));
    }
    PartsBounds(w, s, e);
  }

  /** Conditions made of non-bounds, then lower bounds, then upper bounds hold
      a lower bound iff the middle part is non-empty, and likewise for upper. */
  lemma PartsBounds(w: seq<string>, s: seq<string>, e: seq<string>)
    requires forall x | x in w :: !IsLowerBound(x) && !IsUpperBound(x)
    requires forall x | x in s :: IsLowerBound(x) && !IsUpperBound(x)
    requires forall x | x in e :: IsUpperBound(x) && !IsLowerBound(x)
    ensures var c := w + s + e;
      && ((exists i :: 0 <= i < |c| && IsLowerBound(c[i])) <==> s != [])
      && ((exists i :: 0 <= i < |c| && IsUpperBound(c[i])) <==> e != [])
  {
    var c := w + s + e;
    if s != [] {
      assert c[|w|] == s[0];
    }
    if e != [] {
      assert c[|w| + |s|] == e[0];
    }
    forall i | 0 <= i < |c|
      ensures IsLowerBound(c[i]) ==> s != []
      ensures IsUpperBound(c[i]) ==> e != []
    {
      assert c[i] in w || c[i] in s || c[i] in e;
    }
  }

  /** A pyarrow filter of `_load_pyarrow_table`. */
  datatype Filter = Expression(text: string) | AtLeast(column: string, nanos: int) | AtMost(column: string, nanos: int)

  /** `_load_pyarrow_table`'s filters: tested with `is not None`, so a falsy
      bound still filters. `arrowNanos` is `pd.Timestamp(x).value`, a
      conversion of its own, apart from the SQL path's `dt_to_unix_nanos`. */
  function PyarrowFilters(filterExpr: Option<string>, start: Option<TimestampLike>, end: Option<TimestampLike>,
                          tsColumn: string, arrowNanos: TimestampLike -> int): seq<Filter> {
    (if filterExpr.Some? then [Expression(filterExpr.value)] else [])
    + (if start.Some? then [AtLeast(tsColumn, arrowNanos(start.value))] else [])
    + (if end.Some? then [AtMost(tsColumn, arrowNanos(end.value))] else [])
  }

  /** The SQL condition that a bound filter reads as. */
  function FilterText(f: Filter): string {
    match f
    case Expression(text) => text
    case AtLeast(column, nanos) => column + " >= " + IntToDecimal(nanos)
    case AtMost(column, nanos) => column + " <= " + IntToDecimal(nanos)
  }

  /** The two query paths disagree on a falsy start: pyarrow filters
      `ts_init >=` whatever the falsy value converts to, the SQL query has no
      lower bound at all. This holds for any two conversions. */
  lemma FalsyStartDiverges(start: TimestampLike, sqlNanos: TimestampLike -> int, arrowNanos: TimestampLike -> int)
    requires !Truthy(start)
    ensures PyarrowFilters(None, Some(start), None, "ts_init", arrowNanos) == [AtLeast("ts_init", arrowNanos(start))]
    ensures Conditions(Some(start), None, None, sqlNanos) == []
  {
  }

  /** On truthy bounds each path has one inclusive lower and one inclusive
      upper bound, from its own conversion; where `dt_to_unix_nanos` and
      `pd.Timestamp(x).value` agree on the two bounds, the SQL conditions are
      exactly the pyarrow filters read as text. */
  lemma TruthyBoundsAgree(start: TimestampLike, end: TimestampLike,
                          sqlNanos: TimestampLike -> int, arrowNanos: TimestampLike -> int)
    requires Truthy(start) && Truthy(end)
    ensures PyarrowFilters(None, Some(start), Some(end), "ts_init", arrowNanos)
      == [AtLeast("ts_init", arrowNanos(start)), AtMost("ts_init", arrowNanos(end))]
    ensures Conditions(Some(start), Some(end), None, sqlNanos)
      == ["ts_init >= " + IntToDecimal(sqlNanos(start)), "ts_init <= " + IntToDecimal(sqlNanos(end))]
    ensures sqlNanos(start) == arrowNanos(start) && sqlNanos(end) == arrowNanos(end) ==>
      var filters := PyarrowFilters(None, Some(start), Some(end), "ts_init", arrowNanos);
      Conditions(Some(start), Some(end), None, sqlNanos) == [FilterText(filters[0]), FilterText(filters[1])]
  {
    var filters := PyarrowFilters(None, Some(start), Some(end), "ts_init", arrowNanos);
    assert FilterText(filters[0]) == "ts_init >= " + IntToDecimal(arrowNanos(start));
    assert FilterText(filters[1]) == "ts_init <= " + IntToDecimal(arrowNanos(end));
  }

  // ---------------------------------------------------------------------------
  // write_data: grouping into single-class chunks

  /** What `write_data`'s key function looks at: an `Instrument` by its id, a
      `Bar` by its bar type, anything else with an `instrument_id` by that,
      the rest by nothing. */
  datatype ObjectKind =
    | InstrumentObject(id: string)
    | BarObject(barType: string)
    | WithInstrumentId(instrumentId: string)
    | PlainObject

  /** A catalog object: its class name, its kind, its `ts_init`, and the rest. */
  datatype DataObject = DataObject(className: string, kind: ObjectKind, tsInit: int, payload: seq<int>)

  datatype ChunkKey = ChunkKey(className: string, instrumentId: Option<string>)

  /** `key(obj)` of `write_data`. */
  function Key(o: DataObject): (k: ChunkKey)
    ensures k.className == o.className
    ensures k.instrumentId.None? <==> o.kind.PlainObject?
  {
    match o.kind
    case InstrumentObject(id) => ChunkKey(o.className, Some(id))
    case BarObject(barType) => ChunkKey(o.className, Some(barType))
    case WithInstrumentId(id) => ChunkKey(o.className, Some(id))
    case PlainObject => ChunkKey(o.className, None)
  }

  /** Tuple order on keys: by class name, then by instrument id with `None`
      first (Python itself raises on comparing `None` with a str). */
  predicate KeyLe(a: ChunkKey, b: ChunkKey) {
    if a.className != b.className then StrLe(a.className, b.className)
    else match (a.instrumentId, b.instrumentId)
      case (None, _) => true
      case (Some(_), None) => false
      case (Some(x), Some(y)) => StrLe(x, y)
  }

  predicate ObjectLe(a: DataObject, b: DataObject) {
    KeyLe(Key(a), Key(b))
  }

  lemma KeyLeAntisymmetric(a: ChunkKey, b: ChunkKey)
    requires KeyLe(a, b) && KeyLe(b, a)
    ensures a == b
  {
    if a.className != b.className {
      StrLeAntisymmetric(a.className, b.className);
    } else if a.instrumentId.Some? && b.instrumentId.Some? {
      StrLeAntisymmetric(a.instrumentId.value, b.instrumentId.value);
    }
  }

  lemma KeyLeTransitive(a: ChunkKey, b: ChunkKey, c: ChunkKey)
    requires KeyLe(a, b) && KeyLe(b, c)
    ensures KeyLe(a, c)
  {
    if a.className != b.className && b.className != c.className {
      StrLeTransitive(a.className, b.className, c.className);
      if a.className == c.className {
        StrLeAntisymmetric(a.className, b.className);
      }
    } else if a.className == b.className && b.className == c.className {
      if a.instrumentId.Some? && b.instrumentId.Some? && c.instrumentId.Some? {
        StrLeTransitive(a.instrumentId.value, b.instrumentId.value, c.instrumentId.value);
      }
    }
  }

  /** The key order is a total preorder on objects, so sorting by it is
      well defined. */
  lemma ObjectLeTotalPreorder()
    ensures TotalPreorder(ObjectLe)
  {
    forall a: DataObject, b: DataObject ensures ObjectLe(a, b) || ObjectLe(b, a) {
      var ka, kb := Key(a), Key(b);
      if ka.className != kb.className {
        StrLeTotal(ka.className, kb.className);
      } else if ka.instrumentId.Some? && kb.instrumentId.Some? {
        StrLeTotal(ka.instrumentId.value, kb.instrumentId.value);
      }
    }
    forall a: DataObject, b: DataObject, c: DataObject | ObjectLe(a, b) && ObjectLe(b, c) ensures ObjectLe(a, c) {
      KeyLeTransitive(Key(a), Key(b), Key(c));
    }
  }

  /** One `write_chunk(data, data_cls, instrument_id)` call; the class is
      looked up by name, so it is identified by its name here. */
  datatype ChunkWrite = ChunkWrite(data: seq<DataObject>, className: string, instrumentId: Option<string>)

  function KeyOf(w: ChunkWrite): ChunkKey {
    ChunkKey(w.className, w.instrumentId)
  }

  /** A chunk `_objects_to_table` accepts: non-empty, and every object has the
      chunk's key, hence the chunk's class. */
  predicate Uniform(w: ChunkWrite) {
    w.data != [] && forall o :: o in w.data ==> Key(o) == KeyOf(w)
  }

  predicate KeyLt(a: ChunkKey, b: ChunkKey) {
    KeyLe(a, b) && a != b
  }

  /** Every object written, chunk after chunk. */
  function Flatten(writes: seq<ChunkWrite>): seq<DataObject> {
    if writes == [] then [] else Flatten(writes[..|writes| - 1]) + writes[|writes| - 1].data
  }

  predicate AllUniform(writes: seq<ChunkWrite>) {
    forall w :: 0 <= w < |writes| ==> Uniform(writes[w])
  }

  predicate KeysIncreasing(writes: seq<ChunkWrite>) {
    forall w :: 0 <= w < |writes| - 1 ==> KeyLt(KeyOf(writes[w]), KeyOf(writes[w + 1]))
  }

  /** `itertools.groupby` over input sorted by key: one chunk per run of equal
      keys. The chunks, in order, are exactly the input; each is uniform; and
      their keys strictly increase. */
  method GroupRuns(sorted: seq<DataObject>) returns (writes: seq<ChunkWrite>)
    requires SortedBy(sorted, ObjectLe)
    ensures Flatten(writes) == sorted
    ensures AllUniform(writes)
    ensures KeysIncreasing(writes)
  {
    writes := [];
    var i := 0;
    while i < |sorted|
      invariant 0 <= i <= |sorted|
      invariant Flatten(writes) == sorted[..i]
      invariant AllUniform(writes)
      invariant KeysIncreasing(writes)
      invariant writes == [] <==> i == 0
      invariant writes != [] ==> KeyOf(writes[|writes| - 1]) == Key(sorted[i - 1])
      invariant 0 < i < |sorted| ==> Key(sorted[i]) != Key(sorted[i - 1])
    {
      var k := Key(sorted[i]);
      var j := i + 1;
      while j < |sorted| && Key(sorted[j]) == k
        invariant i < j <= |sorted|
        invariant forall m :: i <= m < j ==> Key(sorted[m]) == k
      {
        j := j + 1;
      }
      AppendRun(sorted, writes, i, j, k);
      writes := writes + [ChunkWrite(sorted[i..j], k.className, k.instrumentId)];
      i := j;
    }
    assert sorted[..i] == sorted;
  }

  /** Appending the run `sorted[i..j]` of key `k` as one chunk keeps the
      invariant of `GroupRuns`. */
  lemma AppendRun(sorted: seq<DataObject>, writes: seq<ChunkWrite>, i: nat, j: nat, k: ChunkKey)
    requires SortedBy(sorted, ObjectLe)
    requires i < j <= |sorted|
    requires Flatten(writes) == sorted[..i]
    requires AllUniform(writes) && KeysIncreasing(writes)
    requires writes == [] <==> i == 0
    requires writes != [] ==> KeyOf(writes[|writes| - 1]) == Key(sorted[i - 1])
    requires 0 < i ==> Key(sorted[i]) != Key(sorted[i - 1])
    requires forall m :: i <= m < j ==> Key(sorted[m]) == k
    ensures var after := writes + [ChunkWrite(sorted[i..j], k.className, k.instrumentId)];
      && Flatten(after) == sorted[..j]
      && AllUniform(after)
      && KeysIncreasing(after)
      && KeyOf(after[|after| - 1]) == Key(sorted[j - 1])
  {
    var chunk := ChunkWrite(sorted[i..j], k.className, k.instrumentId);
    var after := writes + [chunk];
    RunIsUniform(sorted, i, j, k);
    assert AllUniform(after) by {
      forall w | 0 <= w < |after| ensures Uniform(after[w]) {
        if w < |writes| { assert after[w] == writes[w]; }
      }
    }
    assert KeysIncreasing(after) by {
      if writes != [] {
        assert KeyLe(Key(sorted[i - 1]), Key(sorted[i]));
      }
      forall w | 0 <= w < |after| - 1 ensures KeyLt(KeyOf(after[w]), KeyOf(after[w + 1])) {
        if w + 1 < |writes| { assert after[w] == writes[w] && after[w + 1] == writes[w + 1]; }
      }
    }
    assert after[..|after| - 1] == writes;
    assert sorted[..i] + sorted[i..j] == sorted[..j];
  }

  lemma RunIsUniform(sorted: seq<DataObject>, i: nat, j: nat, k: ChunkKey)
    requires i < j <= |sorted|
    requires forall m :: i <= m < j ==> Key(sorted[m]) == k
    ensures Uniform(ChunkWrite(sorted[i..j], k.className, k.instrumentId))
  {
    var chunk := ChunkWrite(sorted[i..j], k.className, k.instrumentId);
    forall o | o in chunk.data ensures Key(o) == k {
      var m :| 0 <= m < |chunk.data| && chunk.data[m] == o;
      assert o == sorted[i + m];
    }
  }

  /** `write_data`: sort by key, then one `write_chunk` per run of equal keys.
      Every object lands in the chunks, each chunk is uniform, and no two
      chunks share a key. */
  method WriteData(data: seq<DataObject>) returns (writes: seq<ChunkWrite>)
    ensures Flatten(writes) == (ObjectLeTotalPreorder(); SortBy(data, ObjectLe))
    ensures multiset(Flatten(writes)) == multiset(data)
    ensures AllUniform(writes)
    ensures KeysIncreasing(writes)
    ensures forall a, b :: 0 <= a < b < |writes| ==> KeyOf(writes[a]) != KeyOf(writes[b])
  {
    ObjectLeTotalPreorder();
    var sorted := SortBy(data, ObjectLe);
    writes := GroupRuns(sorted);
    ChunkKeysDistinct(writes);
  }

  /** Strictly increasing chunk keys are pairwise distinct. */
  lemma {:induction false} ChunkKeysDistinct(writes: seq<ChunkWrite>)
    requires KeysIncreasing(writes)
    ensures forall a, b :: 0 <= a < b < |writes| ==> KeyOf(writes[a]) != KeyOf(writes[b])
  {
    forall a, b | 0 <= a < b < |writes| ensures KeyOf(writes[a]) != KeyOf(writes[b]) {
      KeysIncrease(writes, a, b);
      if KeyOf(writes[a]) == KeyOf(writes[b]) {
        KeysIncrease(writes, a + 1, b);
        KeyLeTransitive(KeyOf(writes[a + 1]), KeyOf(writes[b]), KeyOf(writes[a]));
        KeyLeAntisymmetric(KeyOf(writes[a]), KeyOf(writes[a + 1]));
      }
    }
  }

  lemma {:induction false} KeysIncrease(writes: seq<ChunkWrite>, a: nat, b: nat)
    requires KeysIncreasing(writes)
    requires a <= b < |writes|
    ensures KeyLe(KeyOf(writes[a]), KeyOf(writes[b]))
    decreases b - a
  {
    if a == b {
      ObjectLeTotalPreorder();
      StrLeTotal(writes[a].className, writes[a].className);
      if writes[a].instrumentId.Some? {
        StrLeTotal(writes[a].instrumentId.value, writes[a].instrumentId.value);
      }
    } else {
      KeysIncrease(writes, a + 1, b);
      KeyLeTransitive(KeyOf(writes[a]), KeyOf(writes[a + 1]), KeyOf(writes[b]));
    }
  }

  /** An object is written by at most one chunk: the one of its key. */
  lemma ObjectInOneChunk(writes: seq<ChunkWrite>, o: DataObject, a: nat, b: nat)
    requires AllUniform(writes)
    requires forall x, y :: 0 <= x < y < |writes| ==> KeyOf(writes[x]) != KeyOf(writes[y])
    requires a < |writes| && b < |writes|
    requires o in writes[a].data && o in writes[b].data
    ensures a == b
  {
    assert Uniform(writes[a]) && Uniform(writes[b]);
    assert KeyOf(writes[a]) == Key(o) == KeyOf(writes[b]);
  }

  /** Every object written is in some chunk, and that chunk has its key. */
  lemma {:induction false} ObjectInSomeChunk(writes: seq<ChunkWrite>, o: DataObject)
    requires AllUniform(writes)
    requires o in Flatten(writes)
    ensures exists a :: 0 <= a < |writes| && o in writes[a].data && KeyOf(writes[a]) == Key(o)
    decreases |writes|
  {
    var init := writes[..|writes| - 1];
    var last := |writes| - 1;
    assert Uniform(writes[last]);
    if o in Flatten(init) {
      assert AllUniform(init) by {
        forall w | 0 <= w < |init| ensures Uniform(init[w]) { assert init[w] == writes[w]; }
      }
      ObjectInSomeChunk(init, o);
      var a :| 0 <= a < |init| && o in init[a].data && KeyOf(init[a]) == Key(o);
      assert writes[a] == init[a];
    } else {
      assert o in writes[last].data;
    }
  }

  // ---------------------------------------------------------------------------
  // Feather files of a backtest or live run

  datatype FeatherFile = FeatherFile(path: string, className: string)

  /** `{path}/{kind}/{urisafe(instance_id)}` */
  function FeatherPrefix(root: string, kind: string, instanceId: string, urisafe: string -> string): string {
    root + "/" + kind + "/" + urisafe(instanceId)
  }

  /** The class name of a top-level file: the path with `prefix + "/"` and
      `.feather` removed (every occurrence, as `str.replace` does). */
  function TopLevelClassName(fn: string, prefix: string): string {
    ReplaceAll(ReplaceAll(fn, prefix + "/", ""), ".feather", "")
  }

  /** The class name of a nested file: the name of its parent directory,
      relative to the prefix. */
  function NestedClassName(fn: string, prefix: string): string {
    ParentName(ReplaceAll(fn, prefix + "/", ""))
  }

  /** `_list_feather_files`, given what the two globs under
      `FeatherPrefix(root, kind, instanceId, urisafe)` return: first the
      top-level files, then the nested ones. */
  method ListFeatherFiles(root: string, kind: string, instanceId: string, urisafe: string -> string,
                          topLevel: seq<string>, nested: seq<string>)
    returns (files: seq<FeatherFile>)
    ensures var prefix := FeatherPrefix(root, kind, instanceId, urisafe);
      && |files| == |topLevel| + |nested|
      && (forall i :: 0 <= i < |topLevel| ==> files[i] == FeatherFile(topLevel[i], TopLevelClassName(topLevel[i], prefix)))
      && (forall i :: 0 <= i < |nested| ==>
            files[|topLevel| + i] == FeatherFile(nested[i], NestedClassName(nested[i], prefix)))
  {
    var prefix := FeatherPrefix(root, kind, instanceId, urisafe);
    files := [];
    for i := 0 to |topLevel|
      invariant |files| == i
      invariant forall m :: 0 <= m < i ==> files[m] == FeatherFile(topLevel[m], TopLevelClassName(topLevel[m], prefix))
    {
      var clsName := ReplaceAll(ReplaceAll(topLevel[i], prefix + "/", ""), ".feather", "");
      files := files + [FeatherFile(topLevel[i], clsName)];
    }
    for i := 0 to |nested|
      invariant |files| == |topLevel| + i
      invariant forall m :: 0 <= m < |topLevel| ==> files[m] == FeatherFile(topLevel[m], TopLevelClassName(topLevel[m], prefix))
      invariant forall m :: 0 <= m < i ==>
        files[|topLevel| + m] == FeatherFile(nested[m], NestedClassName(nested[m], prefix))
    {
      var insClsName := ParentName(ReplaceAll(nested[i], prefix + "/", ""));
      files := files + [FeatherFile(nested[i], insClsName)];
    }
  }

  /** No occurrence of `p` is possible in a string lacking one of `p`'s characters. */
  lemma MissingCharNoOccurrence(s: string, p: string, ch: char)
    requires ch in p && ch !in s
    ensures !Contains(s, p)
  {
    forall i: nat | i <= |s| ensures !OccursAt(s, p, i) {
      var m :| 0 <= m < |p| && p[m] == ch;
    }
  }

  /** Removing a leading `pat` that occurs nowhere else leaves the rest. */
  lemma ReplaceAllStripsPrefix(pat: string, rest: string)
    requires |pat| > 0 && !Contains(rest, pat)
    ensures ReplaceAll(pat + rest, pat, "") == rest
  {
    var s := pat + rest;
    assert s[..|pat|] == pat;
    assert s[|pat|..] == rest;
    ReplaceAllAbsent(rest, pat, "");
  }

  /** A file `{prefix}/{name}.feather` is read as class `name`, for a class
      file name without `/` or `.` (as `class_to_filename` makes them). */
  lemma TopLevelClassNameOf(prefix: string, name: string)
    requires '/' !in name && '.' !in name
    ensures TopLevelClassName(prefix + "/" + name + ".feather", prefix) == name
  {
    var rest := name + ".feather";
    assert '/' !in rest by {
      forall i | 0 <= i < |rest| ensures rest[i] != '/' {
        if i >= |name| { assert rest[i] == ".feather"[i - |name|]; }
      }
    }
    assert (prefix + "/")[|prefix|] == '/';
    MissingCharNoOccurrence(rest, prefix + "/", '/');
    assert prefix + "/" + name + ".feather" == (prefix + "/") + rest;
    ReplaceAllStripsPrefix(prefix + "/", rest);
    forall i: nat | i < |name| ensures !OccursAt(rest, ".feather", i) {
      assert rest[i] == name[i];
    }
    ReplaceAllStripsSuffix(name, ".feather");
  }

  /** A file `{prefix}/{cls}/{file}` is read as class `cls`. */
  lemma NestedClassNameOfChild(prefix: string, cls: string, file: string)
    requires IsSegment(cls) && IsSegment(file)
    requires !Contains(cls + "/" + file, prefix + "/")
    ensures NestedClassName(prefix + "/" + cls + "/" + file, prefix) == cls
  {
    assert prefix + "/" + cls + "/" + file == (prefix + "/") + (cls + "/" + file);
    ReplaceAllStripsPrefix(prefix + "/", cls + "/" + file);
    ParentNameOfChild(cls, file);
  }

  /** A file `{prefix}/{dirs}/{cls}/{file}` deeper down is read as class `cls`. */
  lemma NestedClassNameOfDeep(prefix: string, dirs: string, cls: string, file: string)
    requires IsSegment(cls) && IsSegment(file)
    requires !Contains(dirs + "/" + cls + "/" + file, prefix + "/")
    ensures NestedClassName(prefix + "/" + dirs + "/" + cls + "/" + file, prefix) == cls
  {
    assert prefix + "/" + dirs + "/" + cls + "/" + file == (prefix + "/") + (dirs + "/" + cls + "/" + file);
    ReplaceAllStripsPrefix(prefix + "/", dirs + "/" + cls + "/" + file);
    ParentNameOfNested(dirs, cls, file);
  }

  // ---------------------------------------------------------------------------
  // _read_feather

  /** An Arrow table's rows. */
  type Table = seq<seq<int>>

  /** A listed file and what `_read_feather_file` returned for it (`None` for a
      missing or unreadable file). */
  datatype FileRead = FileRead(file: FeatherFile, table: Option<Table>)

  /** The `defaultdict(list)` keyed by class name, in insertion order. */
  type Groups = seq<(string, seq<DataObject>)>

  function Names(groups: Groups): seq<string> {
    seq(|groups|, i requires 0 <= i < |groups| => groups[i].0)
  }

  /** `data[name].extend(objs)` */
  function Extend(groups: Groups, name: string, objs: seq<DataObject>): Groups
    decreases |groups|
  {
    if groups == [] then [(name, objs)]
    else if groups[0].0 == name then [(name, groups[0].1 + objs)] + groups[1..]
    else [groups[0]] + Extend(groups[1..], name, objs)
  }

  /** `sum(data.values(), [])` */
  function Concat(groups: Groups): seq<DataObject>
    decreases |groups|
  {
    if groups == [] then [] else groups[0].1 + Concat(groups[1..])
  }

  /** Extending a group adds exactly the new objects. */
  lemma {:induction false} ExtendAdds(groups: Groups, name: string, objs: seq<DataObject>)
    ensures multiset(Concat(Extend(groups, name, objs))) == multiset(Concat(groups)) + multiset(objs)
    decreases |groups|
  {
    if groups != [] && groups[0].0 != name {
      ExtendAdds(groups[1..], name, objs);
      var g := [groups[0]] + Extend(groups[1..], name, objs);
      assert g[1..] == Extend(groups[1..], name, objs);
    } else if groups != [] {
      var g := [(name, groups[0].1 + objs)] + groups[1..];
      assert g[1..] == groups[1..];
    }
  }

  lemma NamesCons(g: (string, seq<DataObject>), groups: Groups)
    ensures Names([g] + groups) == [g.0] + Names(groups)
  {
    var r := [g] + groups;
    forall i | 0 <= i < |r| ensures Names(r)[i] == ([g.0] + Names(groups))[i] {
      if i > 0 { assert r[i] == groups[i - 1]; }
    }
  }

  /** Extending keeps one entry per class name: a new name goes last. */
  lemma {:induction false} ExtendNames(groups: Groups, name: string, objs: seq<DataObject>)
    ensures Names(Extend(groups, name, objs)) == if name in Names(groups) then Names(groups) else Names(groups) + [name]
    decreases |groups|
  {
    if groups == [] {
      assert Names([(name, objs)]) == [name];
    } else {
      var tail := groups[1..];
      assert groups == [groups[0]] + tail;
      NamesCons(groups[0], tail);
      if groups[0].0 == name {
        NamesCons((name, groups[0].1 + objs), tail);
      } else {
        ExtendNames(tail, name, objs);
        NamesCons(groups[0], Extend(tail, name, objs));
        ConcatAssociative([name], Names(tail), [name]);
      }
    }
  }

  predicate Usable(r: FileRead) {
    r.table.Some? && |r.table.value| > 0
  }

  /** `class_mapping[cls_name]` then `_handle_table_nautilus`; `None` when
      either raises. `deserialize` stands for the Arrow deserialisation. */
  function Deserialized(r: FileRead, known: set<string>, deserialize: (string, Table) -> Option<seq<DataObject>>): Option<seq<DataObject>>
    requires Usable(r)
  {
    if r.file.className in known then deserialize(r.file.className, r.table.value) else None
  }

  /** The groups after reading `results` in order; `None` once a failed
      deserialisation is re-raised. */
  function GroupsAfter(results: seq<FileRead>, known: set<string>, deserialize: (string, Table) -> Option<seq<DataObject>>,
                       raiseOnFailed: bool): Option<Groups>
    decreases |results|
  {
    if results == [] then Some([])
    else
      var r := results[|results| - 1];
      match GroupsAfter(results[..|results| - 1], known, deserialize, raiseOnFailed)
      case None => None
      case Some(groups) =>
        if !Usable(r) then Some(groups)
        else match Deserialized(r, known, deserialize)
          case None => if raiseOnFailed then None else Some(groups)
          case Some(objs) => Some(Extend(groups, r.file.className, objs))
  }

  /** Every object deserialised from a usable file, in file order. */
  function Loaded(results: seq<FileRead>, known: set<string>, deserialize: (string, Table) -> Option<seq<DataObject>>): seq<DataObject>
    decreases |results|
  {
    if results == [] then []
    else
      var r := results[|results| - 1];
      Loaded(results[..|results| - 1], known, deserialize)
      + (if Usable(r) && Deserialized(r, known, deserialize).Some? then Deserialized(r, known, deserialize).value else [])
  }

  /** Unless it raised, reading gathers exactly the objects of the usable,
      deserialisable files, one group per class name. */
  lemma {:induction false} GroupsHoldLoaded(results: seq<FileRead>, known: set<string>,
                                            deserialize: (string, Table) -> Option<seq<DataObject>>, raiseOnFailed: bool)
    requires GroupsAfter(results, known, deserialize, raiseOnFailed).Some?
    ensures var groups := GroupsAfter(results, known, deserialize, raiseOnFailed).value;
      multiset(Concat(groups)) == multiset(Loaded(results, known, deserialize))
    decreases |results|
  {
    if results != [] {
      var init := results[..|results| - 1];
      var r := results[|results| - 1];
      GroupsHoldLoaded(init, known, deserialize, raiseOnFailed);
      var groups := GroupsAfter(init, known, deserialize, raiseOnFailed).value;
      if Usable(r) && Deserialized(r, known, deserialize).Some? {
        ExtendAdds(groups, r.file.className, Deserialized(r, known, deserialize).value);
      }
    }
  }

  /** Reading raises exactly when failures are re-raised and some usable file
      fails to deserialise. */
  lemma {:induction false} RaisesIffFailure(results: seq<FileRead>, known: set<string>,
                                            deserialize: (string, Table) -> Option<seq<DataObject>>, raiseOnFailed: bool)
    ensures GroupsAfter(results, known, deserialize, raiseOnFailed).None? <==>
      raiseOnFailed && exists i :: 0 <= i < |results| && Usable(results[i]) && Deserialized(results[i], known, deserialize).None?
    decreases |results|
  {
    if results != [] {
      var init := results[..|results| - 1];
      RaisesIffFailure(init, known, deserialize, raiseOnFailed);
      forall i | 0 <= i < |init| ensures init[i] == results[i] { }
      if raiseOnFailed && GroupsAfter(init, known, deserialize, raiseOnFailed).None? {
        var i :| 0 <= i < |init| && Usable(init[i]) && Deserialized(init[i], known, deserialize).None?;
        assert results[i] == init[i];
      }
      if raiseOnFailed && GroupsAfter(results, known, deserialize, raiseOnFailed).Some? {
        forall i | 0 <= i < |results| && Usable(results[i]) ensures Deserialized(results[i], known, deserialize).Some? {
          if i < |init| { assert results[i] == init[i]; }
        }
      }
    }
  }

  /** A missing, unreadable or empty file contributes nothing, wherever it
      stands in the list: reading it leaves the groups and the loaded objects
      as they were. */
  lemma UnusableFileContributesNothing(results: seq<FileRead>, r: FileRead, known: set<string>,
                                       deserialize: (string, Table) -> Option<seq<DataObject>>, raiseOnFailed: bool)
    requires !Usable(r)
    ensures GroupsAfter(results + [r], known, deserialize, raiseOnFailed) == GroupsAfter(results, known, deserialize, raiseOnFailed)
    ensures Loaded(results + [r], known, deserialize) == Loaded(results, known, deserialize)
  {
    assert (results + [r])[..|results|] == results;
  }

  /** A list of files that are all missing, unreadable or empty loads nothing. */
  lemma {:induction false} UnusableFilesIgnored(results: seq<FileRead>, known: set<string>,
                                                deserialize: (string, Table) -> Option<seq<DataObject>>)
    requires forall i :: 0 <= i < |results| ==> !Usable(results[i])
    ensures Loaded(results, known, deserialize) == []
    decreases |results|
  {
    if results != [] {
      var init := results[..|results| - 1];
      forall i | 0 <= i < |init| ensures !Usable(init[i]) { assert init[i] == results[i]; }
      UnusableFilesIgnored(init, known, deserialize);
    }
  }

  predicate TsInitLe(a: DataObject, b: DataObject) {
    a.tsInit <= b.tsInit
  }

  /** `_read_feather`, given the listed files and what reading each returned:
      skip a missing or empty table, deserialise the rest into per-class
      lists (re-raising a failure only when asked to), and return every object
      sorted by `ts_init`. */
  method ReadFeather(results: seq<FileRead>, known: set<string>,
                     deserialize: (string, Table) -> Option<seq<DataObject>>, raiseOnFailed: bool)
    returns (objects: seq<DataObject>, raised: bool)
    ensures raised <==> GroupsAfter(results, known, deserialize, raiseOnFailed).None?
    ensures !raised ==> objects == SortBy(Concat(GroupsAfter(results, known, deserialize, raiseOnFailed).value), TsInitLe)
    ensures !raised ==> SortedBy(objects, TsInitLe)
    ensures !raised ==> multiset(objects) == multiset(Loaded(results, known, deserialize))
    ensures raised ==> objects == []
  {
    var data: Groups := [];
    for i := 0 to |results|
      invariant GroupsAfter(results[..i], known, deserialize, raiseOnFailed) == Some(data)
    {
      assert results[..i + 1][..i] == results[..i];
      var r := results[i];
      if r.table.None? || |r.table.value| == 0 {
        continue;
      }
      var clsName := r.file.className;
      if clsName !in known || deserialize(clsName, r.table.value).None? {
        if raiseOnFailed {
          assert GroupsAfter(results[..i + 1], known, deserialize, raiseOnFailed).None?;
          PrefixRaisedStaysRaised(results, i + 1, known, deserialize, raiseOnFailed);
          return [], true;
        }
        continue;
      }
      data := Extend(data, clsName, deserialize(clsName, r.table.value).value);
    }
    assert results[..|results|] == results;
    GroupsHoldLoaded(results, known, deserialize, raiseOnFailed);
    objects := SortBy(Concat(data), TsInitLe);
    raised := false;
  }

  /** Once a prefix of the files has raised, reading all of them raises. */
  lemma {:induction false} PrefixRaisedStaysRaised(results: seq<FileRead>, n: nat, known: set<string>,
                                                   deserialize: (string, Table) -> Option<seq<DataObject>>, raiseOnFailed: bool)
    requires n <= |results|
    requires GroupsAfter(results[..n], known, deserialize, raiseOnFailed).None?
    ensures GroupsAfter(results, known, deserialize, raiseOnFailed).None?
    decreases |results| - n
  {
    if n < |results| {
      assert results[..n + 1][..n] == results[..n];
      PrefixRaisedStaysRaised(results, n + 1, known, deserialize, raiseOnFailed);
    } else {
      assert results[..n] == results;
    }
  }
}
