/**
 * Geometry providers (shapecutter/providers/geometry.py): look up one
 * geometry of a geometry store by an attribute (key, value) reference, and
 * report its bounds.
 *
 * Two stores are supported. A Cartopy reader is a sequence of records, each
 * an attribute map and a geometry; its provider is a class that scans the
 * records for the first match and caches the answer. A GeoPandas frame is a
 * table of rows; its provider filters the rows and has no state of its own.
 */
module GeometryProviders {
  import opened Values
  import opened Errors
  import opened Shapes

  // ---------------------------------------------------------------------------
  // Geometry references (_GeometryProvider._handle_geometry_ref)

  /** A reference as callers pass it: a tuple or list, or a dict. */
  datatype GeometryRef = Items(elems: seq<Value>) | Dict(entries: seq<(Value, Value)>)

  /**
   * The code as written: a dict is replaced by the list of its items, and then
   * elements 0 and 1 are taken. A dict's key and value therefore never come
   * back as the pair; a single-entry dict has no element 1.
   */
  function HandleGeometryRefAsWritten(ref: GeometryRef): (r: Result<(Value, Value)>)
    ensures ref.Dict? && r.Ok? ==> r.value.0.Tuple? && r.value.1.Tuple?
  {
    var elems := match ref
      case Items(e) => e
      case Dict(d) => seq(|d|, i requires 0 <= i < |d| => Tuple(d[i].0, d[i].1));
    if |elems| < 2 then Err(IndexError) else Ok((elems[0], elems[1]))
  }

  /**
   * The evident intent: a tuple or list gives its first two elements, a dict
   * gives its first (key, value) pair. Too short a reference raises
   * IndexError.
   */
  function HandleGeometryRef(ref: GeometryRef): (r: Result<(Value, Value)>)
    ensures ref.Items? ==> (r.Ok? <==> |ref.elems| >= 2)
    ensures ref.Items? && r.Ok? ==> r.value == (ref.elems[0], ref.elems[1])
    ensures ref.Dict? ==> (r.Ok? <==> |ref.entries| >= 1)
    ensures ref.Dict? && r.Ok? ==> r.value == ref.entries[0]
    ensures r.Err? ==> r.error == IndexError
  {
    match ref
    case Items(e) => if |e| < 2 then Err(IndexError) else Ok((e[0], e[1]))
    case Dict(d) => if |d| < 1 then Err(IndexError) else Ok(d[0])
  }

  /**
   * The single-entry dict `{key: value}` that callers pass fails with
   * IndexError as written, while the intended handling yields its pair.
   */
  lemma SingleEntryDictFailsAsWritten(key: Value, value: Value)
    ensures HandleGeometryRefAsWritten(Dict([(key, value)])) == Err(IndexError)
    ensures HandleGeometryRef(Dict([(key, value)])) == Ok((key, value))
  {
  }

  // ---------------------------------------------------------------------------
  // Records, the cache key, and the first-match scan

  /** A store entry: its attributes and its geometry. */
  datatype Record = Record(attributes: map<Value, Value>, geometry: Geometry)

  /**
   * The cache key `f"{query_key},{query_val}"`: the key's text, a comma, and
   * the value's text.
   */
  function GeomUid(key: Value, value: Value): (uid: string)
    ensures |uid| == |Format(key)| + 1 + |Format(value)|
    ensures uid[..|Format(key)|] == Format(key) && uid[|Format(key)|] == ','
    ensures uid[|Format(key)| + 1..] == Format(value)
  {
    Format(key) + "," + Format(value)
  }

  /** Two different references whose joined strings coincide share one cache entry. */
  lemma CacheKeyCollision()
    ensures (Str("a,b"), Str("c")) != (Str("a"), Str("b,c"))
    ensures GeomUid(Str("a,b"), Str("c")) == GeomUid(Str("a"), Str("b,c"))
  {
  }

  /** What a scan of the records ends in. */
  datatype Scan = Found(geometry: Geometry) | NotFound | Raised(error: Error)

  /**
   * The loop over the records: stop at the first record whose attribute
   * `key` equals `value`; a record without attribute `key` raises KeyError.
   */
  function ScanRecords(records: seq<Record>, key: Value, value: Value): (s: Scan)
    ensures s.Raised? ==> s.error == KeyError(key)
    decreases |records|
  {
    if records == [] then NotFound
    else if key !in records[0].attributes then Raised(KeyError(key))
    else if records[0].attributes[key] == value then Found(records[0].geometry)
    else ScanRecords(records[1..], key, value)
  }

  /** Record `i` matches and every record before it has the attribute with another value. */
  predicate FirstMatchAt(records: seq<Record>, key: Value, value: Value, i: int) {
    && 0 <= i < |records|
    && key in records[i].attributes && records[i].attributes[key] == value
    && forall j :: 0 <= j < i ==> key in records[j].attributes && records[j].attributes[key] != value
  }

  /** Every record has the attribute, with another value. */
  predicate NoneMatch(records: seq<Record>, key: Value, value: Value) {
    forall j :: 0 <= j < |records| ==> key in records[j].attributes && records[j].attributes[key] != value
  }

  /** Past a first record that has the attribute with another value, the first match moves one place. */
  lemma FirstMatchShift(records: seq<Record>, key: Value, value: Value, i: int)
    requires records != [] && key in records[0].attributes && records[0].attributes[key] != value
    ensures FirstMatchAt(records, key, value, i) <==> i > 0 && FirstMatchAt(records[1..], key, value, i - 1)
  {
    if FirstMatchAt(records, key, value, i) {
      assert i != 0;
      forall j | 0 <= j < i - 1
        ensures key in records[1..][j].attributes && records[1..][j].attributes[key] != value
      {
        assert records[1..][j] == records[j + 1];
      }
    }
    if i > 0 && FirstMatchAt(records[1..], key, value, i - 1) {
      forall j | 0 <= j < i
        ensures key in records[j].attributes && records[j].attributes[key] != value
      {
        if j > 0 {
          assert records[j] == records[1..][j - 1];
        }
      }
    }
  }

  /** The scan finds a geometry exactly when it is the geometry of the first matching record. */
  lemma {:induction false} ScanFoundIffFirstMatch(records: seq<Record>, key: Value, value: Value)
    ensures forall g :: ScanRecords(records, key, value) == Found(g) <==>
      exists i :: FirstMatchAt(records, key, value, i) && records[i].geometry == g
    decreases |records|
  {
    if records != [] && key in records[0].attributes && records[0].attributes[key] != value {
      var rest := records[1..];
      ScanFoundIffFirstMatch(rest, key, value);
      forall g | ScanRecords(records, key, value) == Found(g)
        ensures exists i :: FirstMatchAt(records, key, value, i) && records[i].geometry == g
      {
        var i :| FirstMatchAt(rest, key, value, i) && rest[i].geometry == g;
        FirstMatchShift(records, key, value, i + 1);
      }
      forall g | exists i :: FirstMatchAt(records, key, value, i) && records[i].geometry == g
        ensures ScanRecords(records, key, value) == Found(g)
      {
        var i :| FirstMatchAt(records, key, value, i) && records[i].geometry == g;
        FirstMatchShift(records, key, value, i);
      }
    } else if records != [] && key in records[0].attributes {
      assert FirstMatchAt(records, key, value, 0);
      forall g | exists i :: FirstMatchAt(records, key, value, i) && records[i].geometry == g
        ensures ScanRecords(records, key, value) == Found(g)
      {
        var i :| FirstMatchAt(records, key, value, i) && records[i].geometry == g;
        assert i == 0;
      }
    }
  }

  /** The scan finds nothing exactly when every record carries the attribute with another value. */
  lemma {:induction false} ScanNotFoundIffNoneMatch(records: seq<Record>, key: Value, value: Value)
    ensures ScanRecords(records, key, value) == NotFound <==> NoneMatch(records, key, value)
    decreases |records|
  {
    if records != [] && key in records[0].attributes && records[0].attributes[key] != value {
      var rest := records[1..];
      ScanNotFoundIffNoneMatch(rest, key, value);
      if NoneMatch(rest, key, value) {
        forall j | 0 <= j < |records|
          ensures key in records[j].attributes && records[j].attributes[key] != value
        {
          if j > 0 {
            assert records[j] == rest[j - 1];
          }
        }
      }
      if NoneMatch(records, key, value) {
        forall j | 0 <= j < |rest|
          ensures key in rest[j].attributes && rest[j].attributes[key] != value
        {
          assert rest[j] == records[j + 1];
        }
      }
    } else if records != [] {
      assert !(key in records[0].attributes && records[0].attributes[key] != value);
    }
  }

  /**
   * The scan finds the geometry of the first matching record, and finds
   * nothing exactly when every record carries the attribute with another
   * value; any other outcome is a KeyError for the attribute.
   */
  lemma ScanFindsFirstMatch(records: seq<Record>, key: Value, value: Value)
    ensures forall g :: ScanRecords(records, key, value) == Found(g) <==>
      exists i :: FirstMatchAt(records, key, value, i) && records[i].geometry == g
    ensures ScanRecords(records, key, value) == NotFound <==> NoneMatch(records, key, value)
    ensures ScanRecords(records, key, value).Raised? ==> ScanRecords(records, key, value).error == KeyError(key)
  {
    ScanFoundIffFirstMatch(records, key, value);
    ScanNotFoundIffNoneMatch(records, key, value);
  }

  // ---------------------------------------------------------------------------
  // The Cartopy lookup with its cache, as a function of the cache

  /**
   * `CartopyGeometryProvider[ref]` on a cache: a cached entry is returned
   * without scanning; otherwise the records are scanned, a found geometry is
   * cached, and the final cache read raises KeyError for the cache key when
   * nothing was found. A call adds at most the reference's own entry and
   * never changes an existing one; a failing call changes nothing.
   */
  function Resolve(records: seq<Record>, cache: map<string, Geometry>, ref: GeometryRef)
    : (res: (Result<Geometry>, map<string, Geometry>))
    ensures forall u :: u in cache ==> u in res.1 && res.1[u] == cache[u]
    ensures forall u :: u in res.1 && u !in cache ==>
      && HandleGeometryRef(ref).Ok?
      && u == GeomUid(HandleGeometryRef(ref).value.0, HandleGeometryRef(ref).value.1)
      && res.0 == Ok(res.1[u])
    ensures res.0.Err? ==> res.1 == cache
    ensures HandleGeometryRef(ref).Err? ==> res.0 == Err(IndexError)
    ensures HandleGeometryRef(ref).Ok? ==>
      var (key, value) := HandleGeometryRef(ref).value;
      var uid := GeomUid(key, value);
      && (uid in cache ==> res == (Ok(cache[uid]), cache))
      && (uid !in cache && ScanRecords(records, key, value).Found? ==>
            res.0 == Ok(ScanRecords(records, key, value).geometry) && uid in res.1)
      && (uid !in cache && ScanRecords(records, key, value).NotFound? ==>
            res.0 == Err(KeyError(Str(uid))))
      && (uid !in cache && ScanRecords(records, key, value).Raised? ==>
            res.0 == Err(KeyError(key)))
  {
    match HandleGeometryRef(ref)
    case Err(e) => (Err(e), cache)
    case Ok((key, value)) =>
      ScanFindsFirstMatch(records, key, value);
      var uid := GeomUid(key, value);
      if uid in cache then (Ok(cache[uid]), cache)
      else match ScanRecords(records, key, value)
        case Found(g) => (Ok(g), cache[uid := g])
        case NotFound => (Err(KeyError(Str(uid))), cache)
        case Raised(e) => (Err(e), cache)
  }

  /**
   * Every cached geometry is what a scan finds for some reference with that
   * cache key (not necessarily the reference now asking: see
   * `CollidingReferenceGetsCachedGeometry`).
   */
  ghost predicate CacheSound(records: seq<Record>, cache: map<string, Geometry>) {
    forall uid :: uid in cache ==>
      exists key, value :: GeomUid(key, value) == uid && ScanRecords(records, key, value) == Found(cache[uid])
  }

  /** Resolving keeps the cache sound. */
  lemma ResolveKeepsCacheSound(records: seq<Record>, cache: map<string, Geometry>, ref: GeometryRef)
    requires CacheSound(records, cache)
    ensures CacheSound(records, Resolve(records, cache, ref).1)
  {
    var c := Resolve(records, cache, ref).1;
    forall uid | uid in c
      ensures exists key, value :: GeomUid(key, value) == uid && ScanRecords(records, key, value) == Found(c[uid])
    {
      if uid !in cache {
        var (key, value) := HandleGeometryRef(ref).value;
        assert GeomUid(key, value) == uid && ScanRecords(records, key, value) == Found(c[uid]);
      }
    }
  }

  /**
   * Asking again with the cache a lookup left behind gives the same answer and
   * leaves the cache as it is: found geometries come from the cache, and a
   * failed lookup failed without touching it.
   */
  lemma ResolveIdempotent(records: seq<Record>, cache: map<string, Geometry>, ref: GeometryRef)
    ensures var (r1, c1) := Resolve(records, cache, ref);
      Resolve(records, c1, ref) == (r1, c1)
  {
  }

  /**
   * Because of the shared cache key, a reference can be served a geometry its
   * own scan would not find: here ("a", "b,c") matches no record, yet after a
   * lookup of ("a,b", "c") it gets that record's geometry.
   */
  lemma CollidingReferenceGetsCachedGeometry(g: Geometry)
    ensures var records := [Record(map[Str("a,b") := Str("c"), Str("a") := Str("x")], g)];
      var first := Items([Str("a,b"), Str("c")]);
      var second := Items([Str("a"), Str("b,c")]);
      && ScanRecords(records, Str("a"), Str("b,c")) == NotFound
      && Resolve(records, map[], second).0.Err?
      && Resolve(records, Resolve(records, map[], first).1, second).0 == Ok(g)
  {
    var records := [Record(map[Str("a,b") := Str("c"), Str("a") := Str("x")], g)];
    assert GeomUid(Str("a,b"), Str("c")) == GeomUid(Str("a"), Str("b,c"));
    assert ScanRecords(records[1..], Str("a"), Str("b,c")) == NotFound;
  }

  // ---------------------------------------------------------------------------
  // Named bounds

  /** The bound names, in the order of the bounds tuple (as geopandas names them). */
  const BoundNames: seq<string> := ["minx", "miny", "maxx", "maxy"]

  /** `names.index(x)`: the first position of `x`. */
  function IndexOf(names: seq<string>, x: string): (i: nat)
    requires x in names
    ensures i < |names| && names[i] == x
    ensures forall j :: 0 <= j < i ==> names[j] != x
  {
    if names[0] == x then 0 else 1 + IndexOf(names[1..], x)
  }

  /** `{n: names.index(n) for n in names}`. */
  function NamedBoundsOf(names: seq<string>): (m: map<string, nat>)
    ensures forall n :: n in m <==> n in names
    ensures forall n :: n in m ==> m[n] < |names| && names[m[n]] == n
  {
    map n | n in names :: IndexOf(names, n)
  }

  /** The named-bound table sends minx, miny, maxx, maxy to 0, 1, 2, 3 and knows no other name. */
  lemma NamedBoundPositions()
    ensures NamedBoundsOf(BoundNames) == map["minx" := 0, "miny" := 1, "maxx" := 2, "maxy" := 3]
  {
    var m := NamedBoundsOf(BoundNames);
    assert IndexOf(BoundNames, "minx") == 0;
    assert IndexOf(BoundNames, "miny") == 1 by { assert BoundNames[1..][0] == "miny"; }
    assert IndexOf(BoundNames, "maxx") == 2 by { assert BoundNames[1..][1..][0] == "maxx"; }
    assert IndexOf(BoundNames, "maxy") == 3 by { assert BoundNames[1..][1..][1..][0] == "maxy"; }
  }

  /** The ValueError message for an unknown bound name. */
  function BoundNameMessage(name: string): (m: string)
    ensures |m| > |Repr(Str(name))| && m[|m| - |Repr(Str(name))| - 1..] == Repr(Str(name)) + "."
  {
    var m := "Expected `bound_ref` to be one of " + ListRepr(BoundNames) + ", got " + Repr(Str(name)) + ".";
    assert m == ("Expected `bound_ref` to be one of " + ListRepr(BoundNames) + ", got ") + (Repr(Str(name)) + ".");
    m
  }

  /** The message lists each of the four names. */
  lemma BoundNameMessageListsNames(name: string)
    ensures forall n :: n in BoundNames ==> Contains(BoundNameMessage(name), "'" + n + "'")
  {
    ListReprShowsItems(BoundNames);
    var pre := "Expected `bound_ref` to be one of ";
    forall n | n in BoundNames
      ensures Contains(BoundNameMessage(name), "'" + n + "'")
    {
      var part := "'" + n + "'";
      ContainsInSuffix(pre, ListRepr(BoundNames), part);
      ContainsInPrefix(pre + ListRepr(BoundNames), ", got ", part);
      ContainsInPrefix(pre + ListRepr(BoundNames) + ", got ", Repr(Str(name)), part);
      ContainsInPrefix(pre + ListRepr(BoundNames) + ", got " + Repr(Str(name)), ".", part);
    }
  }

  /**
   * `get_named_bound` of the Cartopy provider on a cache: the geometry's
   * bounds are fetched first, so a failed lookup wins; then minx, miny, maxx,
   * maxy pick positions 0 to 3 of the bounds and any other name raises
   * ValueError.
   */
  function CartopyNamedBound(records: seq<Record>, cache: map<string, Geometry>, ref: GeometryRef, name: string)
    : (res: (Result<real>, map<string, Geometry>))
    ensures res.1 == Resolve(records, cache, ref).1
    ensures Resolve(records, cache, ref).0.Err? ==> res.0 == Err(Resolve(records, cache, ref).0.error)
    ensures Resolve(records, cache, ref).0.Ok? ==>
      var b := Resolve(records, cache, ref).0.value.bounds;
      && (name == "minx" ==> res.0 == Ok(b.minx))
      && (name == "miny" ==> res.0 == Ok(b.miny))
      && (name == "maxx" ==> res.0 == Ok(b.maxx))
      && (name == "maxy" ==> res.0 == Ok(b.maxy))
      && (name !in BoundNames ==> res.0 == Err(ValueError(BoundNameMessage(name))))
  {
    NamedBoundPositions();
    var (g, c) := Resolve(records, cache, ref);
    if g.Err? then (Err(g.error), c)
    else if name !in NamedBoundsOf(BoundNames) then (Err(ValueError(BoundNameMessage(name))), c)
    else (Ok(g.value.bounds.At(NamedBoundsOf(BoundNames)[name])), c)
  }

  // ---------------------------------------------------------------------------
  // CartopyGeometryProvider

  /**
   * The provider over a Cartopy reader. `records` is what the reader's
   * `records()` yields, every time it is asked; `geomLookup` is the cache.
   */
  class CartopyGeometryProvider {
    const records: seq<Record>
    var geomLookup: map<string, Geometry>
    const names: seq<string>
    const namedBounds: map<string, nat>

    ghost predicate Valid()
      reads this
    {
      && names == BoundNames
      && namedBounds == NamedBoundsOf(names)
      && CacheSound(records, geomLookup)
    }

    constructor (records: seq<Record>)
      ensures Valid()
      ensures this.records == records && geomLookup == map[]
    {
      this.records := records;
      geomLookup := map[];
      names := BoundNames;
      namedBounds := NamedBoundsOf(BoundNames);
    }

    /**
     * `provider[ref]`, with the parameter name the body uses (the code binds
     * `keys` and reads `key`; see `CartopyGetItemAsWritten`).
     */
    method GetItem(ref: GeometryRef) returns (r: Result<Geometry>)
      requires Valid()
      modifies this
      ensures Valid()
      ensures (r, geomLookup) == Resolve(records, old(geomLookup), ref)
    {
      ResolveKeepsCacheSound(records, geomLookup, ref);
      var handled := HandleGeometryRef(ref);
      if handled.Err? {
        return Err(handled.error);
      }
      var (queryKey, queryVal) := handled.value;
      var geomUid := GeomUid(queryKey, queryVal);
      if geomUid !in geomLookup {
        var i := 0;
        while i < |records|
          invariant 0 <= i <= |records|
          invariant geomLookup == old(geomLookup)
          invariant ScanRecords(records[i..], queryKey, queryVal) == ScanRecords(records, queryKey, queryVal)
        {
          var rcd := records[i];
          assert records[i..][0] == rcd && records[i..][1..] == records[i + 1..];
          if queryKey !in rcd.attributes {
            return Err(KeyError(queryKey));
          }
          if rcd.attributes[queryKey] == queryVal {
            geomLookup := geomLookup[geomUid := rcd.geometry];
            break;
          }
          i := i + 1;
        }
      }
      if geomUid !in geomLookup {
        return Err(KeyError(Str(geomUid)));
      }
      r := Ok(geomLookup[geomUid]);
    }

    /** `get_bounds`, which is also `get_bounds_points`: the bounds of the looked-up geometry. */
    method GetBoundsPoints(ref: GeometryRef) returns (r: Result<Bounds>)
      requires Valid()
      modifies this
      ensures Valid()
      ensures geomLookup == Resolve(records, old(geomLookup), ref).1
      ensures r == match Resolve(records, old(geomLookup), ref).0
        case Ok(g) => Ok(g.bounds)
        case Err(e) => Err(e)
    {
      var g := GetItem(ref);
      r := if g.Ok? then Ok(g.value.bounds) else Err(g.error);
    }

    method GetNamedBound(ref: GeometryRef, boundRef: string) returns (r: Result<real>)
      requires Valid()
      modifies this
      ensures Valid()
      ensures (r, geomLookup) == CartopyNamedBound(records, old(geomLookup), ref, boundRef)
    {
      var bounds := GetBoundsPoints(ref);
      if bounds.Err? {
        return Err(bounds.error);
      }
      if boundRef !in namedBounds {
        return Err(ValueError(BoundNameMessage(boundRef)));
      }
      NamedBoundPositions();
      r := Ok(bounds.value.At(namedBounds[boundRef]));
    }
  }

  /**
   * `CartopyGeometryProvider.__getitem__` as written: the parameter is bound
   * as `keys` but the body reads `key`, so every lookup raises NameError.
   */
  function CartopyGetItemAsWritten(ref: GeometryRef): (r: Result<Geometry>)
    ensures r == Err(NameError("key"))
  {
    Err(NameError("key"))
  }

  /** A reference that the intended lookup resolves still fails as written. */
  lemma CartopyLookupFailsAsWritten(g: Geometry)
    ensures var records := [Record(map[Str("name") := Str("Indiana")], g)];
      var ref := Items([Str("name"), Str("Indiana")]);
      && Resolve(records, map[], ref).0 == Ok(g)
      && CartopyGetItemAsWritten(ref).Err?
  {
  }

  // ---------------------------------------------------------------------------
  // GeoPandasGeometryProvider

  /** A GeoDataFrame: its attribute columns and its rows, each attributes and a geometry. */
  datatype GeoDataFrame = GeoDataFrame(columns: set<Value>, rows: seq<Record>)

  /** The row's attribute `key` exists and equals `value`. */
  predicate Matches(row: Record, key: Value, value: Value) {
    key in row.attributes && row.attributes[key] == value
  }

  /** `sub` is `rows` with some entries left out, the rest in their order. */
  predicate Subsequence<T(==)>(sub: seq<T>, rows: seq<T>)
    decreases |rows|
  {
    if sub == [] then true
    else if rows == [] then false
    else (sub[0] == rows[0] && Subsequence(sub[1..], rows[1..])) || Subsequence(sub, rows[1..])
  }

  /** `frame[frame[key] == value]`: the rows whose `key` equals `value`, in order. */
  function MatchingRows(rows: seq<Record>, key: Value, value: Value): (r: seq<Record>)
    ensures |r| <= |rows|
    ensures forall row :: row in r <==> row in rows && key in row.attributes && row.attributes[key] == value
    decreases |rows|
  {
    if rows == [] then []
    else
      var head := if Matches(rows[0], key, value) then [rows[0]] else [];
      assert rows == [rows[0]] + rows[1..];
      head + MatchingRows(rows[1..], key, value)
  }

  /** The filter keeps each matching row as often as it occurs, and no other row. */
  lemma {:induction false} MatchingRowsCounts(rows: seq<Record>, key: Value, value: Value)
    ensures forall row :: multiset(MatchingRows(rows, key, value))[row] ==
                          if Matches(row, key, value) then multiset(rows)[row] else 0
    decreases |rows|
  {
    if rows != [] {
      var head := if Matches(rows[0], key, value) then [rows[0]] else [];
      var rest := MatchingRows(rows[1..], key, value);
      MatchingRowsCounts(rows[1..], key, value);
      assert MatchingRows(rows, key, value) == head + rest;
      assert rows == [rows[0]] + rows[1..];
      assert multiset(rows) == multiset([rows[0]]) + multiset(rows[1..]);
      assert multiset(head + rest) == multiset(head) + multiset(rest);
    }
  }

  /** The kept rows keep their order in the frame. */
  lemma {:induction false} MatchingRowsInOrder(rows: seq<Record>, key: Value, value: Value)
    ensures Subsequence(MatchingRows(rows, key, value), rows)
    decreases |rows|
  {
    if rows != [] {
      var head := if Matches(rows[0], key, value) then [rows[0]] else [];
      var rest := MatchingRows(rows[1..], key, value);
      MatchingRowsInOrder(rows[1..], key, value);
      assert MatchingRows(rows, key, value) == head + rest;
      if head != [] {
        assert (head + rest)[0] == rows[0] && (head + rest)[1..] == rest;
        assert Subsequence(head + rest, rows);
      } else if rest != [] {
        assert head + rest == rest;
        assert Subsequence(rest, rows);
      }
    }
  }

  /**
   * On a table where every row has the column, the first row the filter keeps
   * is the first match of a scan, and the filter keeps nothing exactly when
   * the scan finds nothing: both providers pick the same geometry.
   */
  lemma {:induction false} FirstMatchingRowIsScanMatch(rows: seq<Record>, key: Value, value: Value)
    requires forall j :: 0 <= j < |rows| ==> key in rows[j].attributes
    ensures MatchingRows(rows, key, value) == [] <==> ScanRecords(rows, key, value) == NotFound
    ensures MatchingRows(rows, key, value) != [] ==>
      ScanRecords(rows, key, value) == Found(MatchingRows(rows, key, value)[0].geometry)
    decreases |rows|
  {
    if rows != [] {
      FirstMatchingRowIsScanMatch(rows[1..], key, value);
    }
  }

  /** The geometry column of some rows. */
  function Geometries(rows: seq<Record>): (gs: seq<Geometry>)
    ensures |gs| == |rows|
  {
    seq(|rows|, i requires 0 <= i < |rows| => rows[i].geometry)
  }

  lemma GeometriesOfRows(rows: seq<Record>)
    ensures forall g :: g in Geometries(rows) <==> exists row :: row in rows && row.geometry == g
  {
    var gs := Geometries(rows);
    forall g | g in gs
      ensures exists row :: row in rows && row.geometry == g
    {
      var i :| 0 <= i < |rows| && gs[i] == g;
      assert rows[i] in rows;
    }
    forall g | exists row :: row in rows && row.geometry == g
      ensures g in gs
    {
      var row :| row in rows && row.geometry == g;
      var i :| 0 <= i < |rows| && rows[i] == row;
      assert gs[i] == g;
    }
  }

  /**
   * `provider[ref]`: the geometries of the matching rows (a GeoSeries, in row
   * order); a column the frame does not have raises KeyError.
   */
  function GeoPandasGetItem(frame: GeoDataFrame, ref: GeometryRef): (r: Result<seq<Geometry>>)
    ensures HandleGeometryRef(ref).Err? ==> r == Err(IndexError)
    ensures HandleGeometryRef(ref).Ok? ==>
      var (key, value) := HandleGeometryRef(ref).value;
      && (key !in frame.columns ==> r == Err(KeyError(key)))
      && (key in frame.columns ==> r.Ok? && |r.value| <= |frame.rows|)
      && (key in frame.columns ==> forall g :: g in r.value <==>
            exists row :: row in frame.rows && key in row.attributes && row.attributes[key] == value && row.geometry == g)
      && (key in frame.columns ==>
            var rows := MatchingRows(frame.rows, key, value);
            |r.value| == |rows| && forall i :: 0 <= i < |rows| ==> r.value[i] == rows[i].geometry)
  {
    match HandleGeometryRef(ref)
    case Err(e) => Err(e)
    case Ok((key, value)) =>
      if key !in frame.columns then Err(KeyError(key))
      else
        var rows := MatchingRows(frame.rows, key, value);
        GeometriesOfRows(rows);
        Ok(Geometries(rows))
  }

  /** `get_bounds_points`: the bounds of the first matching row; no matching row raises IndexError. */
  function GeoPandasBoundsPoints(frame: GeoDataFrame, ref: GeometryRef): (r: Result<Bounds>)
    ensures GeoPandasGetItem(frame, ref).Err? ==> r == Err(GeoPandasGetItem(frame, ref).error)
    ensures GeoPandasGetItem(frame, ref).Ok? ==>
      var gs := GeoPandasGetItem(frame, ref).value;
      (gs == [] ==> r == Err(IndexError)) && (gs != [] ==> r == Ok(gs[0].bounds))
  {
    match GeoPandasGetItem(frame, ref)
    case Err(e) => Err(e)
    case Ok(gs) => if gs == [] then Err(IndexError) else Ok(gs[0].bounds)
  }

  /**
   * `get_named_bound`: the named column of the first matching row's bounds.
   * A missing row raises IndexError first; a name that is not a bounds
   * column raises KeyError (no ValueError here, unlike Cartopy).
   */
  function GeoPandasNamedBound(frame: GeoDataFrame, ref: GeometryRef, name: string): (r: Result<real>)
    ensures GeoPandasBoundsPoints(frame, ref).Err? ==> r == Err(GeoPandasBoundsPoints(frame, ref).error)
    ensures GeoPandasBoundsPoints(frame, ref).Ok? ==>
      var b := GeoPandasBoundsPoints(frame, ref).value;
      && (name == "minx" ==> r == Ok(b.minx))
      && (name == "miny" ==> r == Ok(b.miny))
      && (name == "maxx" ==> r == Ok(b.maxx))
      && (name == "maxy" ==> r == Ok(b.maxy))
      && (name !in BoundNames ==> r == Err(KeyError(Str(name))))
  {
    NamedBoundPositions();
    match GeoPandasBoundsPoints(frame, ref)
    case Err(e) => Err(e)
    case Ok(b) =>
      if name !in NamedBoundsOf(BoundNames) then Err(KeyError(Str(name)))
      else Ok(b.At(NamedBoundsOf(BoundNames)[name]))
  }

  // ---------------------------------------------------------------------------
  // Sources, provider state, and provider selection

  /**
   * What a GeoPandas provider holds: a frame, or a path that the
   * `geometry_source` property loads on access. Reading the file is outside
   * the model: the frame the file holds is given with the path.
   */
  datatype GeoPandasSource = Frame(frame: GeoDataFrame) | Path(path: string, contents: GeoDataFrame) {
    function Loaded(): GeoDataFrame {
      match this
      case Frame(f) => f
      case Path(_, c) => c
    }
  }

  /** A geometry source as a caller passes it: a FionaReader, a GeoDataFrame or path string, or anything else. */
  datatype GeometrySource =
    | FionaReader(records: seq<Record>)
    | GeoPandasInput(input: GeoPandasSource)
    | Unsupported

  /** What a provider's answers depend on: the Cartopy records and cache, or the GeoPandas frame. */
  datatype ProviderState =
    | CartopyState(records: seq<Record>, cache: map<string, Geometry>)
    | GeoPandasState(frame: GeoDataFrame)

  /** A selected provider: a Cartopy provider object, or a GeoPandas provider over its source. */
  datatype GeometryProvider = Cartopy(cartopy: CartopyGeometryProvider) | GeoPandas(source: GeoPandasSource) {
    function Repr(): set<object> {
      if Cartopy? then {cartopy} else {}
    }

    ghost predicate Valid()
      reads Repr()
    {
      Cartopy? ==> cartopy.Valid()
    }

    ghost function State(): ProviderState
      reads Repr()
    {
      match this
      case Cartopy(p) => CartopyState(p.records, p.geomLookup)
      case GeoPandas(src) => GeoPandasState(src.Loaded())
    }
  }

  /**
   * `select_best_geometry_provider`: a FionaReader gets the Cartopy provider,
   * a GeoDataFrame or a path string gets the GeoPandas provider, and anything
   * else raises TypeError.
   */
  method SelectBestGeometryProvider(source: GeometrySource) returns (r: Result<GeometryProvider>)
    ensures r.Err? <==> source.Unsupported?
    ensures r.Err? ==> r.error == TypeError("No suitable geometry provider found.")
    ensures r.Ok? ==> r.value.Valid() && fresh(r.value.Repr())
    ensures source.FionaReader? ==> r.Ok? && r.value.Cartopy? && r.value.State() == CartopyState(source.records, map[])
    ensures source.GeoPandasInput? ==> r == Ok(GeoPandas(source.input))
  {
    match source
    case FionaReader(records) =>
      var provider := new CartopyGeometryProvider(records);
      r := Ok(Cartopy(provider));
    case GeoPandasInput(input) =>
      r := Ok(GeoPandas(input));
    case Unsupported =>
      r := Err(TypeError("No suitable geometry provider found."));
  }

  // ---------------------------------------------------------------------------
  // The three provider calls the cutter makes, on a provider state

  /** `provider[ref]` as a sequence of geometries: one for Cartopy, the matching rows for GeoPandas. */
  function StateGeometries(s: ProviderState, ref: GeometryRef): (res: (Result<seq<Geometry>>, ProviderState))
    ensures s.GeoPandasState? ==> res.1 == s
    ensures s.CartopyState? ==>
      && res.1.CartopyState? && res.1.records == s.records
      && (forall u :: u in s.cache ==> u in res.1.cache && res.1.cache[u] == s.cache[u])
      && (res.0.Ok? ==> |res.0.value| == 1)
      && (res.0.Err? ==> res.1 == s)
  {
    match s
    case CartopyState(records, cache) =>
      var (g, c) := Resolve(records, cache, ref);
      (if g.Ok? then Ok([g.value]) else Err(g.error), CartopyState(records, c))
    case GeoPandasState(frame) => (GeoPandasGetItem(frame, ref), s)
  }

  function StateBoundsPoints(s: ProviderState, ref: GeometryRef): (res: (Result<Bounds>, ProviderState))
    ensures res.1 == StateGeometries(s, ref).1
    ensures StateGeometries(s, ref).0.Err? ==> res.0 == Err(StateGeometries(s, ref).0.error)
    ensures StateGeometries(s, ref).0.Ok? && StateGeometries(s, ref).0.value != [] ==>
      res.0 == Ok(StateGeometries(s, ref).0.value[0].bounds)
  {
    match s
    case CartopyState(records, cache) =>
      var (g, c) := Resolve(records, cache, ref);
      (if g.Ok? then Ok(g.value.bounds) else Err(g.error), CartopyState(records, c))
    case GeoPandasState(frame) => (GeoPandasBoundsPoints(frame, ref), s)
  }

  function StateNamedBound(s: ProviderState, ref: GeometryRef, name: string): (res: (Result<real>, ProviderState))
    ensures res.1 == StateBoundsPoints(s, ref).1
    ensures StateBoundsPoints(s, ref).0.Err? ==> res.0 == Err(StateBoundsPoints(s, ref).0.error)
    ensures StateBoundsPoints(s, ref).0.Ok? ==>
      var b := StateBoundsPoints(s, ref).0.value;
      && (name == "minx" ==> res.0 == Ok(b.minx))
      && (name == "miny" ==> res.0 == Ok(b.miny))
      && (name == "maxx" ==> res.0 == Ok(b.maxx))
      && (name == "maxy" ==> res.0 == Ok(b.maxy))
      && (name !in BoundNames ==> res.0.Err?)
  {
    match s
    case CartopyState(records, cache) =>
      var (b, c) := CartopyNamedBound(records, cache, ref, name);
      (b, CartopyState(records, c))
    case GeoPandasState(frame) => (GeoPandasNamedBound(frame, ref, name), s)
  }

  method ProviderGeometries(p: GeometryProvider, ref: GeometryRef) returns (r: Result<seq<Geometry>>)
    requires p.Valid()
    modifies p.Repr()
    ensures p.Valid()
    ensures (r, p.State()) == StateGeometries(old(p.State()), ref)
  {
    match p
    case Cartopy(c) =>
      var g := c.GetItem(ref);
      r := if g.Ok? then Ok([g.value]) else Err(g.error);
    case GeoPandas(src) =>
      r := GeoPandasGetItem(src.Loaded(), ref);
  }

  method ProviderBoundsPoints(p: GeometryProvider, ref: GeometryRef) returns (r: Result<Bounds>)
    requires p.Valid()
    modifies p.Repr()
    ensures p.Valid()
    ensures (r, p.State()) == StateBoundsPoints(old(p.State()), ref)
  {
    match p
    case Cartopy(c) =>
      r := c.GetBoundsPoints(ref);
    case GeoPandas(src) =>
      r := GeoPandasBoundsPoints(src.Loaded(), ref);
  }

  method ProviderNamedBound(p: GeometryProvider, ref: GeometryRef, name: string) returns (r: Result<real>)
    requires p.Valid()
    modifies p.Repr()
    ensures p.Valid()
    ensures (r, p.State()) == StateNamedBound(old(p.State()), ref, name)
  {
    match p
    case Cartopy(c) =>
      r := c.GetNamedBound(ref, name);
    case GeoPandas(src) =>
      r := GeoPandasNamedBound(src.Loaded(), ref, name);
  }
}
