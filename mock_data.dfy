/**
  A helper for writing mock-data callbacks: it flattens a unit's parameter
  table to plain values (optionally checking the parameter names), projects
  columns and filters rows by parameter values.
 */
module MockData {
  import opened Host

  /** The value of a property of a plain object, if it has one. */
  function ValueOf(row: RowObject, key: string): Option<Value>
  {
    if row == [] then None
    else if row[0].key == key then Some(row[0].value)
    else ValueOf(row[1..], key)
  }

  lemma {:induction false} ValueOfAppend(row: RowObject, p: Property, key: string)
    ensures ValueOf(row + [p], key) ==
      if ValueOf(row, key).Some? then ValueOf(row, key)
      else if p.key == key then Some(p.value) else None
  {
    if row != [] {
      assert (row + [p])[1..] == row[1..] + [p];
      ValueOfAppend(row[1..], p, key);
    } else {
      assert [p][1..] == [];
    }
  }

  lemma {:induction false} ValueOfFindsKey(row: RowObject, key: string)
    ensures ValueOf(row, key).Some? <==> key in Keys(row)
  {
    if row != [] {
      ValueOfFindsKey(row[1..], key);
      assert Keys(row) == [row[0].key] + Keys(row[1..]);
    }
  }

  // ---------------------------------------------------------------------------
  // flattenTediousPromiseParameters

  /** `_.mapValues(parameters, 'value')`. */
  function FlattenValues(parameters: map<string, Parameter>): (flat: Fields)
    ensures flat.Keys == parameters.Keys
    ensures forall k :: k in parameters ==> flat[k] == parameters[k].value
  {
    map k | k in parameters :: parameters[k].value
  }

  /** `_.difference(names, keys)`: the names not among the keys, in order. */
  function Difference(names: seq<string>, keys: set<string>): seq<string>
  {
    if names == [] then []
    else (if names[0] in keys then [] else [names[0]]) + Difference(names[1..], keys)
  }

  lemma {:induction false} DifferenceMembers(names: seq<string>, keys: set<string>)
    ensures forall x :: x in Difference(names, keys) <==> x in names && x !in keys
  {
    if names != [] {
      DifferenceMembers(names[1..], keys);
      assert forall x :: x in names <==> x == names[0] || x in names[1..];
    }
  }

  /** The names in a list, as a set. */
  function Listed(names: seq<string>): set<string>
  {
    set n | n in names
  }

  lemma {:induction false} DifferenceOfCoveredNames(names: seq<string>, keys: set<string>)
    requires Listed(names) <= keys
    ensures Difference(names, keys) == []
  {
    if names != [] {
      assert names[0] in Listed(names);
      assert Listed(names[1..]) <= Listed(names);
      DifferenceOfCoveredNames(names[1..], keys);
    }
  }

  /** `flattenTediousPromiseParameters(parameters, required)`: with a list of
      required names, names missing from the table throw first, then names
      in the table but not in the list. */
  function FlattenParameters(parameters: map<string, Parameter>, required: Option<seq<string>>): Result<Fields>
  {
    var flat := FlattenValues(parameters);
    if required.None? then Ok(flat)
    else
      var missing := Difference(required.value, flat.Keys);
      if |missing| > 0 then Err(MissingParameters(missing))
      else
        var extra := flat.Keys - Listed(required.value);
        if extra != {} then Err(ExtraParameters(extra))
        else Ok(flat)
  }

  /** The check passes exactly when no list is given or the list names
      exactly the parameters; a missing name wins over an extra one; the
      flattened table has the parameters' names and values. */
  lemma FlattenParametersChecksNames(parameters: map<string, Parameter>, required: Option<seq<string>>)
    ensures FlattenParameters(parameters, required).Ok? <==>
      required.None? || Listed(required.value) == parameters.Keys
    ensures required.Some? && !(Listed(required.value) <= parameters.Keys) ==>
      FlattenParameters(parameters, required) == Err(MissingParameters(Difference(required.value, parameters.Keys)))
    ensures required.Some? && Listed(required.value) < parameters.Keys ==>
      FlattenParameters(parameters, required) == Err(ExtraParameters(parameters.Keys - Listed(required.value)))
    ensures FlattenParameters(parameters, required).Ok? ==>
      FlattenParameters(parameters, required).value == FlattenValues(parameters)
  {
    if required.Some? {
      var names := required.value;
      var keys := parameters.Keys;
      assert FlattenValues(parameters).Keys == keys;
      DifferenceMembers(names, keys);
      if Listed(names) <= keys {
        DifferenceOfCoveredNames(names, keys);
        if keys - Listed(names) == {} {
          forall k | k in keys
            ensures k in Listed(names)
          {
            assert k !in keys - Listed(names);
          }
          assert Listed(names) == keys;
        } else {
          var k :| k in keys - Listed(names);
          assert k !in Listed(names);
        }
      } else {
        var x :| x in Listed(names) && x !in keys;
        assert x in Difference(names, keys);
      }
    }
  }

  // ---------------------------------------------------------------------------
  // select and where

  /** `_.pick(row, names)`: the listed properties the row has, each once, in
      the order of the list. */
  function Pick(row: RowObject, names: seq<string>): RowObject
  {
    if names == [] then []
    else
      var rest := Pick(row, names[..|names| - 1]);
      var name := names[|names| - 1];
      if ValueOf(rest, name).Some? || ValueOf(row, name).None? then rest
      else rest + [Property(name, ValueOf(row, name).value)]
  }

  /** A picked row has exactly the listed properties of the row, with the same values. */
  lemma {:induction false} PickKeepsListedProperties(row: RowObject, names: seq<string>, key: string)
    ensures ValueOf(Pick(row, names), key) == if key in names then ValueOf(row, key) else None
  {
    if names != [] {
      var init := names[..|names| - 1];
      var name := names[|names| - 1];
      PickKeepsListedProperties(row, init, key);
      PickKeepsListedProperties(row, init, name);
      assert key in names <==> key in init || key == name by {
        assert names == init + [name];
      }
      var rest := Pick(row, init);
      if !(ValueOf(rest, name).Some? || ValueOf(row, name).None?) {
        ValueOfAppend(rest, Property(name, ValueOf(row, name).value), key);
      }
    }
  }

  /** The decimal text of an array index, the key it becomes when used as a
      property name. */
  function IndexKey(i: nat): (s: string)
    ensures |s| > 0 && forall j :: 0 <= j < |s| ==> '0' <= s[j] <= '9'
  {
    var digit := (('0' as int) + i % 10) as char;
    if i < 10 then [digit] else IndexKey(i / 10) + [digit]
  }

  /** The text of a plain object converted to a string, the key a row object
      becomes when used as a property name. */
  const ObjectKey: string := "[object Object]"

  /** The keys `_.pick` receives for row `i` when `_.map` calls it through
      `_.partialRight`: the row's index, the collection (one level flattened,
      so each of its row objects) and then the listed names. */
  function PickKeys(i: nat, names: seq<string>): (keys: seq<string>)
    ensures forall k :: k in keys <==> k == IndexKey(i) || k == ObjectKey || k in names
  {
    [IndexKey(i), ObjectKey] + names
  }

  /** `_.map(data, _.partialRight(_.pick, names))`: row `i` picked by the
      keys `PickKeys(i, names)`. */
  function PickEach(data: seq<RowObject>, names: seq<string>): (rows: seq<RowObject>)
    ensures |rows| == |data|
    ensures forall i, k {:trigger ValueOf(rows[i], k)} :: 0 <= i < |data| ==>
      ValueOf(rows[i], k) == if k in names || k == IndexKey(i) || k == ObjectKey then ValueOf(data[i], k) else None
  {
    var rows := seq(|data|, i requires 0 <= i < |data| => Pick(data[i], PickKeys(i, names)));
    forall i, k {:trigger ValueOf(rows[i], k)} | 0 <= i < |data|
      ensures ValueOf(rows[i], k) == if k in names || k == IndexKey(i) || k == ObjectKey then ValueOf(data[i], k) else None
    {
      assert rows[i] == Pick(data[i], PickKeys(i, names));
      PickKeepsListedProperties(data[i], PickKeys(i, names), k);
      assert k in PickKeys(i, names) <==> k in names || k == IndexKey(i) || k == ObjectKey;
    }
    rows
  }

  /** A row matches when it has every criterion's key with an equal value. */
  predicate Matches(row: RowObject, criteria: Fields)
  {
    forall k :: k in criteria ==> ValueOf(row, k) == Some(criteria[k])
  }

  /** `_.where(data, criteria)`: the matching rows, in order. */
  function WhereRows(data: seq<RowObject>, criteria: Fields): seq<RowObject>
  {
    if data == [] then []
    else (if Matches(data[0], criteria) then [data[0]] else []) + WhereRows(data[1..], criteria)
  }

  /** Exactly the matching rows are kept. */
  lemma {:induction false} WhereKeepsMatches(data: seq<RowObject>, criteria: Fields)
    ensures forall r :: r in WhereRows(data, criteria) <==> r in data && Matches(r, criteria)
  {
    if data != [] {
      WhereKeepsMatches(data[1..], criteria);
      assert forall r :: r in data <==> r == data[0] || r in data[1..];
    }
  }

  /** Filtering distributes over concatenation, so row order is kept. */
  lemma {:induction false} WhereKeepsOrder(a: seq<RowObject>, b: seq<RowObject>, criteria: Fields)
    ensures WhereRows(a + b, criteria) == WhereRows(a, criteria) + WhereRows(b, criteria)
  {
    if a != [] {
      assert (a + b)[1..] == a[1..] + b;
      WhereKeepsOrder(a[1..], b, criteria);
    } else {
      assert a + b == b;
    }
  }

  /** Filtering twice by the same criteria filters once. */
  lemma {:induction false} WhereIdempotent(data: seq<RowObject>, criteria: Fields)
    ensures WhereRows(WhereRows(data, criteria), criteria) == WhereRows(data, criteria)
  {
    if data != [] {
      WhereIdempotent(data[1..], criteria);
      var head := if Matches(data[0], criteria) then [data[0]] else [];
      WhereKeepsOrder(head, WhereRows(data[1..], criteria), criteria);
      if Matches(data[0], criteria) {
        assert [data[0]][1..] == [];
        assert WhereRows(head, criteria) == head;
      }
    }
  }

  /** `MockData`: a set of rows narrowed down by `where`. */
  class MockDataSet {
    var data: seq<RowObject>

    constructor (data: seq<RowObject>)
      ensures this.data == data
    {
      this.data := data;
    }

    /** `new MockData(data)`: undefined or empty data throws "No mock data.". */
    static method Create(data: Option<seq<RowObject>>) returns (r: Result<MockDataSet>)
      ensures r.Ok? <==> data.Some? && |data.value| > 0
      ensures r.Err? ==> r.error == NoMockData
      ensures r.Ok? ==> fresh(r.value) && r.value.data == data.value
    {
      if data.None? || |data.value| == 0 {
        return Err(NoMockData);
      }
      var d := new MockDataSet(data.value);
      r := Ok(d);
    }

    /** `select(columnNames)`: every row restricted to the listed columns,
        row order kept; anything but an array returns the data unchanged.
        As written, `_.pick` also receives the row's index and the row
        objects of the collection, so a row's property named by its own
        index, or named "[object Object]", is kept as well. */
    function Select(columnNames: Option<seq<string>>): (rows: seq<RowObject>)
      reads this
      ensures |rows| == |data|
      ensures columnNames.None? ==> rows == data
      ensures columnNames.Some? ==> forall i, k {:trigger ValueOf(rows[i], k)} :: 0 <= i < |data| ==>
        ValueOf(rows[i], k) ==
          if k in columnNames.value || k == IndexKey(i) || k == ObjectKey then ValueOf(data[i], k) else None
    {
      if columnNames.None? then data else PickEach(data, columnNames.value)
    }

    /** `select` as evidently intended: every row restricted to exactly the
        listed columns, row order kept. */
    function SelectListed(columnNames: Option<seq<string>>): (rows: seq<RowObject>)
      reads this
      ensures |rows| == |data|
      ensures columnNames.None? ==> rows == data
      ensures columnNames.Some? ==> forall i, k :: 0 <= i < |data| ==>
        ValueOf(rows[i], k) == if k in columnNames.value then ValueOf(data[i], k) else None
    {
      if columnNames.None? then data
      else
        var rows := seq(|data|, i requires 0 <= i < |data| reads this => Pick(data[i], columnNames.value));
        assert forall i, k :: 0 <= i < |data| ==>
          ValueOf(rows[i], k) == if k in columnNames.value then ValueOf(data[i], k) else None by {
          forall i, k | 0 <= i < |data| {
            PickKeepsListedProperties(data[i], columnNames.value, k);
          }
        }
        rows
    }

    /** `where(actualParameters, requiredParameters)`: a failed name check
        throws and changes nothing; otherwise the data becomes the matching
        rows, and when none match it throws after that replacement. */
    method Where(actual: map<string, Parameter>, required: Option<seq<string>>) returns (r: Result<MockDataSet>)
      modifies this
      ensures FlattenParameters(actual, required).Err? ==>
        r == Err(FlattenParameters(actual, required).error) && data == old(data)
      ensures FlattenParameters(actual, required).Ok? ==>
        var criteria := FlattenParameters(actual, required).value;
        data == WhereRows(old(data), criteria) &&
        (if data == [] then r == Err(NoMockDataFound(criteria)) else r == Ok(this))
    {
      var flattened := FlattenParameters(actual, required);
      if flattened.Err? {
        return Err(flattened.error);
      }
      data := WhereRows(data, flattened.value);
      if |data| == 0 {
        return Err(NoMockDataFound(flattened.value));
      }
      r := Ok(this);
    }
  }

  /** A row whose first property is named "0": selecting only "x" keeps the
      "0" property too, where only "x" should survive. */
  lemma SelectKeepsIndexKey(mock: MockDataSet)
    requires mock.data == [[Property("0", Str("a")), Property("x", Num(1))]]
    ensures ValueOf(mock.Select(Some(["x"]))[0], "0") == Some(Str("a"))
    ensures ValueOf(mock.SelectListed(Some(["x"]))[0], "0") == None
    ensures ValueOf(mock.Select(Some(["x"]))[0], "x") == ValueOf(mock.SelectListed(Some(["x"]))[0], "x") == Some(Num(1))
  {
    assert IndexKey(0) == "0";
    assert ValueOf(mock.data[0], "0") == Some(Str("a"));
    assert ValueOf(mock.data[0], "x") == Some(Num(1));
  }
}
