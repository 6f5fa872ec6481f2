/**
  The query builder: one unit of work that collects SQL, column mappings and
  parameters, then runs once against a connection. Driver events (rows,
  output-parameter values, completion) arrive as an input sequence; the
  builder turns each row into a result value through a lazily populated
  column-mapping table and settles its promise once.
 */
module TediousPromise {
  import opened Host
  import opened TediousPromiseColumn
  import PromiseUtil
  import MockTediousConnection

  // ---------------------------------------------------------------------------
  // Construction: mode and option

  /** The `option` given with a mode: not an object, a plain object (with or
      without an `acquire` function and a string `userName`), or a function
      (a mock-data callback). */
  datatype ConnectionOption =
    | NonObject
    | PlainObject(acquireIsFunction: bool, userNameIsString: bool)
    | Callback(callback: MockCallback)

  /** Where connections come from. */
  datatype Source = PoolSource | SingleSource | MockSource(callback: MockCallback)

  /** The constructor's mode check: "pool" needs an object with an `acquire`
      function, "single" any object (functions are objects), "mock" a function. */
  function SourceOf(mode: string, option: ConnectionOption): (r: Result<Source>)
    ensures r.Ok? <==>
      (mode == "pool" && option.PlainObject? && option.acquireIsFunction) ||
      (mode == "single" && !option.NonObject?) ||
      (mode == "mock" && option.Callback?)
    ensures r.Err? ==> r.error == InvalidModeArguments
    ensures r.Ok? ==> (r.value.PoolSource? <==> mode == "pool") && (r.value.SingleSource? <==> mode == "single")
    ensures r.Ok? && mode == "mock" ==> r.value == MockSource(option.callback)
  {
    if mode == "pool" && option.PlainObject? && option.acquireIsFunction then Ok(PoolSource)
    else if mode == "single" && !option.NonObject? then Ok(SingleSource)
    else if mode == "mock" && option.Callback? then Ok(MockSource(option.callback))
    else Err(InvalidModeArguments)
  }

  // ---------------------------------------------------------------------------
  // The column-mapping table

  /** A default column renamer, such as a camel-casing function. */
  type Renamer = string -> Value

  /** The behaviour of every mapping in the table, by column name. */
  type ColumnTable = map<string, ColumnSpec>

  /** The mapping `_getColumnMap` creates for a column it has not seen: its
      path is the renamed name when a renamer is set (which must be a string
      or undefined), and none otherwise. */
  function DefaultMapping(renamer: Option<Renamer>, name: string): (r: Result<ColumnSpec>)
    ensures renamer.None? ==> r == Ok(DefaultSpec(name, None))
    ensures renamer.Some? ==> (r.Ok? <==> renamer.value(name).Undefined? || renamer.value(name).Str?)
    ensures renamer.Some? && renamer.value(name).Str? ==> r == Ok(DefaultSpec(name, Some(renamer.value(name).s)))
    ensures renamer.Some? && renamer.value(name).Undefined? ==> r == Ok(DefaultSpec(name, None))
    ensures r.Err? ==> r.error == PathNotString
  {
    if renamer.None? then Ok(DefaultSpec(name, None))
    else
      var path := renamer.value(name);
      if path.Str? then Ok(DefaultSpec(name, Some(path.s)))
      else if path.Undefined? then Ok(DefaultSpec(name, None))
      else Err(PathNotString)
  }

  /** `_getColumnMap(name)`: the stored mapping when the table has one as an
      own key; otherwise a default mapping, which is stored before it is
      returned. A failing default mapping stores nothing. */
  function Lookup(table: ColumnTable, renamer: Option<Renamer>, name: string): (Result<ColumnSpec>, ColumnTable)
  {
    if name in table then (Ok(table[name]), table)
    else
      var m := DefaultMapping(renamer, name);
      if m.Err? then (Err(m.error), table) else (m, table[name := m.value])
  }

  /** The second table keeps every entry of the first. */
  ghost predicate Extends(big: ColumnTable, small: ColumnTable)
  {
    forall k :: k in small ==> k in big && big[k] == small[k]
  }

  /** A lookup only ever adds the looked-up name; a lookup that succeeded
      leaves the name in the table with the mapping it returned, so looking
      it up again returns the same mapping and changes nothing. */
  lemma LookupIsCached(table: ColumnTable, renamer: Option<Renamer>, name: string)
    ensures Extends(Lookup(table, renamer, name).1, table)
    ensures Lookup(table, renamer, name).1.Keys <= table.Keys + {name}
    ensures name in table ==> Lookup(table, renamer, name) == (Ok(table[name]), table)
    ensures Lookup(table, renamer, name).0.Ok? ==>
      var (found, after) := Lookup(table, renamer, name);
      name in after && after[name] == found.value && Lookup(after, renamer, name) == (found, after)
    ensures Lookup(table, renamer, name).0.Err? ==>
      Lookup(table, renamer, name).1 == table && DefaultMapping(renamer, name).Err?
  {
  }

  // ---------------------------------------------------------------------------
  // The lookup as written: an inherited member of the plain object `_columns`

  /** The names every plain JavaScript object inherits from `Object.prototype`. */
  const InheritedNames: set<string> := {
    "constructor", "toString", "toLocaleString", "valueOf", "hasOwnProperty",
    "isPrototypeOf", "propertyIsEnumerable", "__proto__", "__defineGetter__",
    "__defineSetter__", "__lookupGetter__", "__lookupSetter__" }

  /** What `this._columns[colName]` finds as the code is written. */
  datatype Found = Stored(spec: ColumnSpec) | InheritedMember

  /** `_getColumnMap` as written: `this._columns[colName]` also sees
      inherited members, which are truthy, so no default mapping is made for
      those names and the inherited member is returned instead. */
  function LookupAsWritten(table: ColumnTable, renamer: Option<Renamer>, name: string): (Result<Found>, ColumnTable)
  {
    if name in table then (Ok(Stored(table[name])), table)
    else if name in InheritedNames then (Ok(InheritedMember), table)
    else
      var m := DefaultMapping(renamer, name);
      if m.Err? then (Err(m.error), table) else (Ok(Stored(m.value)), table[name := m.value])
  }

  /** `map._applyMapping(col, result)` on what the as-written lookup found:
      an inherited member has no `_applyMapping`, so the call is a TypeError. */
  function ApplyFoundAsWritten(found: Found, cell: Cell, result: Fields): Result<Fields>
  {
    match found
    case Stored(spec) => Apply(spec, cell, result)
    case InheritedMember => Err(TypeError)
  }

  /** A result column named "constructor" (or any other inherited name):
      as written, mapping it to an object throws a TypeError; with an own-key
      lookup it gets a default mapping and lands under its own name. */
  lemma InheritedColumnNameThrows(v: Value)
    ensures var (found, _) := LookupAsWritten(map[], None, "constructor");
      found == Ok(InheritedMember) &&
      ApplyFoundAsWritten(found.value, Cell("constructor", v), map[]) == Err(TypeError)
    ensures var (found, after) := Lookup(map[], None, "constructor");
      found == Ok(DefaultSpec("constructor", None)) &&
      Apply(found.value, Cell("constructor", v), map[]) == Ok(map["constructor" := v]) &&
      after == map["constructor" := DefaultSpec("constructor", None)]
  {
  }

  /** Away from the inherited names, the as-written lookup is the own-key one. */
  lemma LookupAsWrittenAgreesElsewhere(table: ColumnTable, renamer: Option<Renamer>, name: string)
    requires name !in InheritedNames || name in table
    ensures var (w, wt) := LookupAsWritten(table, renamer, name);
      var (c, ct) := Lookup(table, renamer, name);
      wt == ct && (c.Ok? <==> w.Ok?) && (c.Ok? ==> w.value == Stored(c.value)) && (c.Err? ==> w.error == c.error)
  {
  }

  // ---------------------------------------------------------------------------
  // Row transformers

  /** `_transformRow`: one of the two built-ins, a caller's function, or
      undefined (left there by `rowTransformer` with an unknown name). */
  datatype Transformer =
    | RowToObject
    | RowToArray
    | CustomTransformer(fn: Row -> Result<Value>)
    | NoTransformer

  /** `this.transformers[name]` for a name. */
  function NamedTransformer(name: string): (t: Transformer)
    ensures t.NoTransformer? <==> name != "rowToObject" && name != "rowToArray"
  {
    if name == "rowToObject" then RowToObject
    else if name == "rowToArray" then RowToArray
    else NoTransformer
  }

  /** `transformers.rowToObject` from cell `i` on: looks up each cell's
      mapping and applies it to the one result object, left to right; the
      first error stops it, with the table as it stood then. */
  function RowToObjectFrom(acc: Fields, table: ColumnTable, renamer: Option<Renamer>, row: Row): (Result<Fields>, ColumnTable)
    decreases |row|
  {
    if row == [] then (Ok(acc), table)
    else
      var (found, after) := Lookup(table, renamer, row[0].colName);
      if found.Err? then (Err(found.error), after)
      else
        var applied := Apply(found.value, row[0], acc);
        if applied.Err? then (Err(applied.error), after)
        else RowToObjectFrom(applied.value, after, renamer, row[1..])
  }

  /** `transformers.rowToArray` from cell `i` on: pushes each cell's
      extracted value. */
  function RowToArrayFrom(acc: seq<Value>, table: ColumnTable, renamer: Option<Renamer>, row: Row): (Result<seq<Value>>, ColumnTable)
    decreases |row|
  {
    if row == [] then (Ok(acc), table)
    else
      var (found, after) := Lookup(table, renamer, row[0].colName);
      if found.Err? then (Err(found.error), after)
      else
        var value := GetValue(found.value, row[0]);
        if value.Err? then (Err(value.error), after)
        else RowToArrayFrom(acc + [value.value], after, renamer, row[1..])
  }

  /** `this._transformRow(row, getColumnMap)`: the transformed row and the
      column table afterwards. Calling an undefined transformer is a TypeError. */
  function TransformRowSpec(transformer: Transformer, table: ColumnTable, renamer: Option<Renamer>, row: Row): (Result<Value>, ColumnTable)
  {
    match transformer
    case RowToObject =>
      var (r, t) := RowToObjectFrom(map[], table, renamer, row);
      (if r.Ok? then Ok(Obj(r.value)) else Err(r.error), t)
    case RowToArray =>
      var (r, t) := RowToArrayFrom([], table, renamer, row);
      (if r.Ok? then Ok(Arr(r.value)) else Err(r.error), t)
    case CustomTransformer(fn) => (fn(row), table)
    case NoTransformer => (Err(TypeError), table)
  }

  lemma {:induction false} RowToObjectExtends(acc: Fields, table: ColumnTable, renamer: Option<Renamer>, row: Row)
    ensures Extends(RowToObjectFrom(acc, table, renamer, row).1, table)
    ensures RowToObjectFrom(acc, table, renamer, row).0.Ok? ==>
      forall j :: 0 <= j < |row| ==> row[j].colName in RowToObjectFrom(acc, table, renamer, row).1
    decreases |row|
  {
    if row != [] {
      LookupIsCached(table, renamer, row[0].colName);
      var (found, after) := Lookup(table, renamer, row[0].colName);
      if found.Ok? && Apply(found.value, row[0], acc).Ok? {
        RowToObjectExtends(Apply(found.value, row[0], acc).value, after, renamer, row[1..]);
        assert forall j :: 1 <= j < |row| ==> row[j] == row[1..][j - 1];
      }
    }
  }

  /** Re-running `rowToObject` on a table that already holds every mapping
      the first run used (for instance the table that run produced) gives the
      same object and adds nothing: the lazily built table is a cache. */
  lemma {:induction false} RowToObjectIsCached(acc: Fields, table: ColumnTable, renamer: Option<Renamer>, row: Row, cache: ColumnTable)
    requires RowToObjectFrom(acc, table, renamer, row).0.Ok?
    requires Extends(cache, RowToObjectFrom(acc, table, renamer, row).1)
    ensures RowToObjectFrom(acc, cache, renamer, row) == (RowToObjectFrom(acc, table, renamer, row).0, cache)
    decreases |row|
  {
    if row != [] {
      var name := row[0].colName;
      LookupIsCached(table, renamer, name);
      var (found, after) := Lookup(table, renamer, name);
      var next := Apply(found.value, row[0], acc).value;
      RowToObjectExtends(next, after, renamer, row[1..]);
      assert name in cache && cache[name] == found.value;
      RowToObjectIsCached(next, after, renamer, row[1..], cache);
    }
  }

  lemma {:induction false} RowToArrayExtends(acc: seq<Value>, table: ColumnTable, renamer: Option<Renamer>, row: Row)
    ensures Extends(RowToArrayFrom(acc, table, renamer, row).1, table)
    ensures RowToArrayFrom(acc, table, renamer, row).0.Ok? ==>
      forall j :: 0 <= j < |row| ==> row[j].colName in RowToArrayFrom(acc, table, renamer, row).1
    decreases |row|
  {
    if row != [] {
      LookupIsCached(table, renamer, row[0].colName);
      var (found, after) := Lookup(table, renamer, row[0].colName);
      if found.Ok? && GetValue(found.value, row[0]).Ok? {
        RowToArrayExtends(acc + [GetValue(found.value, row[0]).value], after, renamer, row[1..]);
        assert forall j :: 1 <= j < |row| ==> row[j] == row[1..][j - 1];
      }
    }
  }

  /** `rowToArray` yields one value per cell, in cell order, each extracted by
      the mapping the final table holds for that cell's column. */
  lemma {:induction false} RowToArrayShape(acc: seq<Value>, table: ColumnTable, renamer: Option<Renamer>, row: Row)
    requires RowToArrayFrom(acc, table, renamer, row).0.Ok?
    ensures var (r, t) := RowToArrayFrom(acc, table, renamer, row);
      |r.value| == |acc| + |row| && r.value[..|acc|] == acc &&
      forall j :: 0 <= j < |row| ==> row[j].colName in t && GetValue(t[row[j].colName], row[j]) == Ok(r.value[|acc| + j])
    decreases |row|
  {
    if row != [] {
      var name := row[0].colName;
      LookupIsCached(table, renamer, name);
      var (found, after) := Lookup(table, renamer, name);
      var next := acc + [GetValue(found.value, row[0]).value];
      RowToArrayShape(next, after, renamer, row[1..]);
      RowToArrayExtends(next, after, renamer, row[1..]);
      var (r, t) := RowToArrayFrom(acc, table, renamer, row);
      assert r.value[..|next|] == next;
      assert r.value[..|acc|] == next[..|acc|];
      assert forall j :: 1 <= j < |row| ==> row[j] == row[1..][j - 1] && |acc| + j == |next| + (j - 1);
      assert r.value[|acc|] == next[|acc|];
    }
  }

  /** Re-running any transformer that succeeded on the table it produced gives
      the same result and leaves that table as it is. */
  lemma TransformIsCached(transformer: Transformer, table: ColumnTable, renamer: Option<Renamer>, row: Row)
    requires TransformRowSpec(transformer, table, renamer, row).0.Ok?
    ensures var (r, t) := TransformRowSpec(transformer, table, renamer, row);
      Extends(t, table) && TransformRowSpec(transformer, t, renamer, row) == (r, t)
  {
    var t := TransformRowSpec(transformer, table, renamer, row).1;
    match transformer
    case RowToObject =>
      RowToObjectExtends(map[], table, renamer, row);
      RowToObjectIsCached(map[], table, renamer, row, t);
    case RowToArray =>
      RowToArrayExtends([], table, renamer, row);
      RowToArrayIsCached([], table, renamer, row, t);
    case CustomTransformer(_) =>
    case NoTransformer =>
  }

  lemma {:induction false} RowToArrayIsCached(acc: seq<Value>, table: ColumnTable, renamer: Option<Renamer>, row: Row, cache: ColumnTable)
    requires RowToArrayFrom(acc, table, renamer, row).0.Ok?
    requires Extends(cache, RowToArrayFrom(acc, table, renamer, row).1)
    ensures RowToArrayFrom(acc, cache, renamer, row) == (RowToArrayFrom(acc, table, renamer, row).0, cache)
    decreases |row|
  {
    if row != [] {
      var name := row[0].colName;
      LookupIsCached(table, renamer, name);
      var (found, after) := Lookup(table, renamer, name);
      var next := acc + [GetValue(found.value, row[0]).value];
      RowToArrayExtends(next, after, renamer, row[1..]);
      assert name in cache && cache[name] == found.value;
      RowToArrayIsCached(next, after, renamer, row[1..], cache);
    }
  }

  // ---------------------------------------------------------------------------
  // Plain row objects read back through default mappings

  /** The object built by assigning each property in order (a later equal
      key overwrites an earlier one). */
  function ToFieldsFrom(acc: Fields, r: RowObject): Fields
    decreases |r|
  {
    if r == [] then acc else ToFieldsFrom(acc[r[0].key := r[0].value], r[1..])
  }

  function ToFields(r: RowObject): Fields
  {
    ToFieldsFrom(map[], r)
  }

  /** Every mapping in the table is the default one for its name, with no path. */
  ghost predicate PlainTable(table: ColumnTable)
  {
    forall n :: n in table ==> table[n] == DefaultSpec(n, None)
  }

  /** With only default mappings and no renamer, `rowToObject` on the cells of
      a plain row object rebuilds that object. */
  lemma {:induction false} PlainRowToObject(acc: Fields, table: ColumnTable, r: RowObject)
    requires PlainTable(table)
    ensures RowToObjectFrom(acc, table, None, MockTediousConnection.CellsOf(r)).0 == Ok(ToFieldsFrom(acc, r))
    ensures PlainTable(RowToObjectFrom(acc, table, None, MockTediousConnection.CellsOf(r)).1)
    decreases |r|
  {
    var cells := MockTediousConnection.CellsOf(r);
    if r != [] {
      assert cells[1..] == MockTediousConnection.CellsOf(r[1..]);
      var (found, after) := Lookup(table, None, r[0].key);
      assert found == Ok(DefaultSpec(r[0].key, None));
      assert PlainTable(after);
      PlainRowToObject(acc[r[0].key := r[0].value], after, r[1..]);
    }
  }

  /** When the keys of a plain row object are distinct, the rebuilt object has
      exactly those keys and the keys already there, each row key with its
      value. */
  lemma {:induction false} ToFieldsFromDistinct(acc: Fields, r: RowObject)
    requires forall i, j :: 0 <= i < j < |r| ==> r[i].key != r[j].key
    ensures forall k :: k in ToFieldsFrom(acc, r) <==> k in acc || k in Keys(r)
    ensures forall i :: 0 <= i < |r| ==> r[i].key in ToFieldsFrom(acc, r) && ToFieldsFrom(acc, r)[r[i].key] == r[i].value
    ensures forall k :: k in acc && k !in Keys(r) ==> ToFieldsFrom(acc, r)[k] == acc[k]
    decreases |r|
  {
    if r != [] {
      var rest := r[1..];
      assert forall i :: 0 <= i < |rest| ==> rest[i] == r[i + 1];
      assert Keys(r) == [r[0].key] + Keys(rest);
      ToFieldsFromDistinct(acc[r[0].key := r[0].value], rest);
    }
  }

  // ---------------------------------------------------------------------------
  // Output parameters

  /** An output parameter's callback: `(value, metadata)`, may throw. */
  type OutputCallback = (Value, Value) -> Result<()>

  /** A registered output parameter `{ name, type, value, options, callback }`;
      the short form leaves `value` and `options` undefined. */
  datatype OutputParameter = OutputParameter(
    name: string, sqlType: Value, value: Callable<OutputCallback>, options: Value, callback: Callable<OutputCallback>)

  /** `_handleOutputParameter(name, value, metadata)`: calls the registered
      callback when the name is an own key and its callback is a function;
      does nothing otherwise. */
  function HandleOutputParameter(outputs: map<string, OutputParameter>, name: string, value: Value, metadata: Value): (r: Result<()>)
    ensures name !in outputs || outputs[name].callback.NonFunction? ==> r == Ok(())
    ensures name in outputs && outputs[name].callback.Function? ==> r == outputs[name].callback.fn(value, metadata)
  {
    if name in outputs && outputs[name].callback.Function? then outputs[name].callback.fn(value, metadata)
    else Ok(())
  }

  // ---------------------------------------------------------------------------
  // A request's events and its settlement

  /** A `forEachRow` callback: receives each transformed row, may throw. */
  type RowCallback = Value -> Result<()>

  /** What a request emits before completing. */
  datatype Event =
    | RowEvent(row: Row)
    | ReturnValue(name: string, value: Value, metadata: Value)

  /** The request's completion callback arguments. */
  datatype Completion = Completion(error: Option<Error>, rowCount: Value)

  /** What the request's promise resolves with. */
  datatype Answer = Count(rowCount: Value) | Collected(rows: seq<Value>)

  /** The builder settings a request reads while it runs. */
  datatype RunConfig = RunConfig(
    transformer: Transformer, forEachRow: Option<RowCallback>, returnRowCount: bool,
    renamer: Option<Renamer>, outputs: map<string, OutputParameter>)

  /** The request's promise, the rows collected, the rows handed to the
      `forEachRow` callback, the output parameters whose callback ran, and the
      column table. */
  datatype RunState = RunState(
    settlement: Settlement<Answer>, results: seq<Value>, delivered: seq<Value>,
    outputCalls: seq<string>, table: ColumnTable)

  function Initial(table: ColumnTable): RunState
  {
    RunState(Pending, [], [], [], table)
  }

  /** The 'row' and 'returnValue' handlers. A failure rejects the promise (a
      no-op once it is settled) and handling carries on with later events. */
  function Step(cfg: RunConfig, st: RunState, e: Event): RunState
  {
    match e
    case RowEvent(row) =>
      var (t, table) := TransformRowSpec(cfg.transformer, st.table, cfg.renamer, row);
      if t.Err? then st.(settlement := Settle(st.settlement, Rejected(t.error)), table := table)
      else if cfg.forEachRow.Some? then
        var called := cfg.forEachRow.value(t.value);
        st.(delivered := st.delivered + [t.value], table := table,
            settlement := if called.Err? then Settle(st.settlement, Rejected(called.error)) else st.settlement)
      else st.(results := st.results + [t.value], table := table)
    case ReturnValue(name, value, metadata) =>
      var called := HandleOutputParameter(cfg.outputs, name, value, metadata);
      var ran := name in cfg.outputs && cfg.outputs[name].callback.Function?;
      st.(outputCalls := if ran then st.outputCalls + [name] else st.outputCalls,
          settlement := if called.Err? then Settle(st.settlement, Rejected(called.error)) else st.settlement)
  }

  function RunFrom(cfg: RunConfig, st: RunState, events: seq<Event>): RunState
    decreases |events|
  {
    if events == [] then st else RunFrom(cfg, Step(cfg, st, events[0]), events[1..])
  }

  /** The completion callback: a driver error rejects; otherwise the promise
      resolves with the row count when `forEachRow` or `returnRowCount` is
      set, and with the collected rows otherwise. */
  function Finish(cfg: RunConfig, st: RunState, c: Completion): RunState
  {
    var outcome :=
      if c.error.Some? then Rejected(c.error.value)
      else if cfg.forEachRow.Some? || cfg.returnRowCount then Resolved(Count(c.rowCount))
      else Resolved(Collected(st.results));
    st.(settlement := Settle(st.settlement, outcome))
  }

  /** A settled promise stays as it is, whatever events and completion follow. */
  lemma {:induction false} FirstSettlementWins(cfg: RunConfig, st: RunState, events: seq<Event>, c: Completion)
    requires !st.settlement.Pending?
    ensures RunFrom(cfg, st, events).settlement == st.settlement
    ensures Finish(cfg, RunFrom(cfg, st, events), c).settlement == st.settlement
    decreases |events|
  {
    if events != [] {
      FirstSettlementWins(cfg, Step(cfg, st, events[0]), events[1..], c);
    }
  }

  /** With a `forEachRow` callback no row is collected; without one no row is
      handed to a callback: never both. */
  lemma {:induction false} RowsGoOneWay(cfg: RunConfig, st: RunState, events: seq<Event>)
    ensures cfg.forEachRow.Some? ==> RunFrom(cfg, st, events).results == st.results
    ensures cfg.forEachRow.None? ==> RunFrom(cfg, st, events).delivered == st.delivered
    decreases |events|
  {
    if events != [] {
      RowsGoOneWay(cfg, Step(cfg, st, events[0]), events[1..]);
    }
  }

  /** The rows of the row events, in order. */
  function RowsOf(events: seq<Event>): seq<Row>
    decreases |events|
  {
    if events == [] then []
    else (if events[0].RowEvent? then [events[0].row] else []) + RowsOf(events[1..])
  }

  /** Transforming rows one after another, threading the table; the first
      failure is reported. */
  function TransformAll(cfg: RunConfig, table: ColumnTable, rows: seq<Row>): (Result<seq<Value>>, ColumnTable)
    decreases |rows|
  {
    if rows == [] then (Ok([]), table)
    else
      var (t, after) := TransformRowSpec(cfg.transformer, table, cfg.renamer, rows[0]);
      if t.Err? then (Err(t.error), after)
      else
        var (rest, last) := TransformAll(cfg, after, rows[1..]);
        if rest.Err? then (rest, last) else (Ok([t.value] + rest.value), last)
  }

  /** No callback fails on the events. */
  predicate CallbacksSucceed(cfg: RunConfig, events: seq<Event>)
  {
    forall i :: 0 <= i < |events| ==>
      match events[i]
      case RowEvent(_) => true
      case ReturnValue(name, value, metadata) => HandleOutputParameter(cfg.outputs, name, value, metadata).Ok?
  }

  /** Without a `forEachRow` callback, when every row transforms, the rows are
      collected after those already held, in arrival order, and nothing
      settles the promise along the way. */
  lemma {:induction false} RunCollectsInOrder(cfg: RunConfig, st: RunState, events: seq<Event>)
    requires cfg.forEachRow.None?
    requires TransformAll(cfg, st.table, RowsOf(events)).0.Ok?
    requires CallbacksSucceed(cfg, events)
    ensures RunFrom(cfg, st, events).results == st.results + TransformAll(cfg, st.table, RowsOf(events)).0.value
    ensures RunFrom(cfg, st, events).table == TransformAll(cfg, st.table, RowsOf(events)).1
    ensures RunFrom(cfg, st, events).settlement == st.settlement
    decreases |events|
  {
    if events != [] {
      var next := Step(cfg, st, events[0]);
      assert CallbacksSucceed(cfg, events[1..]) by {
        assert forall i :: 1 <= i < |events| ==> events[1..][i - 1] == events[i];
      }
      assert RowsOf(events) == (if events[0].RowEvent? then [events[0].row] else []) + RowsOf(events[1..]);
      if events[0].RowEvent? {
        assert RowsOf(events)[0] == events[0].row && RowsOf(events)[1..] == RowsOf(events[1..]);
      } else {
        assert RowsOf(events) == RowsOf(events[1..]);
        assert HandleOutputParameter(cfg.outputs, events[0].name, events[0].value, events[0].metadata).Ok?;
      }
      RunCollectsInOrder(cfg, next, events[1..]);
    }
  }

  /** A request that sees no failure resolves with the row count when
      `forEachRow` or `returnRowCount` is set, and with the transformed rows in
      arrival order otherwise; a driver error rejects with that error. */
  lemma RequestSettles(cfg: RunConfig, events: seq<Event>, c: Completion, table: ColumnTable)
    requires cfg.forEachRow.None?
    requires TransformAll(cfg, table, RowsOf(events)).0.Ok?
    requires CallbacksSucceed(cfg, events)
    ensures c.error.Some? ==>
      Finish(cfg, RunFrom(cfg, Initial(table), events), c).settlement == Rejected(c.error.value)
    ensures c.error.None? && cfg.returnRowCount ==>
      Finish(cfg, RunFrom(cfg, Initial(table), events), c).settlement == Resolved(Count(c.rowCount))
    ensures c.error.None? && !cfg.returnRowCount ==>
      Finish(cfg, RunFrom(cfg, Initial(table), events), c).settlement ==
        Resolved(Collected(TransformAll(cfg, table, RowsOf(events)).0.value))
  {
    RunCollectsInOrder(cfg, Initial(table), events);
    assert RunFrom(cfg, Initial(table), events).results == TransformAll(cfg, table, RowsOf(events)).0.value;
  }

  /** With a `forEachRow` callback that accepts every transformed row, when
      every row transforms, each row reaches the callback after those already
      delivered, in arrival order; none is collected and nothing settles the
      promise along the way. */
  lemma {:induction false} RunDeliversInOrder(cfg: RunConfig, st: RunState, events: seq<Event>)
    requires cfg.forEachRow.Some?
    requires TransformAll(cfg, st.table, RowsOf(events)).0.Ok?
    requires forall v :: v in TransformAll(cfg, st.table, RowsOf(events)).0.value ==> cfg.forEachRow.value(v).Ok?
    requires CallbacksSucceed(cfg, events)
    ensures RunFrom(cfg, st, events).delivered == st.delivered + TransformAll(cfg, st.table, RowsOf(events)).0.value
    ensures RunFrom(cfg, st, events).results == st.results
    ensures RunFrom(cfg, st, events).table == TransformAll(cfg, st.table, RowsOf(events)).1
    ensures RunFrom(cfg, st, events).settlement == st.settlement
    decreases |events|
  {
    if events != [] {
      var next := Step(cfg, st, events[0]);
      assert CallbacksSucceed(cfg, events[1..]) by {
        assert forall i :: 1 <= i < |events| ==> events[1..][i - 1] == events[i];
      }
      assert RowsOf(events) == (if events[0].RowEvent? then [events[0].row] else []) + RowsOf(events[1..]);
      if events[0].RowEvent? {
        assert RowsOf(events)[0] == events[0].row && RowsOf(events)[1..] == RowsOf(events[1..]);
        var t := TransformRowSpec(cfg.transformer, st.table, cfg.renamer, events[0].row);
        assert t.0.Ok?;
        assert TransformAll(cfg, st.table, RowsOf(events)).0.value ==
          [t.0.value] + TransformAll(cfg, t.1, RowsOf(events[1..])).0.value;
      } else {
        assert RowsOf(events) == RowsOf(events[1..]);
        assert HandleOutputParameter(cfg.outputs, events[0].name, events[0].value, events[0].metadata).Ok?;
      }
      RunDeliversInOrder(cfg, next, events[1..]);
    }
  }

  /** With a `forEachRow` callback, a request that sees no failure resolves
      with the row count, after handing every transformed row to the callback
      in arrival order; no rows are collected. */
  lemma ForEachRowResolvesWithCount(cfg: RunConfig, events: seq<Event>, c: Completion, table: ColumnTable)
    requires cfg.forEachRow.Some? && c.error.None?
    requires TransformAll(cfg, table, RowsOf(events)).0.Ok?
    requires forall v :: v in TransformAll(cfg, table, RowsOf(events)).0.value ==> cfg.forEachRow.value(v).Ok?
    requires CallbacksSucceed(cfg, events)
    ensures var st := Finish(cfg, RunFrom(cfg, Initial(table), events), c);
      st.settlement == Resolved(Count(c.rowCount)) && st.results == [] &&
      st.delivered == TransformAll(cfg, table, RowsOf(events)).0.value
  {
    RunDeliversInOrder(cfg, Initial(table), events);
  }

  /** With a `forEachRow` callback the promise never resolves with rows: it
      is either still pending, rejected, or resolved with the row count. */
  lemma ForEachRowNeverCollects(cfg: RunConfig, events: seq<Event>, c: Completion, table: ColumnTable)
    requires cfg.forEachRow.Some? && c.error.None?
    ensures var st := Finish(cfg, RunFrom(cfg, Initial(table), events), c);
      st.results == [] && (st.settlement.Resolved? ==> st.settlement.value == Count(c.rowCount))
  {
    RowsGoOneWay(cfg, Initial(table), events);
    OnlyCompletionResolves(cfg, Initial(table), events);
  }

  /** Rows and output values can reject the promise but never resolve it. */
  lemma {:induction false} OnlyCompletionResolves(cfg: RunConfig, st: RunState, events: seq<Event>)
    requires !st.settlement.Resolved?
    ensures !RunFrom(cfg, st, events).settlement.Resolved?
    decreases |events|
  {
    if events != [] {
      OnlyCompletionResolves(cfg, Step(cfg, st, events[0]), events[1..]);
    }
  }

  // ---------------------------------------------------------------------------
  // The mock round trip

  /** One row event per emitted row. */
  function RowEvents(rows: seq<Row>): (events: seq<Event>)
    ensures |events| == |rows|
    ensures forall i :: 0 <= i < |rows| ==> events[i] == RowEvent(rows[i])
  {
    seq(|rows|, i requires 0 <= i < |rows| => RowEvent(rows[i]))
  }

  /** The default settings of a new builder with the given output parameters:
      `rowToObject`, no `forEachRow`, no row count, no renamer. */
  function PlainConfig(outputs: map<string, OutputParameter>): RunConfig
  {
    RunConfig(RowToObject, None, false, None, outputs)
  }

  lemma {:induction false} PlainRunRebuildsRows(outputs: map<string, OutputParameter>, st: RunState, data: seq<RowObject>)
    requires PlainTable(st.table)
    ensures RunFrom(PlainConfig(outputs), st, RowEvents(MockTediousConnection.Emissions(data))).results ==
      st.results + seq(|data|, i requires 0 <= i < |data| => Obj(ToFields(data[i])))
    ensures RunFrom(PlainConfig(outputs), st, RowEvents(MockTediousConnection.Emissions(data))).settlement == st.settlement
    decreases |data|
  {
    var cfg := PlainConfig(outputs);
    var events := RowEvents(MockTediousConnection.Emissions(data));
    if data != [] {
      PlainRowToObject(map[], st.table, data[0]);
      var next := Step(cfg, st, events[0]);
      assert next.results == st.results + [Obj(ToFields(data[0]))];
      assert PlainTable(next.table);
      assert events[1..] == RowEvents(MockTediousConnection.Emissions(data[1..]));
      PlainRunRebuildsRows(outputs, next, data[1..]);
      var want := seq(|data|, i requires 0 <= i < |data| => Obj(ToFields(data[i])));
      var rest := seq(|data[1..]|, i requires 0 <= i < |data[1..]| => Obj(ToFields(data[1..][i])));
      assert want == [Obj(ToFields(data[0]))] + rest;
    }
  }

  /** In mock mode with a builder's default settings, a request whose callback
      returns rows resolves with one object per row, each rebuilt from that
      row's properties (a later equal key wins). */
  lemma MockQueryRoundTrip(outputs: map<string, OutputParameter>, data: seq<RowObject>)
    ensures var cfg := PlainConfig(outputs);
      Finish(cfg, RunFrom(cfg, Initial(map[]), RowEvents(MockTediousConnection.Emissions(data))), Completion(None, Num(0))).settlement ==
        Resolved(Collected(seq(|data|, i requires 0 <= i < |data| => Obj(ToFields(data[i])))))
  {
    PlainRunRebuildsRows(outputs, Initial(map[]), data);
    var rows := seq(|data|, i requires 0 <= i < |data| => Obj(ToFields(data[i])));
    assert [] + rows == rows;
  }

  /** Assigning the properties of two objects in turn is assigning those of
      their concatenation. */
  lemma {:induction false} ToFieldsFromAppend(acc: Fields, a: RowObject, b: RowObject)
    ensures ToFieldsFrom(acc, a + b) == ToFieldsFrom(ToFieldsFrom(acc, a), b)
    decreases |a|
  {
    if a != [] {
      assert (a + b)[0] == a[0] && (a + b)[1..] == a[1..] + b;
      ToFieldsFromAppend(acc[a[0].key := a[0].value], a[1..], b);
    } else {
      assert a + b == b;
    }
  }

  /** The rebuilt object has the keys already there and the row's keys, and no other. */
  lemma {:induction false} ToFieldsFromDomain(acc: Fields, r: RowObject)
    ensures forall k :: k in ToFieldsFrom(acc, r) <==> k in acc || k in Keys(r)
    decreases |r|
  {
    if r != [] {
      assert Keys(r) == [r[0].key] + Keys(r[1..]);
      ToFieldsFromDomain(acc[r[0].key := r[0].value], r[1..]);
    }
  }

  /** Assigning a row's properties overwrites every key the row has, so the
      starting object matters only outside the row's keys. */
  lemma {:induction false} ToFieldsFromOverwrites(acc: Fields, other: Fields, r: RowObject)
    requires forall k :: k !in Keys(r) ==> (k in acc <==> k in other)
    requires forall k :: k !in Keys(r) && k in acc ==> acc[k] == other[k]
    ensures ToFieldsFrom(acc, r) == ToFieldsFrom(other, r)
    decreases |r|
  {
    if r != [] {
      assert Keys(r) == [r[0].key] + Keys(r[1..]);
      ToFieldsFromOverwrites(acc[r[0].key := r[0].value], other[r[0].key := r[0].value], r[1..]);
    }
  }

  /** When the data rows have the same keys in the same order, every key of
      the rows up to `n` is a key of each row. */
  lemma {:induction false} FlattenKeys(data: seq<RowObject>, n: nat, k: string)
    requires n <= |data|
    requires forall i :: 0 <= i < |data| ==> Keys(data[i]) == Keys(data[0])
    requires k in Keys(MockTediousConnection.Flatten(data[..n]))
    ensures k in Keys(data[0])
    decreases n
  {
    var init := data[..n][..n - 1];
    assert init == data[..n - 1];
    var a, b := MockTediousConnection.Flatten(init), data[n - 1];
    assert Keys(a + b) == Keys(a) + Keys(b);
    if k in Keys(a) {
      FlattenKeys(data, n - 1, k);
    }
  }

  /** As written, mock emission `i` carries the cells of data rows 0 to `i`.
      When every row has the same keys in the same order, `rowToObject`
      overwrites the earlier rows' cells with row `i`'s own, so the object
      rebuilt from the emission is still row `i`. */
  lemma AsWrittenEmissionRebuildsRow(data: seq<RowObject>, i: nat)
    requires i < |data|
    requires forall j :: 0 <= j < |data| ==> Keys(data[j]) == Keys(data[0])
    ensures ToFields(MockTediousConnection.Flatten(data[..i + 1])) == ToFields(data[i])
  {
    var before := MockTediousConnection.Flatten(data[..i]);
    assert data[..i + 1][..i] == data[..i];
    assert MockTediousConnection.Flatten(data[..i + 1]) == before + data[i];
    ToFieldsFromAppend(map[], before, data[i]);
    ToFieldsFromDomain(map[], before);
    forall k | k in ToFieldsFrom(map[], before)
      ensures k in Keys(data[i])
    {
      FlattenKeys(data, i, k);
    }
    ToFieldsFromOverwrites(ToFieldsFrom(map[], before), map[], data[i]);
  }

  /** The mock round trip on the emissions as written: with a builder's
      default settings, a request whose rows all have the same keys in the
      same order still resolves with one object per row, each equal to that
      row, although every emission also carries the earlier rows' cells. */
  lemma MockQueryRoundTripAsWritten(outputs: map<string, OutputParameter>, data: seq<RowObject>)
    requires forall j :: 0 <= j < |data| ==> Keys(data[j]) == Keys(data[0])
    ensures var cfg := PlainConfig(outputs);
      Finish(cfg, RunFrom(cfg, Initial(map[]), RowEvents(MockTediousConnection.EmissionsAsWritten(data))), Completion(None, Num(0))).settlement ==
        Resolved(Collected(seq(|data|, i requires 0 <= i < |data| => Obj(ToFields(data[i])))))
  {
    var grown := seq(|data|, i requires 0 <= i < |data| => MockTediousConnection.Flatten(data[..i + 1]));
    forall i | 0 <= i < |data|
      ensures MockTediousConnection.EmissionsAsWritten(data)[i] == MockTediousConnection.Emissions(grown)[i]
      ensures ToFields(grown[i]) == ToFields(data[i])
    {
      MockTediousConnection.AllCellsFlatten(data[..i + 1]);
      AsWrittenEmissionRebuildsRow(data, i);
    }
    assert MockTediousConnection.EmissionsAsWritten(data) == MockTediousConnection.Emissions(grown);
    MockQueryRoundTrip(outputs, grown);
    assert seq(|grown|, i requires 0 <= i < |grown| => Obj(ToFields(grown[i]))) ==
      seq(|data|, i requires 0 <= i < |data| => Obj(ToFields(data[i])));
  }

  // ---------------------------------------------------------------------------
  // Builder arguments

  /** The `mapping` argument of `column`: a mapping object or any other value. */
  datatype MappingArg = Instance(mapping: ColumnMapping) | Plain(v: Value)

  /** The mapping `column(name, mapping)` creates when it is not given a
      mapping object: with no mapping and a renamer, the renamed name is the
      path; with no mapping or a string, that is the path; any other type of
      mapping is refused. */
  function ColumnMappingFor(renamer: Option<Renamer>, name: string, mapping: Value): (r: Result<ColumnSpec>)
    ensures mapping.Str? ==> r == Ok(DefaultSpec(name, Some(mapping.s)))
    ensures !mapping.Str? && !mapping.Undefined? ==> r == Err(UnexpectedColumnMappingType(TypeOf(mapping)))
  {
    if mapping.Undefined? && renamer.Some? then
      var path := renamer.value(name);
      if path.Str? then Ok(DefaultSpec(name, Some(path.s)))
      else if path.Undefined? then Ok(DefaultSpec(name, None))
      else Err(PathNotString)
    else if mapping.Undefined? then Ok(DefaultSpec(name, None))
    else if mapping.Str? then Ok(DefaultSpec(name, Some(mapping.s)))
    else Err(UnexpectedColumnMappingType(TypeOf(mapping)))
  }

  /** Declaring a column without a mapping gives it exactly the mapping a row
      would have given it had it not been declared. */
  lemma ColumnWithoutMappingIsDefault(renamer: Option<Renamer>, name: string)
    ensures ColumnMappingFor(renamer, name, Undefined) == DefaultMapping(renamer, name)
  {
  }

  /** The argument of `rowTransformer`: a function, a name, or anything else. */
  datatype TransformerArg =
    | TransformerFunction(fn: Row -> Result<Value>)
    | TransformerName(name: string)
    | TransformerOther(v: Value)

  /** What `outputParameter(name, type, value, options, callback)` stores: a
      function `value` with `options` and `callback` both undefined is the
      short form `(name, type, callback)`. */
  function OutputEntry(name: string, sqlType: Value, value: Callable<OutputCallback>, options: Value, callback: Callable<OutputCallback>): OutputParameter
  {
    if value.Function? && options.Undefined? && callback.NonFunction? && callback.v.Undefined?
    then OutputParameter(name, sqlType, NonFunction(Undefined), Undefined, value)
    else OutputParameter(name, sqlType, value, options, callback)
  }

  /** A registered output parameter's value reaches the callback given in
      either form: the third argument in the short form, the fifth otherwise;
      in the long form a non-function callback is never called. */
  lemma OutputParameterCallsBack(outputs: map<string, OutputParameter>, name: string, sqlType: Value,
                                 value: Callable<OutputCallback>, options: Value, callback: Callable<OutputCallback>,
                                 v: Value, metadata: Value)
    ensures var registered := outputs[name := OutputEntry(name, sqlType, value, options, callback)];
      var shortForm := value.Function? && options.Undefined? && callback.NonFunction? && callback.v.Undefined?;
      (shortForm ==> HandleOutputParameter(registered, name, v, metadata) == value.fn(v, metadata)) &&
      (!shortForm && callback.Function? ==> HandleOutputParameter(registered, name, v, metadata) == callback.fn(v, metadata)) &&
      (!shortForm && callback.NonFunction? ==> HandleOutputParameter(registered, name, v, metadata) == Ok(()))
  {
  }

  // ---------------------------------------------------------------------------
  // Connections

  /** A driver connection, from the pool or made from a configuration. The
      model tracks the calls the builder makes on it. */
  class DriverConnection {
    const hasRelease: bool
    var releases: nat
    var closes: nat

    constructor (hasRelease: bool)
      ensures this.hasRelease == hasRelease && releases == 0 && closes == 0
    {
      this.hasRelease := hasRelease;
      releases := 0;
      closes := 0;
    }

    method Release()
      modifies this
      ensures releases == old(releases) + 1 && closes == old(closes)
    {
      releases := releases + 1;
    }

    method Close()
      modifies this
      ensures closes == old(closes) + 1 && releases == old(releases)
    {
      closes := closes + 1;
    }
  }

  /** The connection a builder holds. */
  datatype ConnRef = Driver(driver: DriverConnection) | Mock(mock: MockTediousConnection.MockConnection)

  /** Mock mode uses mock connections, the other modes driver connections. */
  predicate ConnMatches(source: Source, conn: ConnRef)
  {
    source.MockSource? <==> conn.Mock?
  }

  function ConnObjects(conn: Option<ConnRef>): set<object>
  {
    match conn
    case None => {}
    case Some(Driver(d)) => {d}
    case Some(Mock(m)) => {m}
  }

  /** What disposing a connection does. */
  datatype Disposal = NoDisposal | Release | Close

  /** `_disposeConnection`: nothing in mock mode, `release` in pool mode when
      the connection has one, `close` in single mode. */
  function DisposalFor(source: Source, hasRelease: bool): (d: Disposal)
    ensures d == Close <==> source.SingleSource?
    ensures d == Release <==> source.PoolSource? && hasRelease
    ensures source.MockSource? ==> d == NoDisposal
  {
    match source
    case MockSource(_) => NoDisposal
    case PoolSource => if hasRelease then Release else NoDisposal
    case SingleSource => Close
  }

  /** What opening a connection delivers: the pool's `acquire` callback
      arguments `(err, connection)`, or the `connect` event's `err`; and the
      error the clean-up call (`release` or `close`) throws, if any. */
  datatype Opening = Opening(err: Option<Error>, conn: Option<DriverConnection>, cleanupThrows: Option<Error>)

  /** The pool's acquire callback: on an error it releases the connection it
      was handed (without checking that `release` is a function) and rejects;
      a throw inside is caught and rejects instead. The result is the
      rejection, if any, and whether `release` was called. */
  function AcquireDecision(err: Option<Error>, hasConn: bool, releaseIsFunction: bool, releaseThrows: Option<Error>): (d: (Option<Error>, bool))
    ensures d.0.None? <==> err.None?
    ensures d.1 <==> err.Some? && hasConn && releaseIsFunction
    ensures d.0.Some? && d.0 != err ==> hasConn && (!releaseIsFunction || releaseThrows.Some?)
    ensures err.Some? && hasConn && !releaseIsFunction ==> d.0 == Some(TypeError)
  {
    if err.None? then (None, false)
    else if !hasConn then (err, false)
    else if !releaseIsFunction then (Some(TypeError), false)
    else if releaseThrows.Some? then (releaseThrows, true)
    else (err, true)
  }

  /** The `connect` event of a single connection: on an error it closes the
      connection and rejects; a throw from `close` rejects instead. The result
      is the rejection, if any, and whether `close` was called. */
  function ConnectDecision(err: Option<Error>, closeThrows: Option<Error>): (d: (Option<Error>, bool))
    ensures d.0.None? <==> err.None?
    ensures d.1 <==> err.Some?
    ensures d.0.Some? && d.0 != err ==> closeThrows.Some? && d.0 == closeThrows
  {
    if err.None? then (None, false)
    else if closeThrows.Some? then (closeThrows, true)
    else (err, true)
  }

  /** Why a new connection cannot be used, if it cannot: the rejection of
      the pool or `connect` callback, or a TypeError when the pool hands over
      no connection and no error. Mock connections always open. */
  function OpenError(source: Source, opening: Opening): Option<Error>
  {
    match source
    case MockSource(_) => None
    case PoolSource =>
      var hasConn := opening.conn.Some?;
      var d := AcquireDecision(opening.err, hasConn, hasConn && opening.conn.value.hasRelease, opening.cleanupThrows);
      if d.0.None? && !hasConn then Some(TypeError) else d.0
    case SingleSource => ConnectDecision(opening.err, opening.cleanupThrows).0
  }

  /** The events and completion of a request: the mock connection's for the
      callback's outcome (always with a row count of 0), or the driver's. */
  datatype Script = Script(events: seq<Event>, completion: Completion)

  function MockScript(ret: MockReturn): Script
  {
    match ret
    case NoData => Script([], Completion(None, Num(0)))
    case Rows(data) => Script(RowEvents(MockTediousConnection.Emissions(data)), Completion(None, Num(0)))
    case NotRows(_) => Script([], Completion(Some(MockDataNotArray), Num(0)))
    case Throws(e) => Script([], Completion(Some(e), Num(0)))
  }

  /** The script a request on a builder of this source runs: in mock mode
      the mock-data callback's, called with the SQL and parameters. */
  function ScriptFor(source: Source, sql: Option<string>, parameters: map<string, Parameter>, script: Script): Script
  {
    if source.MockSource? then MockScript(source.callback(sql, parameters)) else script
  }

  /** A request on a mock connection: `execSql` or `callProcedure`, whose
      emitted rows and completion make the mock script of the callback's
      outcome. */
  method MockRequest(mock: MockTediousConnection.MockConnection, callback: MockCallback, sql: Option<string>,
                     parameters: map<string, Parameter>, procedure: bool) returns (sc: Script)
    ensures sc == MockScript(callback(sql, parameters))
  {
    var emitted, err, rowCount;
    if procedure {
      emitted, err, rowCount := mock.CallProcedure(callback, sql, parameters);
    } else {
      emitted, err, rowCount := mock.ExecSql(callback, sql, parameters);
    }
    sc := Script(RowEvents(emitted), Completion(err, Num(rowCount)));
  }

  // ---------------------------------------------------------------------------
  // The builder

  /** Every field of a builder except its column table. */
  datatype Settings = Settings(
    sql: Option<string>, parameters: map<string, Parameter>, outputParameters: map<string, OutputParameter>,
    forEachRow: Option<RowCallback>, returnRowCount: bool, transformRow: Transformer,
    promiseLibrary: PromiseUtil.Library, lastColumn: ColumnMapping?, renamer: Option<Renamer>,
    transaction: bool, connection: Option<ConnRef>)

  /** The settings of a new builder. */
  function NewSettings(): Settings
  {
    Settings(None, map[], map[], None, false, RowToObject, PromiseUtil.Q, null, None, false, None)
  }

  /** `TediousPromise`: one unit of work. */
  class QueryBuilder {
    const source: Source
    var sql: Option<string>
    var columns: map<string, ColumnMapping>
    var parameters: map<string, Parameter>
    var outputParameters: map<string, OutputParameter>
    var forEachRow: Option<RowCallback>
    var returnRowCount: bool
    var transformRow: Transformer
    var promiseLibrary: PromiseUtil.Library
    var lastColumn: ColumnMapping?
    var defaultColumnRenamer: Option<Renamer>
    var transaction: bool
    var connection: Option<ConnRef>

    ghost function State(): Settings
      reads this
    {
      Settings(sql, parameters, outputParameters, forEachRow, returnRowCount, transformRow,
               promiseLibrary, lastColumn, defaultColumnRenamer, transaction, connection)
    }

    /** The behaviour of the mappings in the column table. */
    ghost function Specs(): ColumnTable
      reads this, columns.Values
    {
      map n | n in columns :: columns[n].Spec()
    }

    /** The settings a request reads while it runs. */
    function Config(): RunConfig
      reads this
    {
      RunConfig(transformRow, forEachRow, returnRowCount, defaultColumnRenamer, outputParameters)
    }

    /** The cursor, when set, is a mapping of the table; a held connection
        is of the mode's kind. */
    ghost predicate Valid()
      reads this
    {
      (lastColumn != null ==> lastColumn in columns.Values) &&
      (connection.Some? ==> ConnMatches(source, connection.value))
    }

    ghost predicate ConnectionValid()
      reads this
    {
      connection.Some? ==> ConnMatches(source, connection.value)
    }

    constructor (source: Source)
      ensures this.source == source && columns == map[] && State() == NewSettings() && Valid()
    {
      this.source := source;
      sql := None;
      columns := map[];
      parameters := map[];
      outputParameters := map[];
      forEachRow := None;
      returnRowCount := false;
      transformRow := RowToObject;
      promiseLibrary := PromiseUtil.Q;
      lastColumn := null;
      defaultColumnRenamer := None;
      transaction := false;
      connection := None;
    }

    /** `new TediousPromise(mode, option)`: refuses a mode/option pair the
        constructor does not accept; a new builder uses the "q" library. */
    static method New(mode: string, option: ConnectionOption) returns (r: Result<QueryBuilder>)
      ensures r.Ok? <==> SourceOf(mode, option).Ok?
      ensures r.Err? ==> r.error == InvalidModeArguments
      ensures r.Ok? ==> fresh(r.value) && r.value.source == SourceOf(mode, option).value
      ensures r.Ok? ==> r.value.columns == map[] && r.value.State() == NewSettings() && r.value.Valid()
    {
      var source := SourceOf(mode, option);
      if source.Err? {
        return Err(source.error);
      }
      var b := new QueryBuilder(source.value);
      r := Ok(b);
    }

    /** `setPromiseLibrary(libraryOrName)`: replaces the library only when
        the lookup or validation succeeds; it leaves the cursor alone. */
    method SetPromiseLibrary(arg: PromiseUtil.LibraryArg) returns (r: Result<()>)
      modifies this
      ensures var lib := PromiseUtil.GetOrValidateLibrary(arg);
        (lib.Ok? ==> r == Ok(()) && State() == old(State()).(promiseLibrary := lib.value)) &&
        (lib.Err? ==> r == Err(lib.error) && State() == old(State()))
      ensures columns == old(columns)
    {
      var lib := PromiseUtil.GetOrValidateLibrary(arg);
      if lib.Err? {
        return Err(lib.error);
      }
      promiseLibrary := lib.value;
      r := Ok(());
    }

    /** `sql(sql)`: a stored non-empty SQL cannot be replaced; the argument
        must be a string. */
    method Sql(v: Value) returns (r: Result<QueryBuilder>)
      modifies this
      ensures old(sql).Some? && old(sql).value != "" ==> r == Err(SqlAlreadySet) && State() == old(State())
      ensures !(old(sql).Some? && old(sql).value != "") && !v.Str? ==>
        r == Err(SqlNotString(TypeOf(v))) && State() == old(State())
      ensures !(old(sql).Some? && old(sql).value != "") && v.Str? ==>
        r == Ok(this) && State() == old(State()).(sql := Some(v.s), lastColumn := null)
      ensures columns == old(columns)
    {
      if sql.Some? && sql.value != "" {
        return Err(SqlAlreadySet);
      }
      if !v.Str? {
        return Err(SqlNotString(TypeOf(v)));
      }
      sql := Some(v.s);
      lastColumn := null;
      r := Ok(this);
    }

    /** `column(name, mapping)`: stores the given mapping object, or a new
        one made from the mapping argument, under the name (replacing any
        earlier one) and points the cursor at it. */
    method Column(name: string, mapping: MappingArg) returns (r: Result<QueryBuilder>)
      requires Valid()
      modifies this
      ensures Valid()
      ensures mapping.Instance? ==>
        r == Ok(this) && lastColumn == mapping.mapping && columns == old(columns)[name := mapping.mapping] &&
        State() == old(State()).(lastColumn := mapping.mapping)
      ensures mapping.Plain? ==>
        var made := ColumnMappingFor(old(defaultColumnRenamer), name, mapping.v);
        (made.Err? ==> r == Err(made.error) && columns == old(columns) && State() == old(State())) &&
        (made.Ok? ==> r == Ok(this) && lastColumn != null && fresh(lastColumn) && lastColumn.Spec() == made.value) &&
        (made.Ok? ==> columns == old(columns)[name := lastColumn] && State() == old(State()).(lastColumn := lastColumn))
      ensures r.Ok? ==> Specs() == old(Specs())[name := lastColumn.Spec()]
    {
      var chosen: ColumnMapping;
      if mapping.Instance? {
        chosen := mapping.mapping;
      } else {
        var made: Result<ColumnMapping>;
        if mapping.v.Undefined? && defaultColumnRenamer.Some? {
          made := ColumnMapping.Create(Str(name), defaultColumnRenamer.value(name));
        } else if mapping.v.Undefined? || mapping.v.Str? {
          made := ColumnMapping.Create(Str(name), mapping.v);
        } else {
          return Err(UnexpectedColumnMappingType(TypeOf(mapping.v)));
        }
        if made.Err? {
          return Err(made.error);
        }
        chosen := made.value;
      }
      StoreColumn(name, chosen);
      r := Ok(this);
    }

    /** Stores a mapping under a name and points the cursor at it. */
    method StoreColumn(name: string, m: ColumnMapping)
      modifies this
      ensures columns == old(columns)[name := m] && State() == old(State()).(lastColumn := m) && Valid() == old(ConnectionValid())
      ensures Specs() == old(Specs())[name := m.Spec()]
    {
      columns := columns[name := m];
      lastColumn := m;
      assert columns[name] in columns.Values;
    }

    /** `parameter(name, type, value, options)`: (re)binds the input parameter
        under its name. */
    method Parameter(name: string, sqlType: Value, value: Value, options: Value) returns (r: QueryBuilder)
      modifies this
      ensures r == this && columns == old(columns)
      ensures State() == old(State()).(parameters := old(parameters)[name := Host.Parameter(name, sqlType, value, options)],
                                       lastColumn := null)
    {
      parameters := parameters[name := Host.Parameter(name, sqlType, value, options)];
      lastColumn := null;
      r := this;
    }

    /** `outputParameter(name, type, value, options, callback)`, in either form. */
    method OutputParameter(name: string, sqlType: Value, value: Callable<OutputCallback>, options: Value, callback: Callable<OutputCallback>)
      returns (r: QueryBuilder)
      modifies this
      ensures r == this && columns == old(columns)
      ensures State() == old(State()).(outputParameters := old(outputParameters)[name := OutputEntry(name, sqlType, value, options, callback)],
                                       lastColumn := null)
    {
      outputParameters := outputParameters[name := OutputEntry(name, sqlType, value, options, callback)];
      lastColumn := null;
      r := this;
    }

    /** `forEachRow(callback)`: the callback must be a function. */
    method ForEachRow(callback: Callable<RowCallback>) returns (r: Result<QueryBuilder>)
      modifies this
      ensures columns == old(columns)
      ensures callback.NonFunction? ==> r == Err(CallbackNotFunction) && State() == old(State())
      ensures callback.Function? ==> r == Ok(this) && State() == old(State()).(forEachRow := Some(callback.fn), lastColumn := null)
    {
      if callback.NonFunction? {
        return Err(CallbackNotFunction);
      }
      forEachRow := Some(callback.fn);
      lastColumn := null;
      r := Ok(this);
    }

    /** `returnRowCount()`. */
    method ReturnRowCount() returns (r: QueryBuilder)
      modifies this
      ensures r == this && columns == old(columns)
      ensures State() == old(State()).(returnRowCount := true, lastColumn := null)
    {
      returnRowCount := true;
      lastColumn := null;
      r := this;
    }

    /** `rowTransformer(transformer)`: a function is installed as is; a name
        selects a built-in, and an unknown name is installed (as undefined)
        before it throws, leaving the cursor alone; anything else throws and
        changes nothing. */
    method RowTransformer(arg: TransformerArg) returns (r: Result<QueryBuilder>)
      modifies this
      ensures columns == old(columns)
      ensures arg.TransformerFunction? ==>
        r == Ok(this) && State() == old(State()).(transformRow := CustomTransformer(arg.fn), lastColumn := null)
      ensures arg.TransformerName? && NamedTransformer(arg.name).NoTransformer? ==>
        r == Err(RowTransformerNotDefined(arg.name)) && State() == old(State()).(transformRow := NoTransformer)
      ensures arg.TransformerName? && !NamedTransformer(arg.name).NoTransformer? ==>
        r == Ok(this) && State() == old(State()).(transformRow := NamedTransformer(arg.name), lastColumn := null)
      ensures arg.TransformerOther? ==> r == Err(RowTransformerWrongType) && State() == old(State())
    {
      match arg {
        case TransformerFunction(fn) =>
          transformRow := CustomTransformer(fn);
        case TransformerName(name) =>
          transformRow := NamedTransformer(name);
          if transformRow.NoTransformer? {
            return Err(RowTransformerNotDefined(name));
          }
        case TransformerOther(_) =>
          return Err(RowTransformerWrongType);
      }
      lastColumn := null;
      r := Ok(this);
    }

    /** Passthru `asBoolean()`: only right after `column`; the mapping under
        the cursor, and so every name it is stored under, then reads booleans. */
    method AsBoolean() returns (r: Result<QueryBuilder>)
      requires Valid()
      modifies lastColumn
      ensures lastColumn == null ==> r == Err(NotAfterColumn)
      ensures lastColumn != null ==>
        r == Ok(this) && lastColumn.Spec() == old(lastColumn.Spec()).(getter := CustomGetter(CellAsBoolean)) &&
        forall n, cell :: n in columns && columns[n] == lastColumn ==> GetValue(Specs()[n], cell) == AsBooleanValue(cell.value)
    {
      if lastColumn == null {
        return Err(NotAfterColumn);
      }
      var _ := lastColumn.AsBoolean();
      r := Ok(this);
    }

    /** Passthru `overrideGetValue(fn)`. */
    method OverrideGetValue(f: Callable<ValueGetter>) returns (r: Result<QueryBuilder>)
      requires Valid()
      modifies lastColumn
      ensures lastColumn == null ==> r == Err(NotAfterColumn)
      ensures lastColumn != null && f.NonFunction? ==> r == Err(ArgumentNotFunction) && lastColumn.Spec() == old(lastColumn.Spec())
      ensures lastColumn != null && f.Function? ==>
        r == Ok(this) && lastColumn.Spec() == old(lastColumn.Spec()).(getter := CustomGetter(f.fn))
    {
      if lastColumn == null {
        return Err(NotAfterColumn);
      }
      var done := lastColumn.OverrideGetValue(f);
      if done.Err? {
        return Err(done.error);
      }
      r := Ok(this);
    }

    /** Passthru `overrideApplyMapping(fn)`. */
    method OverrideApplyMapping(f: Callable<MappingApplier>) returns (r: Result<QueryBuilder>)
      requires Valid()
      modifies lastColumn
      ensures lastColumn == null ==> r == Err(NotAfterColumn)
      ensures lastColumn != null && f.NonFunction? ==> r == Err(ArgumentNotFunction) && lastColumn.Spec() == old(lastColumn.Spec())
      ensures lastColumn != null && f.Function? ==>
        r == Ok(this) && lastColumn.Spec() == old(lastColumn.Spec()).(applier := CustomApplier(f.fn))
    {
      if lastColumn == null {
        return Err(NotAfterColumn);
      }
      var done := lastColumn.OverrideApplyMapping(f);
      if done.Err? {
        return Err(done.error);
      }
      r := Ok(this);
    }

    /** `_getColumnMap(colName)`: the stored mapping object, or a new default
        one stored under the name. */
    method GetColumnMap(name: string) returns (r: Result<ColumnMapping>)
      requires Valid()
      modifies this
      ensures Valid() && State() == old(State())
      ensures var (found, table) := Lookup(old(Specs()), defaultColumnRenamer, name);
        Specs() == table && (r.Ok? <==> found.Ok?) &&
        (r.Ok? ==> r.value.Spec() == found.value) && (r.Err? ==> r.error == found.error)
      ensures name in old(columns) ==> r == Ok(old(columns)[name]) && columns == old(columns)
      ensures name !in old(columns) && r.Ok? ==> fresh(r.value) && columns == old(columns)[name := r.value]
      ensures r.Err? ==> columns == old(columns)
    {
      ghost var before := Specs();
      ghost var oldColumns := columns;
      if name in columns {
        return Ok(columns[name]);
      }
      var made: Result<ColumnMapping>;
      if defaultColumnRenamer.Some? {
        made := ColumnMapping.Create(Str(name), defaultColumnRenamer.value(name));
      } else {
        made := ColumnMapping.Create(Str(name), Undefined);
      }
      if made.Err? {
        return Err(made.error);
      }
      columns := columns[name := made.value];
      assert columns[name] in columns.Values;
      assert Specs() == before[name := made.value.Spec()] by {
        assert forall n :: n in oldColumns ==> columns[n] == oldColumns[n];
      }
      if lastColumn != null {
        ghost var n :| n in oldColumns && oldColumns[n] == lastColumn;
        assert columns[n] == lastColumn;
      }
      r := made;
    }
  
    /** `this._transformRow(row, this._getColumnMap.bind(this))`: the
        built-ins look up each cell's mapping (storing new defaults) and build
        an object or an array. */
    method TransformRow(row: Row) returns (r: Result<Value>)
      requires Valid()
      modifies this
      ensures Valid() && State() == old(State())
      ensures (r, Specs()) == TransformRowSpec(transformRow, old(Specs()), defaultColumnRenamer, row)
      ensures forall n :: n in old(columns) ==> n in columns && columns[n] == old(columns)[n]
    {
      match transformRow {
        case RowToObject =>
          var result: Fields := map[];
          var i := 0;
          while i < |row|
            invariant 0 <= i <= |row|
            invariant Valid() && State() == old(State())
            invariant forall n :: n in old(columns) ==> n in columns && columns[n] == old(columns)[n]
            invariant RowToObjectFrom(map[], old(Specs()), defaultColumnRenamer, row) ==
              RowToObjectFrom(result, Specs(), defaultColumnRenamer, row[i..])
          {
            assert row[i..][1..] == row[i + 1..];
            var m := GetColumnMap(row[i].colName);
            if m.Err? {
              return Err(m.error);
            }
            var applied := Apply(m.value.Spec(), row[i], result);
            if applied.Err? {
              return Err(applied.error);
            }
            result := applied.value;
            i := i + 1;
          }
          assert row[i..] == [];
          r := Ok(Obj(result));
        case RowToArray =>
          var result: seq<Value> := [];
          var i := 0;
          while i < |row|
            invariant 0 <= i <= |row|
            invariant Valid() && State() == old(State())
            invariant forall n :: n in old(columns) ==> n in columns && columns[n] == old(columns)[n]
            invariant RowToArrayFrom([], old(Specs()), defaultColumnRenamer, row) ==
              RowToArrayFrom(result, Specs(), defaultColumnRenamer, row[i..])
          {
            assert row[i..][1..] == row[i + 1..];
            var m := GetColumnMap(row[i].colName);
            if m.Err? {
              return Err(m.error);
            }
            var value := GetValue(m.value.Spec(), row[i]);
            if value.Err? {
              return Err(value.error);
            }
            result := result + [value.value];
            i := i + 1;
          }
          assert row[i..] == [];
          r := Ok(Arr(result));
        case CustomTransformer(fn) =>
          r := fn(row);
        case NoTransformer =>
          r := Err(TypeError);
      }
    }

    /** The 'row' and 'returnValue' handlers over a request's events: the
        promise's settlement so far, the collected rows, the rows handed to
        `forEachRow` and the output parameters whose callback ran. */
    method RunEvents(events: seq<Event>) returns (settlement: Settlement<Answer>, results: seq<Value>, delivered: seq<Value>, outputCalls: seq<string>)
      requires Valid()
      modifies this
      ensures Valid() && State() == old(State())
      ensures RunFrom(Config(), Initial(old(Specs())), events) == RunState(settlement, results, delivered, outputCalls, Specs())
      ensures forall n :: n in old(columns) ==> n in columns && columns[n] == old(columns)[n]
    {
      settlement, results, delivered, outputCalls := Pending, [], [], [];
      var i := 0;
      while i < |events|
        invariant 0 <= i <= |events|
        invariant Valid() && State() == old(State())
        invariant forall n :: n in old(columns) ==> n in columns && columns[n] == old(columns)[n]
        invariant RunFrom(Config(), Initial(old(Specs())), events) ==
          RunFrom(Config(), RunState(settlement, results, delivered, outputCalls, Specs()), events[i..])
      {
        assert events[i..][1..] == events[i + 1..];
        match events[i] {
          case RowEvent(row) =>
            var t := TransformRow(row);
            if t.Err? {
              settlement := Settle(settlement, Rejected(t.error));
            } else if forEachRow.Some? {
              var called := forEachRow.value(t.value);
              delivered := delivered + [t.value];
              if called.Err? {
                settlement := Settle(settlement, Rejected(called.error));
              }
            } else {
              results := results + [t.value];
            }
          case ReturnValue(name, value, metadata) =>
            if name in outputParameters && outputParameters[name].callback.Function? {
              var called := outputParameters[name].callback.fn(value, metadata);
              outputCalls := outputCalls + [name];
              if called.Err? {
                settlement := Settle(settlement, Rejected(called.error));
              }
            }
        }
        i := i + 1;
      }
      assert events[i..] == [];
    }
  
    /** `_disposeConnection(connection)`: by mode, nothing, `release` (when
        the connection has one) or `close`. */
    method DisposeConnection(conn: ConnRef)
      requires ConnMatches(source, conn)
      modifies ConnObjects(Some(conn))
      ensures conn.Driver? ==>
        var d := DisposalFor(source, conn.driver.hasRelease);
        conn.driver.releases == old(conn.driver.releases) + (if d == Release then 1 else 0) &&
        conn.driver.closes == old(conn.driver.closes) + (if d == Close then 1 else 0)
      ensures conn.Mock? ==> unchanged(conn.mock)
    {
      match source {
        case MockSource(_) =>
        case PoolSource =>
          if conn.driver.hasRelease {
            conn.driver.Release();
          }
        case SingleSource =>
          conn.driver.Close();
      }
    }

    /** `_createConnection()`: the held connection when there is one;
        otherwise a new mock connection, a connection from the pool, or a new
        single connection, with the clean-up each callback does on an error. */
    method CreateConnection(opening: Opening) returns (r: Result<ConnRef>)
      requires Valid()
      modifies ConnObjects(if opening.conn.Some? then Some(Driver(opening.conn.value)) else None)
      ensures connection.Some? ==> r == Ok(connection.value)
      ensures connection.None? ==> (r.Err? <==> OpenError(source, opening).Some?)
      ensures connection.None? && r.Err? ==> r.error == OpenError(source, opening).value
      ensures r.Ok? ==> ConnMatches(source, r.value)
      ensures Specs() == old(Specs())
      ensures connection.None? && r.Ok? && source.MockSource? ==>
        fresh(r.value.mock) && r.value.mock.lastTransactionAction == "none"
      ensures connection.None? && r.Ok? && source.PoolSource? ==> r == Ok(Driver(opening.conn.value))
      ensures connection.None? && r.Ok? && source.SingleSource? ==>
        fresh(r.value.driver) && r.value.driver.closes == 0 && r.value.driver.releases == 0
      ensures opening.conn.Some? ==>
        var released := connection.None? && source.PoolSource? &&
          AcquireDecision(opening.err, true, opening.conn.value.hasRelease, opening.cleanupThrows).1;
        opening.conn.value.releases == old(opening.conn.value.releases) + (if released then 1 else 0) &&
        opening.conn.value.closes == old(opening.conn.value.closes)
    {
      if connection.Some? {
        return Ok(connection.value);
      }
      match source {
        case MockSource(_) =>
          var m := new MockTediousConnection.MockConnection();
          r := Ok(Mock(m));
        case PoolSource =>
          var hasConn := opening.conn.Some?;
          var d := AcquireDecision(opening.err, hasConn, hasConn && opening.conn.value.hasRelease, opening.cleanupThrows);
          if d.1 {
            opening.conn.value.Release();
          }
          if d.0.Some? {
            return Err(d.0.value);
          }
          if !hasConn {
            return Err(TypeError);
          }
          r := Ok(Driver(opening.conn.value));
        case SingleSource =>
          var c := new DriverConnection(false);
          var d := ConnectDecision(opening.err, opening.cleanupThrows);
          if d.1 {
            c.Close();
          }
          if d.0.Some? {
            return Err(d.0.value);
          }
          r := Ok(Driver(c));
      }
    }

    /** `_executeRequest(connection, fnName)`: runs the request's events, then
        on completion disposes the connection outside a transaction (inside
        one it only clears the SQL) and settles the promise. A mock
        connection produces its events from the mock-data callback, which
        sees the builder's SQL and parameters. */
    method ExecuteRequest(conn: ConnRef, procedure: bool, script: Script) returns (outcome: Settlement<Answer>)
      requires Valid() && ConnMatches(source, conn)
      modifies this, ConnObjects(Some(conn))
      ensures Valid()
      ensures var sc := ScriptFor(source, old(sql), old(parameters), script);
        var st := RunFrom(old(Config()), Initial(old(Specs())), sc.events);
        outcome == Finish(old(Config()), st, sc.completion).settlement && Specs() == st.table
      ensures old(transaction) ==> State() == old(State()).(sql := None)
      ensures !old(transaction) ==> State() == old(State())
      ensures conn.Driver? ==>
        var d := if old(transaction) then NoDisposal else DisposalFor(source, conn.driver.hasRelease);
        conn.driver.releases == old(conn.driver.releases) + (if d == Release then 1 else 0) &&
        conn.driver.closes == old(conn.driver.closes) + (if d == Close then 1 else 0)
    {
      ghost var cfg, specs0 := Config(), Specs();
      var sc: Script;
      if conn.Mock? {
        sc := MockRequest(conn.mock, source.callback, sql, parameters, procedure);
      } else {
        sc := script;
      }
      var settlement, results, delivered, outputCalls := RunEvents(sc.events);
      ghost var st := RunState(settlement, results, delivered, outputCalls, Specs());
      assert st == RunFrom(cfg, Initial(specs0), sc.events);
      ghost var specs1 := Specs();
      if !transaction {
        DisposeConnection(conn);
        assert Specs() == specs1;
      } else {
        sql := None;
      }
      outcome := Settle(settlement,
        if sc.completion.error.Some? then Rejected(sc.completion.error.value)
        else if forEachRow.Some? || returnRowCount then Resolved(Count(sc.completion.rowCount))
        else Resolved(Collected(results)));
      assert outcome == Finish(cfg, st, sc.completion).settlement;
    }

    /** `execute()`: clears the cursor, opens (or reuses) a connection, and
        runs the request on it; a connection that cannot be opened rejects. */
    method Execute(opening: Opening, script: Script) returns (outcome: Settlement<Answer>)
      requires Valid()
      modifies this, ConnObjects(connection), ConnObjects(if opening.conn.Some? then Some(Driver(opening.conn.value)) else None)
      ensures Valid()
      ensures old(connection).None? && OpenError(source, opening).Some? ==>
        outcome == Rejected(OpenError(source, opening).value) && State() == old(State()).(lastColumn := null)
      ensures old(connection).Some? || OpenError(source, opening).None? ==>
        var sc := ScriptFor(source, old(sql), old(parameters), script);
        outcome == Finish(old(Config()), RunFrom(old(Config()), Initial(old(Specs())), sc.events), sc.completion).settlement &&
        State() == old(State()).(lastColumn := null, sql := if old(transaction) then None else old(sql))
    {
      outcome := Submit(opening, false, script);
    }

    /** `callProcedure()`: `execute()` with the request submitted as a
        procedure call, which a mock connection handles like `execSql`. */
    method CallProcedure(opening: Opening, script: Script) returns (outcome: Settlement<Answer>)
      requires Valid()
      modifies this, ConnObjects(connection), ConnObjects(if opening.conn.Some? then Some(Driver(opening.conn.value)) else None)
      ensures Valid()
      ensures old(connection).None? && OpenError(source, opening).Some? ==>
        outcome == Rejected(OpenError(source, opening).value) && State() == old(State()).(lastColumn := null)
      ensures old(connection).Some? || OpenError(source, opening).None? ==>
        var sc := ScriptFor(source, old(sql), old(parameters), script);
        outcome == Finish(old(Config()), RunFrom(old(Config()), Initial(old(Specs())), sc.events), sc.completion).settlement &&
        State() == old(State()).(lastColumn := null, sql := if old(transaction) then None else old(sql))
    {
      outcome := Submit(opening, true, script);
    }

    method Submit(opening: Opening, procedure: bool, script: Script) returns (outcome: Settlement<Answer>)
      requires Valid()
      modifies this, ConnObjects(connection), ConnObjects(if opening.conn.Some? then Some(Driver(opening.conn.value)) else None)
      ensures Valid()
      ensures old(connection).None? && OpenError(source, opening).Some? ==>
        outcome == Rejected(OpenError(source, opening).value) && State() == old(State()).(lastColumn := null)
      ensures old(connection).Some? || OpenError(source, opening).None? ==>
        var sc := ScriptFor(source, old(sql), old(parameters), script);
        outcome == Finish(old(Config()), RunFrom(old(Config()), Initial(old(Specs())), sc.events), sc.completion).settlement &&
        State() == old(State()).(lastColumn := null, sql := if old(transaction) then None else old(sql))
    {
      ghost var cfg, specs0 := Config(), Specs();
      ghost var sc := ScriptFor(source, sql, parameters, script);
      lastColumn := null;
      ghost var state0 := State();
      assert Specs() == specs0 && Config() == cfg;
      var c := CreateConnection(opening);
      if c.Err? {
        return Rejected(c.error);
      }
      assert Specs() == specs0 && Config() == cfg && State() == state0;
      outcome := ExecuteRequest(c.value, procedure, script);
      assert outcome == Finish(cfg, RunFrom(cfg, Initial(specs0), sc.events), sc.completion).settlement;
    }

    /** `beginTransaction()`: opens (or reuses) a connection, holds it, and
        begins a transaction on it; the transaction flag is set whatever the
        driver answers, and the promise resolves with the builder. */
    method BeginTransaction(opening: Opening, beginErr: Option<Error>) returns (outcome: Settlement<QueryBuilder>)
      requires Valid()
      modifies this, ConnObjects(connection), ConnObjects(if opening.conn.Some? then Some(Driver(opening.conn.value)) else None)
      ensures Valid() && columns == old(columns)
      ensures old(connection).None? && OpenError(source, opening).Some? ==>
        outcome == Rejected(OpenError(source, opening).value) && State() == old(State())
      ensures old(connection).Some? || OpenError(source, opening).None? ==>
        connection.Some? && (old(connection).Some? ==> connection == old(connection)) &&
        State() == old(State()).(transaction := true, connection := connection)
      ensures old(connection).Some? || OpenError(source, opening).None? ==>
        var err := if connection.value.Mock? then None else beginErr;
        outcome == (if err.Some? then Rejected(err.value) else Resolved(this)) &&
        (connection.value.Mock? ==> connection.value.mock.lastTransactionAction == "begin")
    {
      var c := CreateConnection(opening);
      if c.Err? {
        return Rejected(c.error);
      }
      connection := Some(c.value);
      var err: Option<Error>;
      if c.value.Mock? {
        err := c.value.mock.BeginTransaction();
      } else {
        err := beginErr;
      }
      transaction := true;
      outcome := if err.Some? then Rejected(err.value) else Resolved(this);
    }

    /** `commitTransaction()`: with no held connection, reading its
        `commitTransaction` is a TypeError; otherwise a success clears the
        transaction flag and disposes the connection (which stays held). */
    method CommitTransaction(driverErr: Option<Error>) returns (r: Result<Settlement<()>>)
      requires Valid()
      modifies this, ConnObjects(connection)
      ensures Valid() && columns == old(columns)
      ensures old(connection).None? ==> r == Err(TypeError) && State() == old(State())
      ensures old(connection).Some? ==>
        var err := if old(connection).value.Mock? then None else driverErr;
        (err.Some? ==> r == Ok(Rejected(err.value)) && State() == old(State())) &&
        (err.None? ==> r == Ok(Resolved(())) && State() == old(State()).(transaction := false))
      ensures old(connection).Some? && old(connection).value.Mock? ==>
        old(connection).value.mock.lastTransactionAction == "commit"
      ensures old(connection).Some? && old(connection).value.Driver? ==>
        var conn := old(connection).value.driver;
        var d := if driverErr.Some? then NoDisposal else DisposalFor(source, conn.hasRelease);
        conn.releases == old(conn.releases) + (if d == Release then 1 else 0) &&
        conn.closes == old(conn.closes) + (if d == Close then 1 else 0)
    {
      if connection.None? {
        return Err(TypeError);
      }
      var conn := connection.value;
      var err: Option<Error>;
      if conn.Mock? {
        err := conn.mock.CommitTransaction();
      } else {
        err := driverErr;
      }
      if err.Some? {
        return Ok(Rejected(err.value));
      }
      transaction := false;
      DisposeConnection(conn);
      r := Ok(Resolved(()));
    }

    /** `saveTransaction()`: never changes the flag and never disposes. */
    method SaveTransaction(driverErr: Option<Error>) returns (r: Result<Settlement<()>>)
      requires Valid()
      modifies ConnObjects(connection)
      ensures old(connection).None? ==> r == Err(TypeError)
      ensures old(connection).Some? ==>
        var err := if old(connection).value.Mock? then None else driverErr;
        r == Ok(if err.Some? then Rejected(err.value) else Resolved(()))
      ensures old(connection).Some? && old(connection).value.Mock? ==>
        old(connection).value.mock.lastTransactionAction == "save"
      ensures old(connection).Some? && old(connection).value.Driver? ==> unchanged(old(connection).value.driver)
    {
      if connection.None? {
        return Err(TypeError);
      }
      var err: Option<Error>;
      if connection.value.Mock? {
        err := connection.value.mock.SaveTransaction();
      } else {
        err := driverErr;
      }
      r := Ok(if err.Some? then Rejected(err.value) else Resolved(()));
    }

    /** `rollbackTransaction()`: like `commitTransaction()`, a success clears
        the flag and disposes the connection. */
    method RollbackTransaction(driverErr: Option<Error>) returns (r: Result<Settlement<()>>)
      requires Valid()
      modifies this, ConnObjects(connection)
      ensures Valid() && columns == old(columns)
      ensures old(connection).None? ==> r == Err(TypeError) && State() == old(State())
      ensures old(connection).Some? ==>
        var err := if old(connection).value.Mock? then None else driverErr;
        (err.Some? ==> r == Ok(Rejected(err.value)) && State() == old(State())) &&
        (err.None? ==> r == Ok(Resolved(())) && State() == old(State()).(transaction := false))
      ensures old(connection).Some? && old(connection).value.Mock? ==>
        old(connection).value.mock.lastTransactionAction == "rollback"
      ensures old(connection).Some? && old(connection).value.Driver? ==>
        var conn := old(connection).value.driver;
        var d := if driverErr.Some? then NoDisposal else DisposalFor(source, conn.hasRelease);
        conn.releases == old(conn.releases) + (if d == Release then 1 else 0) &&
        conn.closes == old(conn.closes) + (if d == Close then 1 else 0)
    {
      if connection.None? {
        return Err(TypeError);
      }
      var conn := connection.value;
      var err: Option<Error>;
      if conn.Mock? {
        err := conn.mock.RollbackTransaction();
      } else {
        err := driverErr;
      }
      if err.Some? {
        return Ok(Rejected(err.value));
      }
      transaction := false;
      DisposeConnection(conn);
      r := Ok(Resolved(()));
    }
  }
}
