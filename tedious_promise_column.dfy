/**
  A column mapping: where the value of one result-set column goes in the
  object built for a row (flat under the column's name, or deep along a dotted
  path), and how the value is extracted from the driver's cell.
 */
module TediousPromiseColumn {
  import opened Host

  /** A replacement for `GetColumnValue`: may return a value or throw. */
  type ValueGetter = Cell -> Result<Value>

  /** A replacement for `_applyMapping`: receives the cell and the result
      object built so far, and yields the result object afterwards. */
  type MappingApplier = (Cell, Fields) -> Result<Fields>

  datatype Getter = DefaultGetter | CustomGetter(get: ValueGetter)

  datatype Applier = DefaultApplier | CustomApplier(apply: MappingApplier)

  /** What a mapping does, as a value: its column name, its target path
      (`None` when undefined) and its two possibly overridden behaviours. */
  datatype ColumnSpec = ColumnSpec(name: string, path: Option<string>, getter: Getter, applier: Applier)

  function DefaultSpec(name: string, path: Option<string>): ColumnSpec
  {
    ColumnSpec(name, path, DefaultGetter, DefaultApplier)
  }

  // ---------------------------------------------------------------------------
  // Value extraction

  /** `GetColumnValue` as the mapping currently has it. */
  function GetValue(spec: ColumnSpec, cell: Cell): (r: Result<Value>)
    ensures spec.getter.DefaultGetter? ==> r == Ok(cell.value)
  {
    match spec.getter
    case DefaultGetter => Ok(cell.value)
    case CustomGetter(get) => get(cell)
  }

  /** `String.prototype.toUpperCase` on one character, for the characters
      whose upper case is a single ASCII letter. */
  function UpperChar(c: char): char
  {
    if 'a' <= c <= 'z' then (c as int - 32) as char
    else if c == '\U{017F}' then 'S'  // LATIN SMALL LETTER LONG S
    else if c == '\U{0131}' then 'I'  // LATIN SMALL LETTER DOTLESS I
    else c
  }

  function ToUpper(s: string): (r: string)
  {
    seq(|s|, i requires 0 <= i < |s| => UpperChar(s[i]))
  }

  const TrueWords: set<string> := {"TRUE", "T", "Y", "YES", "1"}
  const FalseWords: set<string> := {"FALSE", "F", "N", "NO", "0"}

  /** The `asBoolean` extractor applied to a cell's value. */
  function AsBooleanValue(v: Value): (r: Result<Value>)
  {
    if IsNullish(v) then Ok(Null)
    else if v.Num? then Ok(Bool(v.n != 0))
    else if v.Str? && ToUpper(v.s) in TrueWords then Ok(Bool(true))
    else if v.Str? && ToUpper(v.s) in FalseWords then Ok(Bool(false))
    else Err(CannotConvertToBoolean(v))
  }

  /** The function `asBoolean` installs as `GetColumnValue`. */
  function CellAsBoolean(cell: Cell): Result<Value>
  {
    AsBooleanValue(cell.value)
  }

  /** The whole decision table of `asBoolean`: null or undefined give null, a
      finite number gives whether it is nonzero, the ten words give their
      truth value, and every other value (NaN, the infinities, booleans,
      objects, any other string) throws naming the value. */
  lemma AsBooleanDecisionTable(v: Value)
    ensures AsBooleanValue(v) == Ok(Null) <==> v.Undefined? || v.Null?
    ensures v.Num? ==> AsBooleanValue(v) == Ok(Bool(v.n != 0))
    ensures v.Str? ==> (AsBooleanValue(v) == Ok(Bool(true)) <==> ToUpper(v.s) in TrueWords)
    ensures v.Str? ==> (AsBooleanValue(v) == Ok(Bool(false)) <==> ToUpper(v.s) in FalseWords)
    ensures AsBooleanValue(v).Err? <==>
      !(IsNullish(v) || v.Num? || (v.Str? && ToUpper(v.s) in TrueWords + FalseWords))
    ensures AsBooleanValue(v).Err? ==> AsBooleanValue(v).error == CannotConvertToBoolean(v)
    ensures AsBooleanValue(v).Ok? ==> AsBooleanValue(v).value.Null? || AsBooleanValue(v).value.Bool?
  {
  }

  lemma {:induction false} ToUpperIdempotent(s: string)
    ensures ToUpper(ToUpper(s)) == ToUpper(s)
  {
    assert forall i :: 0 <= i < |s| ==> UpperChar(UpperChar(s[i])) == UpperChar(s[i]);
  }

  /** Strings are compared without regard to case: two strings with the same
      upper case convert to the same boolean, or both throw (each naming its
      own value), and every string converts as its upper case does. */
  lemma AsBooleanIgnoresCase(s: string, t: string)
    ensures ToUpper(s) == ToUpper(t) ==>
      AsBooleanValue(Str(s)).Ok? == AsBooleanValue(Str(t)).Ok? &&
      (AsBooleanValue(Str(s)).Ok? ==> AsBooleanValue(Str(s)) == AsBooleanValue(Str(t)))
    ensures AsBooleanValue(Str(s)).Ok? ==> AsBooleanValue(Str(s)) == AsBooleanValue(Str(ToUpper(s)))
    ensures AsBooleanValue(Str(s)).Err? ==> AsBooleanValue(Str(ToUpper(s))).Err?
  {
    ToUpperIdempotent(s);
  }

  /** `String(b)` for a boolean. */
  function BooleanText(b: bool): string
  {
    if b then "true" else "false"
  }

  /** A boolean written out as text converts back to itself, and the digits
      "1" and "0" agree with the numbers 1 and 0. */
  lemma AsBooleanReadsBackBooleanText(b: bool)
    ensures AsBooleanValue(Str(BooleanText(b))) == Ok(Bool(b))
    ensures AsBooleanValue(Str("1")) == AsBooleanValue(Num(1)) && AsBooleanValue(Str("0")) == AsBooleanValue(Num(0))
  {
    assert ToUpper("true") == "TRUE";
    assert ToUpper("false") == "FALSE";
    assert ToUpper("1") == "1";
    assert ToUpper("0") == "0";
  }

  // ---------------------------------------------------------------------------
  // Dotted paths and the deep set of lodash-deep

  /** `path.split('.')`. */
  function SplitPath(p: string): (keys: seq<string>)
    ensures |keys| >= 1
  {
    if p == [] then [""]
    else
      var rest := SplitPath(p[1..]);
      if p[0] == '.' then [""] + rest else [[p[0]] + rest[0]] + rest[1..]
  }

  /** `keys.join('.')`. */
  function JoinPath(keys: seq<string>): string
    requires |keys| >= 1
  {
    if |keys| == 1 then keys[0] else keys[0] + "." + JoinPath(keys[1..])
  }

  lemma {:induction false} SplitAfterPlainPrefix(k: string, rest: string)
    requires '.' !in k
    ensures SplitPath(k + rest) == [k + SplitPath(rest)[0]] + SplitPath(rest)[1..]
  {
    if k != [] {
      assert (k + rest)[1..] == k[1..] + rest;
      SplitAfterPlainPrefix(k[1..], rest);
      assert [k[0]] + (k[1..] + SplitPath(rest)[0]) == k + SplitPath(rest)[0];
    } else {
      assert k + rest == rest;
      assert k + SplitPath(rest)[0] == SplitPath(rest)[0];
      assert [SplitPath(rest)[0]] + SplitPath(rest)[1..] == SplitPath(rest);
    }
  }

  /** Splitting a joined path gives back its keys when no key holds a dot. */
  lemma {:induction false} SplitJoinPath(keys: seq<string>)
    requires |keys| >= 1
    requires forall i :: 0 <= i < |keys| ==> '.' !in keys[i]
    ensures SplitPath(JoinPath(keys)) == keys
  {
    if |keys| == 1 {
      SplitAfterPlainPrefix(keys[0], "");
      assert keys[0] + "" == keys[0];
    } else {
      var rest := "." + JoinPath(keys[1..]);
      assert JoinPath(keys) == keys[0] + rest;
      SplitAfterPlainPrefix(keys[0], rest);
      SplitJoinPath(keys[1..]);
      assert rest[1..] == JoinPath(keys[1..]);
      assert SplitPath(rest) == [""] + keys[1..];
      assert keys[0] + "" == keys[0];
    }
  }

  /** Joining the pieces of a split path gives back the path. */
  lemma {:induction false} JoinSplitPath(p: string)
    ensures JoinPath(SplitPath(p)) == p
  {
    if p != [] {
      var rest := SplitPath(p[1..]);
      JoinSplitPath(p[1..]);
      if p[0] == '.' {
        assert SplitPath(p)[1..] == rest;
        assert JoinPath(SplitPath(p)) == "" + "." + p[1..];
        assert p == [p[0]] + p[1..];
      } else {
        var keys := SplitPath(p);
        assert keys[0] == [p[0]] + rest[0];
        if |rest| == 1 {
          assert JoinPath(keys) == [p[0]] + rest[0];
        } else {
          assert keys[1..] == rest[1..];
          assert JoinPath(keys) == [p[0]] + rest[0] + "." + JoinPath(rest[1..]);
          assert JoinPath(rest) == rest[0] + "." + JoinPath(rest[1..]);
        }
        assert p == [p[0]] + p[1..];
      }
    }
  }

  /** `_.deepSet(result, path, value)` along already split keys: the last key
      receives the value; an intermediate key holding no object is given a
      fresh empty one. */
  function DeepSet(obj: Fields, keys: seq<string>, v: Value): Fields
    requires |keys| >= 1
    decreases |keys|
  {
    if |keys| == 1 then obj[keys[0] := v]
    else
      var child := if keys[0] in obj && obj[keys[0]].Obj? then obj[keys[0]].fields else map[];
      obj[keys[0] := Obj(DeepSet(child, keys[1..], v))]
  }

  /** Reading `result.k1.k2...kn`: `None` when some step is missing or not an object. */
  function DeepGet(obj: Fields, keys: seq<string>): Option<Value>
    requires |keys| >= 1
    decreases |keys|
  {
    if keys[0] !in obj then None
    else if |keys| == 1 then Some(obj[keys[0]])
    else if obj[keys[0]].Obj? then DeepGet(obj[keys[0]].fields, keys[1..])
    else None
  }

  /** Two paths that differ at some position after a common prefix. */
  predicate Diverge(a: seq<string>, b: seq<string>)
    decreases |a|
  {
    |a| >= 1 && |b| >= 1 && (a[0] != b[0] || Diverge(a[1..], b[1..]))
  }

  /** Reading back along the path that was set gives the value set. */
  lemma {:induction false} DeepGetAfterSet(obj: Fields, keys: seq<string>, v: Value)
    requires |keys| >= 1
    ensures DeepGet(DeepSet(obj, keys, v), keys) == Some(v)
    decreases |keys|
  {
    if |keys| > 1 {
      var child := if keys[0] in obj && obj[keys[0]].Obj? then obj[keys[0]].fields else map[];
      DeepGetAfterSet(child, keys[1..], v);
    }
  }

  /** Setting along one path leaves every path that diverges from it as it was. */
  lemma {:induction false} DeepSetLeavesOtherPaths(obj: Fields, keys: seq<string>, v: Value, other: seq<string>)
    requires |keys| >= 1 && |other| >= 1
    requires Diverge(keys, other)
    ensures DeepGet(DeepSet(obj, keys, v), other) == DeepGet(obj, other)
    decreases |keys|
  {
    if keys[0] == other[0] {
      var child := if keys[0] in obj && obj[keys[0]].Obj? then obj[keys[0]].fields else map[];
      assert |keys| > 1 && |other| > 1;
      DeepSetLeavesOtherPaths(child, keys[1..], v, other[1..]);
      if keys[0] in obj && obj[keys[0]].Obj? {
        assert DeepGet(obj, other) == DeepGet(child, other[1..]);
      } else {
        assert DeepGet(map[], other[1..]) == None;
      }
    }
  }

  /** At the top level a deep set adds or replaces only the first key of the path. */
  lemma DeepSetTopLevel(obj: Fields, keys: seq<string>, v: Value)
    requires |keys| >= 1
    ensures DeepSet(obj, keys, v).Keys == obj.Keys + {keys[0]}
    ensures forall k :: k in obj && k != keys[0] ==> DeepSet(obj, keys, v)[k] == obj[k]
  {
  }

  // ---------------------------------------------------------------------------
  // Applying a mapping to a result object

  /** `_applyMapping` as the mapping currently has it. */
  function Apply(spec: ColumnSpec, cell: Cell, result: Fields): Result<Fields>
  {
    match spec.applier
    case CustomApplier(apply) => apply(cell, result)
    case DefaultApplier =>
      var value :- GetValue(spec, cell);
      if spec.path.Some? && spec.path.value != "" then Ok(DeepSet(result, SplitPath(spec.path.value), value))
      else Ok(result[spec.name := value])
  }

  /** With no path (or the empty path) the value goes under the column's name
      and no other key changes. */
  lemma ApplyFlat(spec: ColumnSpec, cell: Cell, result: Fields)
    requires spec.applier.DefaultApplier? && (spec.path.None? || spec.path.value == "")
    requires GetValue(spec, cell).Ok?
    ensures Apply(spec, cell, result).Ok?
    ensures Apply(spec, cell, result).value.Keys == result.Keys + {spec.name}
    ensures Apply(spec, cell, result).value[spec.name] == GetValue(spec, cell).value
    ensures forall k :: k in result && k != spec.name ==> Apply(spec, cell, result).value[k] == result[k]
  {
  }

  /** With a dotted path the value can be read back along the path, and every
      path that diverges from it reads as before. */
  lemma ApplyDeep(spec: ColumnSpec, cell: Cell, result: Fields, other: seq<string>)
    requires spec.applier.DefaultApplier? && spec.path.Some? && spec.path.value != ""
    requires GetValue(spec, cell).Ok?
    requires |other| >= 1 && Diverge(SplitPath(spec.path.value), other)
    ensures Apply(spec, cell, result).Ok?
    ensures DeepGet(Apply(spec, cell, result).value, SplitPath(spec.path.value)) == Some(GetValue(spec, cell).value)
    ensures DeepGet(Apply(spec, cell, result).value, other) == DeepGet(result, other)
  {
    DeepGetAfterSet(result, SplitPath(spec.path.value), GetValue(spec, cell).value);
    DeepSetLeavesOtherPaths(result, SplitPath(spec.path.value), GetValue(spec, cell).value, other);
  }

  /** When extraction throws, the default mapping throws the same error before
      writing anything. */
  lemma ApplyPropagatesExtractionError(spec: ColumnSpec, cell: Cell, result: Fields)
    requires spec.applier.DefaultApplier? && GetValue(spec, cell).Err?
    ensures Apply(spec, cell, result) == Err(GetValue(spec, cell).error)
  {
  }

  /** Two columns mapped under a common first key and different second keys
      (as `firstLevel.alpha` and `firstLevel.beta.third`) both read back. */
  lemma SiblingPathsBothReadBack(result: Fields, top: string, a: seq<string>, b: seq<string>, va: Value, vb: Value)
    requires |a| >= 1 && |b| >= 1 && Diverge(a, b)
    ensures DeepGet(DeepSet(DeepSet(result, [top] + a, va), [top] + b, vb), [top] + a) == Some(va)
    ensures DeepGet(DeepSet(DeepSet(result, [top] + a, va), [top] + b, vb), [top] + b) == Some(vb)
  {
    var first := DeepSet(result, [top] + a, va);
    DeepGetAfterSet(result, [top] + a, va);
    DeepGetAfterSet(first, [top] + b, vb);
    assert ([top] + b)[1..] == b && ([top] + a)[1..] == a;
    assert Diverge([top] + b, [top] + a) by { DivergeSymmetric(a, b); }
    DeepSetLeavesOtherPaths(first, [top] + b, vb, [top] + a);
  }

  lemma {:induction false} DivergeSymmetric(a: seq<string>, b: seq<string>)
    requires Diverge(a, b)
    ensures Diverge(b, a)
    decreases |a|
  {
    if a[0] == b[0] {
      DivergeSymmetric(a[1..], b[1..]);
    }
  }

  // ---------------------------------------------------------------------------
  // The mapping object

  /** `TediousPromiseColumn`: a mapping whose extraction and assignment
      behaviours can be replaced after it is created. */
  class ColumnMapping {
    const name: string
    const path: Option<string>
    var getter: Getter
    var applier: Applier

    function Spec(): ColumnSpec
      reads this
    {
      ColumnSpec(name, path, getter, applier)
    }

    constructor (name: string, path: Option<string>)
      ensures Spec() == DefaultSpec(name, path)
    {
      this.name := name;
      this.path := path;
      getter := DefaultGetter;
      applier := DefaultApplier;
    }

    /** `new TediousPromiseColumn(name, path)`: the name must be a string and
        the path, when given, a string. */
    static method Create(name: Value, path: Value) returns (r: Result<ColumnMapping>)
      ensures r.Ok? <==> name.Str? && (path.Undefined? || path.Str?)
      ensures !name.Str? ==> r == Err(NameNotString)
      ensures name.Str? && !(path.Undefined? || path.Str?) ==> r == Err(PathNotString)
      ensures r.Ok? ==> fresh(r.value)
      ensures r.Ok? ==> r.value.Spec() == DefaultSpec(name.s, if path.Str? then Some(path.s) else None)
    {
      if !name.Str? {
        return Err(NameNotString);
      }
      if !path.Undefined? && !path.Str? {
        return Err(PathNotString);
      }
      var c := new ColumnMapping(name.s, if path.Str? then Some(path.s) else None);
      r := Ok(c);
    }

    /** `overrideGetValue(fn)`: replaces the extraction only, and returns the mapping. */
    method OverrideGetValue(f: Callable<ValueGetter>) returns (r: Result<ColumnMapping>)
      modifies this
      ensures f.NonFunction? ==> r == Err(ArgumentNotFunction) && Spec() == old(Spec())
      ensures f.Function? ==> r == Ok(this) && Spec() == old(Spec()).(getter := CustomGetter(f.fn))
    {
      if f.NonFunction? {
        return Err(ArgumentNotFunction);
      }
      getter := CustomGetter(f.fn);
      r := Ok(this);
    }

    /** `overrideApplyMapping(fn)`: replaces the assignment step only, and returns the mapping. */
    method OverrideApplyMapping(f: Callable<MappingApplier>) returns (r: Result<ColumnMapping>)
      modifies this
      ensures f.NonFunction? ==> r == Err(ArgumentNotFunction) && Spec() == old(Spec())
      ensures f.Function? ==> r == Ok(this) && Spec() == old(Spec()).(applier := CustomApplier(f.fn))
    {
      if f.NonFunction? {
        return Err(ArgumentNotFunction);
      }
      applier := CustomApplier(f.fn);
      r := Ok(this);
    }

    /** `asBoolean()`: installs the boolean extractor through `overrideGetValue`. */
    method AsBoolean() returns (r: Result<ColumnMapping>)
      modifies this
      ensures r == Ok(this) && Spec() == old(Spec()).(getter := CustomGetter(CellAsBoolean))
      ensures forall cell :: GetValue(Spec(), cell) == AsBooleanValue(cell.value)
    {
      r := OverrideGetValue(Function(CellAsBoolean));
    }
  }
}
