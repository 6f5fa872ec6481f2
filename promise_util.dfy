/**
  The promise-library adapter: two built-in libraries selectable by name, and
  the shape check a caller-supplied library must pass (an ordered sequence of
  capability checks that reports the first one missing).
 */
module PromiseUtil {
  import opened Host

  /** `deferred.promise`: whether it is an object and whether its `then` is a function. */
  datatype PromiseShape = PromiseShape(isObject: bool, thenIsFunction: bool)

  /** What `defer()` returns: null or undefined (reading a property of it
      throws a TypeError), or an object described by its members. Calling its
      `resolve` either returns or throws `resolveThrows`. */
  datatype DeferredShape =
    | NullishDeferred
    | DeferredObject(rejectIsFunction: bool, resolveIsFunction: bool,
                     promise: PromiseShape, resolveThrows: Option<Error>)

  /** Calling a library's `defer` function. */
  datatype DeferCall = DeferReturns(deferred: DeferredShape) | DeferThrows(error: Error)

  /** A value offered as a promise library. `defer` is `None` when it is not a function. */
  datatype LibraryShape =
    | NotAnObject
    | LibraryObject(defer: Option<DeferCall>, rejectIsFunction: bool, resolveIsFunction: bool)

  /** A library in force: one of the two named ones or one a caller supplied. */
  datatype Library = Q | Es6 | Custom(shape: LibraryShape)

  /** The argument of `setPromiseLibrary`: a name or a library object. */
  datatype LibraryArg = LibraryName(name: string) | LibraryValue(shape: LibraryShape)

  /** The calls validation makes on the library under test. */
  datatype Call = CallDefer | CallResolve

  /** The outcome of `validateLibrary`: the error thrown, if any, and the calls made. */
  datatype Validation = Validation(error: Option<Error>, calls: seq<Call>)

  /** What the ES6 adapter's `defer` builds: a native promise and the two
      functions its executor receives. */
  function Es6Deferred(): DeferredShape
  {
    DeferredObject(true, true, PromiseShape(true, true), None)
  }

  /** The `es6` entry: `{ defer: es6Defer, resolve: Promise.resolve, reject: Promise.reject }`. */
  function Es6Shape(): LibraryShape
  {
    LibraryObject(Some(DeferReturns(Es6Deferred())), true, true)
  }

  /** The `q` library's published interface: static `defer`, `resolve` and
      `reject`, and a deferred object carrying `promise`, `resolve` and `reject`. */
  function QShape(): LibraryShape
  {
    LibraryObject(Some(DeferReturns(DeferredObject(true, true, PromiseShape(true, true), None))), true, true)
  }

  function ShapeOf(lib: Library): LibraryShape
  {
    match lib
    case Q => QShape()
    case Es6 => Es6Shape()
    case Custom(shape) => shape
  }

  /** `getNamedLibrary`: only the own keys "q" and "es6" of the table are found. */
  function GetNamedLibrary(name: string): (r: Result<Library>)
    ensures r.Ok? <==> name == "q" || name == "es6"
    ensures name == "q" ==> r == Ok(Q)
    ensures name == "es6" ==> r == Ok(Es6)
    ensures r.Err? ==> r.error == NamedLibraryNotFound(name)
  {
    if name == "q" then Ok(Q)
    else if name == "es6" then Ok(Es6)
    else Err(NamedLibraryNotFound(name))
  }

  /** `validateLibrary`, check by check. */
  function ValidateLibrary(lib: LibraryShape): Validation
  {
    if !lib.LibraryObject? then Validation(Some(LibraryNotObject), [])
    else if lib.defer.None? then Validation(Some(LibraryDeferMissing), [])
    else if !lib.rejectIsFunction then Validation(Some(LibraryRejectMissing), [])
    else if !lib.resolveIsFunction then Validation(Some(LibraryResolveMissing), [])
    else match lib.defer.value
      case DeferThrows(e) => Validation(Some(e), [CallDefer])
      case DeferReturns(NullishDeferred) => Validation(Some(TypeError), [CallDefer])
      case DeferReturns(d) =>
        if !d.rejectIsFunction then Validation(Some(DeferredRejectMissing), [CallDefer])
        else if !d.resolveIsFunction then Validation(Some(DeferredResolveMissing), [CallDefer])
        else if !d.promise.isObject then Validation(Some(DeferredPromiseMissing), [CallDefer])
        else if !d.promise.thenIsFunction then Validation(Some(PromiseThenMissing), [CallDefer])
        else Validation(d.resolveThrows, [CallDefer, CallResolve])
  }

  /** `getOrValidateLibrary`: a string is looked up by name without
      validation; anything else is validated and returned unchanged. */
  function GetOrValidateLibrary(arg: LibraryArg): (r: Result<Library>)
    ensures arg.LibraryName? ==> r == GetNamedLibrary(arg.name)
    ensures arg.LibraryValue? ==>
      (r.Ok? <==> ValidateLibrary(arg.shape).error.None?) &&
      (r.Ok? ==> r.value == Custom(arg.shape)) &&
      (r.Err? ==> Some(r.error) == ValidateLibrary(arg.shape).error)
  {
    match arg
    case LibraryName(name) => GetNamedLibrary(name)
    case LibraryValue(shape) =>
      var v := ValidateLibrary(shape);
      if v.error.Some? then Err(v.error.value) else Ok(Custom(shape))
  }

  // ---------------------------------------------------------------------------
  // The reference reading: an ordered list of capability checks, first failure wins.

  /** One capability check and the error it throws when it fails. */
  datatype Check = Check(passes: bool, failure: Error)

  function FirstFailure(checks: seq<Check>): Option<Error>
  {
    if checks == [] then None
    else if !checks[0].passes then Some(checks[0].failure)
    else FirstFailure(checks[1..])
  }

  /** Checks 1-4, made before `defer()` is called. */
  function LibraryChecks(lib: LibraryShape): seq<Check>
  {
    var isObj := lib.LibraryObject?;
    [ Check(isObj, LibraryNotObject),
      Check(isObj && lib.defer.Some?, LibraryDeferMissing),
      Check(isObj && lib.rejectIsFunction, LibraryRejectMissing),
      Check(isObj && lib.resolveIsFunction, LibraryResolveMissing) ]
  }

  /** Checks 5-8, made on the deferred object `defer()` returned. */
  function DeferredChecks(d: DeferredShape): seq<Check>
    requires d.DeferredObject?
  {
    [ Check(d.rejectIsFunction, DeferredRejectMissing),
      Check(d.resolveIsFunction, DeferredResolveMissing),
      Check(d.promise.isObject, DeferredPromiseMissing),
      Check(d.promise.thenIsFunction, PromiseThenMissing) ]
  }

  /** The first failing check is the one at the smallest index whose check
      fails; no failure means every check passes. */
  lemma {:induction false} FirstFailureIsEarliest(checks: seq<Check>)
    ensures FirstFailure(checks).None? <==> forall i :: 0 <= i < |checks| ==> checks[i].passes
    ensures FirstFailure(checks).Some? ==>
      exists i :: 0 <= i < |checks| && !checks[i].passes && FirstFailure(checks) == Some(checks[i].failure) &&
        forall j :: 0 <= j < i ==> checks[j].passes
  {
    if checks != [] && checks[0].passes {
      FirstFailureIsEarliest(checks[1..]);
      assert forall i :: 1 <= i < |checks| ==> checks[i] == checks[1..][i - 1];
      if FirstFailure(checks[1..]).Some? {
        var k :| 0 <= k < |checks[1..]| && !checks[1..][k].passes && FirstFailure(checks[1..]) == Some(checks[1..][k].failure) &&
          forall j :: 0 <= j < k ==> checks[1..][j].passes;
        assert !checks[k + 1].passes && forall j :: 0 <= j < k + 1 ==> checks[j].passes;
      }
    }
  }

  /** The first failure among four checks, unfolded. */
  lemma FirstFailureOfFour(a: Check, b: Check, c: Check, d: Check)
    ensures FirstFailure([a, b, c, d]) ==
      if !a.passes then Some(a.failure) else if !b.passes then Some(b.failure)
      else if !c.passes then Some(c.failure) else if !d.passes then Some(d.failure) else None
  {
    assert [a, b, c, d][1..] == [b, c, d];
    assert [b, c, d][1..] == [c, d];
    assert [c, d][1..] == [d];
    assert [d][1..] == [];
    assert FirstFailure([d]) == if !d.passes then Some(d.failure) else None;
    assert FirstFailure([c, d]) == if !c.passes then Some(c.failure) else FirstFailure([d]);
    assert FirstFailure([b, c, d]) == if !b.passes then Some(b.failure) else FirstFailure([c, d]);
  }

  /** Validation throws exactly the error of the first failing check among
      checks 1-4, then whatever `defer()` throws (a TypeError when it returns
      null or undefined), then the first failing check among 5-8, then
      whatever `deferred.resolve()` throws. */
  lemma ValidationReportsFirstMissing(lib: LibraryShape)
    ensures FirstFailure(LibraryChecks(lib)).Some? ==>
      ValidateLibrary(lib) == Validation(FirstFailure(LibraryChecks(lib)), [])
    ensures FirstFailure(LibraryChecks(lib)).None? ==>
      lib.LibraryObject? && lib.defer.Some? &&
      match lib.defer.value
      case DeferThrows(e) => ValidateLibrary(lib) == Validation(Some(e), [CallDefer])
      case DeferReturns(NullishDeferred) => ValidateLibrary(lib) == Validation(Some(TypeError), [CallDefer])
      case DeferReturns(d) =>
        if FirstFailure(DeferredChecks(d)).Some?
        then ValidateLibrary(lib) == Validation(FirstFailure(DeferredChecks(d)), [CallDefer])
        else ValidateLibrary(lib) == Validation(d.resolveThrows, [CallDefer, CallResolve])
  {
    var cs := LibraryChecks(lib);
    FirstFailureOfFour(cs[0], cs[1], cs[2], cs[3]);
    assert cs == [cs[0], cs[1], cs[2], cs[3]];
    if lib.LibraryObject? && lib.defer.Some? && lib.defer.value.DeferReturns? && lib.defer.value.deferred.DeferredObject? {
      var ds := DeferredChecks(lib.defer.value.deferred);
      FirstFailureOfFour(ds[0], ds[1], ds[2], ds[3]);
      assert ds == [ds[0], ds[1], ds[2], ds[3]];
    }
  }

  /** On a library that passes, validation has called `defer()` once and
      `deferred.resolve()` once; on any library it calls each at most once and
      `resolve` only after `defer`. */
  lemma ValidationCalls(lib: LibraryShape)
    ensures ValidateLibrary(lib).error.None? ==> ValidateLibrary(lib).calls == [CallDefer, CallResolve]
    ensures ValidateLibrary(lib).calls in {[], [CallDefer], [CallDefer, CallResolve]}
  {
  }

  /** Every library `getOrValidateLibrary` hands back meets the contract:
      a named one (Q or ES6) as well as a caller's one that was validated. */
  lemma LibrariesInForceAreValid(arg: LibraryArg)
    ensures GetOrValidateLibrary(arg).Ok? ==> ValidateLibrary(ShapeOf(GetOrValidateLibrary(arg).value)).error.None?
  {
  }
}
