/**
 * driveicon/wrappers/_async.py: pairs each asynchronous Gio method with its
 * `_finish` method, installs an `*_asyncio` wrapper that returns a future,
 * and resolves that future exactly once from the finish method's outcome.
 *
 * A class is given by the names `dir(cls)` lists, in order; `hasattr` is
 * membership in that list.
 */
module AsyncWrap {
  import opened Wrappers

  const ASYNC_SUFFIX: string := "_async"
  const FINISH_SUFFIX: string := "_finish"
  const ASYNCIO_SUFFIX: string := "_asyncio"

  predicate EndsWith(s: string, suffix: string) {
    |suffix| <= |s| && s[|s| - |suffix|..] == suffix
  }

  /** `s[:-n]` for a string at least `n` long. */
  function DropLast(s: string, n: nat): string
    requires n <= |s|
  {
    s[..|s| - n]
  }

  /** What `_wrap_gio` is given: the begin method, the finish method and the name of the wrapper it installs. */
  datatype MethodSpec = MethodSpec(begin: string, finish: string, wrapped: string)

  /** The triple the async-suffix finder yields for `name`, when `name` ends in `_async` and its finish method exists. */
  function AsyncSuffixSpec(dir: seq<string>, name: string): Option<MethodSpec> {
    if EndsWith(name, ASYNC_SUFFIX) && DropLast(name, 6) + FINISH_SUFFIX in dir
    then Some(MethodSpec(name, DropLast(name, 6) + FINISH_SUFFIX, DropLast(name, 6) + ASYNCIO_SUFFIX))
    else None
  }

  /** The triple the finish-suffix finder yields for `name`, when `name` ends in `_finish` and its begin method exists. */
  function FinishSuffixSpec(dir: seq<string>, name: string): Option<MethodSpec> {
    if EndsWith(name, FINISH_SUFFIX) && DropLast(name, 7) in dir
    then Some(MethodSpec(DropLast(name, 7), name, DropLast(name, 7) + ASYNCIO_SUFFIX))
    else None
  }

  /** The triples yielded for `names`, a slice of `dir`, in order. */
  function Collect(dir: seq<string>, names: seq<string>, withFinishSuffix: bool): seq<MethodSpec>
    decreases |names|
  {
    if names == [] then []
    else
      var last := names[|names| - 1];
      var found := if withFinishSuffix then FinishSuffixSpec(dir, last) else AsyncSuffixSpec(dir, last);
      Collect(dir, names[..|names| - 1], withFinishSuffix) + if found.Some? then [found.value] else []
  }

  /** `_find_async_methods_with_async_suffix(cls)`. */
  function FindWithAsyncSuffix(dir: seq<string>): seq<MethodSpec> {
    Collect(dir, dir, false)
  }

  /** `_find_async_methods_with_finish_suffix(cls)`. */
  function FindWithFinishSuffix(dir: seq<string>): seq<MethodSpec> {
    Collect(dir, dir, true)
  }

  /** A triple is collected exactly when some name of the slice yields it. */
  lemma {:induction false} CollectMembers(dir: seq<string>, names: seq<string>, withFinishSuffix: bool, spec: MethodSpec)
    ensures spec in Collect(dir, names, withFinishSuffix) <==>
      exists j :: 0 <= j < |names| &&
        (if withFinishSuffix then FinishSuffixSpec(dir, names[j]) else AsyncSuffixSpec(dir, names[j])) == Some(spec)
    decreases |names|
  {
    if names != [] {
      var init := names[..|names| - 1];
      CollectMembers(dir, init, withFinishSuffix, spec);
      if exists j :: 0 <= j < |init| &&
          (if withFinishSuffix then FinishSuffixSpec(dir, init[j]) else AsyncSuffixSpec(dir, init[j])) == Some(spec) {
        var j :| 0 <= j < |init| &&
          (if withFinishSuffix then FinishSuffixSpec(dir, init[j]) else AsyncSuffixSpec(dir, init[j])) == Some(spec);
        assert names[j] == init[j];
      }
      if exists j :: 0 <= j < |names| &&
          (if withFinishSuffix then FinishSuffixSpec(dir, names[j]) else AsyncSuffixSpec(dir, names[j])) == Some(spec) {
        var j :| 0 <= j < |names| &&
          (if withFinishSuffix then FinishSuffixSpec(dir, names[j]) else AsyncSuffixSpec(dir, names[j])) == Some(spec);
        if j < |init| {
          assert init[j] == names[j];
        }
      }
    }
  }

  /**
   * The async-suffix finder yields `(name, prefix + '_finish', prefix + '_asyncio')`
   * exactly for the names ending in `_async` whose `prefix + '_finish'` exists,
   * `prefix` being the name without its last six characters.
   */
  lemma AsyncSuffixFinds(dir: seq<string>, spec: MethodSpec)
    ensures spec in FindWithAsyncSuffix(dir) <==>
      && spec.begin in dir && EndsWith(spec.begin, ASYNC_SUFFIX)
      && spec.finish == DropLast(spec.begin, 6) + FINISH_SUFFIX && spec.finish in dir
      && spec.wrapped == DropLast(spec.begin, 6) + ASYNCIO_SUFFIX
  {
    CollectMembers(dir, dir, false, spec);
    if spec.begin in dir && AsyncSuffixSpec(dir, spec.begin) == Some(spec) {
      var j :| 0 <= j < |dir| && dir[j] == spec.begin;
    }
  }

  /**
   * The finish-suffix finder yields `(base, name, base + '_asyncio')` exactly
   * for the names ending in `_finish` whose `base`, the name without its
   * last seven characters, exists.
   */
  lemma FinishSuffixFinds(dir: seq<string>, spec: MethodSpec)
    ensures spec in FindWithFinishSuffix(dir) <==>
      && spec.finish in dir && EndsWith(spec.finish, FINISH_SUFFIX)
      && spec.begin == DropLast(spec.finish, 7) && spec.begin in dir
      && spec.wrapped == spec.begin + ASYNCIO_SUFFIX
  {
    CollectMembers(dir, dir, true, spec);
    if spec.finish in dir && FinishSuffixSpec(dir, spec.finish) == Some(spec) {
      var j :| 0 <= j < |dir| && dir[j] == spec.finish;
    }
  }

  /** An argument value handed to a begin method; the wrapper itself only ever passes `None` and its completion callback. */
  datatype ArgValue = NoneValue | IntValue(i: int) | Opaque(token: nat) | CompletionCallback(future: Future)

  /** `GLib.PRIORITY_DEFAULT`. */
  const PRIORITY_DEFAULT: int := 0

  /** The classes `_wrap_async` wraps. */
  datatype GioClass = File | FileEnumerator | Drive | Volume | Mount

  /** `class_extra_params.get(cls, {})`: files and file enumerators get `io_priority`, the rest nothing. */
  function ExtraParams(cls: GioClass): (r: map<string, ArgValue>)
    ensures (cls == File || cls == FileEnumerator) ==> r == map["io_priority" := IntValue(PRIORITY_DEFAULT)]
    ensures (cls == Drive || cls == Volume || cls == Mount) ==> r == map[]
  {
    match cls
    case File => map["io_priority" := IntValue(PRIORITY_DEFAULT)]
    case FileEnumerator => map["io_priority" := IntValue(PRIORITY_DEFAULT)]
    case _ => map[]
  }

  /** `default_params`, with `None` read as `{}`. */
  function Defaults(given: Option<map<string, ArgValue>>): map<string, ArgValue> {
    given.GetOr(map[])
  }

  /** `default_params | kwargs`: every key of either, the call's value winning. */
  function Merge(defaults: map<string, ArgValue>, kwargs: map<string, ArgValue>): (r: map<string, ArgValue>)
    ensures r.Keys == defaults.Keys + kwargs.Keys
    ensures forall k :: k in kwargs ==> r[k] == kwargs[k]
    ensures forall k :: k in defaults && k !in kwargs ==> r[k] == defaults[k]
  {
    defaults + kwargs
  }

  /** The `TypeError` a call raises when a keyword the wrapper passes itself is passed again. */
  datatype CallError = DuplicateKeyword(name: string)

  const CANCELLABLE: string := "cancellable"
  const CALLBACK: string := "callback"

  /** The keywords the begin method receives: the merged ones, `cancellable=None` and the completion callback. */
  function BeginKeywords(defaults: map<string, ArgValue>, kwargs: map<string, ArgValue>, future: Future): (r: Result<map<string, ArgValue>, CallError>)
    ensures r.Err? <==> CANCELLABLE in Merge(defaults, kwargs) || CALLBACK in Merge(defaults, kwargs)
    ensures r.Ok? ==> r.value.Keys == Merge(defaults, kwargs).Keys + {CANCELLABLE, CALLBACK}
    ensures r.Ok? ==> r.value[CANCELLABLE] == NoneValue && r.value[CALLBACK] == CompletionCallback(future)
    ensures r.Ok? ==> forall k :: k in Merge(defaults, kwargs) ==> r.value[k] == Merge(defaults, kwargs)[k]
  {
    var merged := Merge(defaults, kwargs);
    if CANCELLABLE in merged then Err(DuplicateKeyword(CANCELLABLE))
    else if CALLBACK in merged then Err(DuplicateKeyword(CALLBACK))
    else Ok(merged[CANCELLABLE := NoneValue][CALLBACK := CompletionCallback(future)])
  }

  /** An asyncio future, reduced to its one-shot result. */
  datatype FutureState = Pending | Done(result: ArgValue) | Failed(error: string)

  class Future {
    var state: FutureState

    constructor ()
      ensures state == Pending
    {
      state := Pending;
    }
  }

  /** What the finish method did: returned a value or raised an exception. */
  datatype Outcome = Returned(value: ArgValue) | Raised(error: string)

  /** The `InvalidStateError` of resolving a future that is already resolved. */
  datatype CallbackError = InvalidStateError

  /**
   * `Wrapper.__finish_callback`: resolves `future` with the finish method's
   * outcome. A resolved future stays as it is, and the callback then fails.
   */
  method FinishCallback(future: Future, outcome: Outcome) returns (r: Result<(), CallbackError>)
    modifies future
    ensures old(future.state) == Pending ==> r.Ok?
    ensures old(future.state) == Pending && outcome.Returned? ==> future.state == Done(outcome.value)
    ensures old(future.state) == Pending && outcome.Raised? ==> future.state == Failed(outcome.error)
    ensures old(future.state) != Pending ==> r == Err(InvalidStateError) && future.state == old(future.state)
  {
    if future.state != Pending {
      return Err(InvalidStateError);
    }
    future.state := match outcome
      case Returned(v) => Done(v)
      case Raised(e) => Failed(e);
    return Ok(());
  }

  /** One call of the begin method: its arguments and keywords, the completion callback among them. */
  datatype BeginCall = BeginCall(args: seq<ArgValue>, keywords: map<string, ArgValue>, future: Future)

  /** The wrapper installed for one method pair: its defaults, and the begin calls it has made. */
  class Wrapper {
    const spec: MethodSpec
    const defaults: map<string, ArgValue>
    var calls: seq<BeginCall>

    /** Every call has its own future. */
    ghost predicate Valid()
      reads this
    {
      forall i, j :: 0 <= i < j < |calls| ==> calls[i].future != calls[j].future
    }

    constructor (spec: MethodSpec, defaults: Option<map<string, ArgValue>>)
      ensures Valid() && this.spec == spec && this.defaults == Defaults(defaults) && calls == []
    {
      this.spec := spec;
      this.defaults := Defaults(defaults);
      calls := [];
    }

    /**
     * `Wrapper.__call__`: creates a future, calls the begin method with the
     * merged keywords and a callback bound to that future, and returns it.
     */
    method Call(args: seq<ArgValue>, kwargs: map<string, ArgValue>) returns (r: Result<Future, CallError>)
      requires Valid()
      modifies this`calls
      ensures Valid()
      ensures r.Err? <==> CANCELLABLE in Merge(defaults, kwargs) || CALLBACK in Merge(defaults, kwargs)
      ensures r.Err? ==> calls == old(calls)
      ensures r.Ok? ==> fresh(r.value) && r.value.state == Pending
      ensures r.Ok? ==> calls == old(calls) + [BeginCall(args, BeginKeywords(defaults, kwargs, r.value).value, r.value)]
    {
      var future := new Future();
      var keywords := BeginKeywords(defaults, kwargs, future);
      if keywords.Err? {
        return Err(keywords.error);
      }
      calls := calls + [BeginCall(args, keywords.value, future)];
      return Ok(future);
    }

    /** The completion of begin call `i`: resolves that call's own future and no other. */
    method Complete(i: nat, outcome: Outcome) returns (r: Result<(), CallbackError>)
      requires Valid() && i < |calls|
      modifies calls[i].future
      ensures old(calls[i].future.state) == Pending ==> r.Ok? && calls[i].future.state == (if outcome.Returned? then Done(outcome.value) else Failed(outcome.error))
      ensures old(calls[i].future.state) != Pending ==> r.Err? && calls[i].future.state == old(calls[i].future.state)
      ensures forall j :: 0 <= j < |calls| && j != i ==> calls[j].future.state == old(calls[j].future.state)
    {
      r := FinishCallback(calls[i].future, outcome);
    }
  }

  /** One `_wrap_gio` call made by `_wrap_async`. */
  datatype Installation = Installation(cls: GioClass, spec: MethodSpec, defaults: map<string, ArgValue>)

  /** The classes `_wrap_async` scans with the async-suffix finder, then those it scans with the finish-suffix finder. */
  const ASYNC_SUFFIX_CLASSES: seq<GioClass> := [File, FileEnumerator]
  const FINISH_SUFFIX_CLASSES: seq<GioClass> := [Drive, Volume, Mount]

  /**
   * `_wrap_async`: every wrapper it installs, given `dir` of each
   * class. Each class is scanned with its finder and every pair found is
   * wrapped with the class's extra parameters.
   */
  method WrapAsync(dir: GioClass -> seq<string>) returns (installed: seq<Installation>)
    ensures forall inst :: inst in installed ==>
      inst.defaults == ExtraParams(inst.cls) &&
      (if inst.cls in ASYNC_SUFFIX_CLASSES then inst.spec in FindWithAsyncSuffix(dir(inst.cls))
       else inst.spec in FindWithFinishSuffix(dir(inst.cls)))
    ensures forall cls, spec :: cls in ASYNC_SUFFIX_CLASSES && spec in FindWithAsyncSuffix(dir(cls)) ==>
      Installation(cls, spec, ExtraParams(cls)) in installed
    ensures forall cls, spec :: cls in FINISH_SUFFIX_CLASSES && spec in FindWithFinishSuffix(dir(cls)) ==>
      Installation(cls, spec, ExtraParams(cls)) in installed
  {
    installed := [];
    var pass := 0;
    while pass < 2
      invariant 0 <= pass <= 2
      invariant forall inst :: inst in installed ==>
        inst.defaults == ExtraParams(inst.cls) &&
        (if inst.cls in ASYNC_SUFFIX_CLASSES then inst.spec in FindWithAsyncSuffix(dir(inst.cls))
         else inst.spec in FindWithFinishSuffix(dir(inst.cls)))
      invariant pass >= 1 ==> forall cls, spec :: cls in ASYNC_SUFFIX_CLASSES && spec in FindWithAsyncSuffix(dir(cls)) ==>
        Installation(cls, spec, ExtraParams(cls)) in installed
      invariant pass >= 2 ==> forall cls, spec :: cls in FINISH_SUFFIX_CLASSES && spec in FindWithFinishSuffix(dir(cls)) ==>
        Installation(cls, spec, ExtraParams(cls)) in installed
    {
      var classes := if pass == 0 then ASYNC_SUFFIX_CLASSES else FINISH_SUFFIX_CLASSES;
      var c := 0;
      ghost var before := installed;
      while c < |classes|
        invariant 0 <= c <= |classes|
        invariant before <= installed
        invariant forall inst :: inst in installed ==>
          inst.defaults == ExtraParams(inst.cls) &&
          (if inst.cls in ASYNC_SUFFIX_CLASSES then inst.spec in FindWithAsyncSuffix(dir(inst.cls))
           else inst.spec in FindWithFinishSuffix(dir(inst.cls)))
        invariant forall k, spec :: 0 <= k < c && spec in (if pass == 0 then FindWithAsyncSuffix(dir(classes[k])) else FindWithFinishSuffix(dir(classes[k]))) ==>
          Installation(classes[k], spec, ExtraParams(classes[k])) in installed
      {
        var cls := classes[c];
        var extra := ExtraParams(cls);
        var specs := if pass == 0 then FindWithAsyncSuffix(dir(cls)) else FindWithFinishSuffix(dir(cls));
        var s := 0;
        while s < |specs|
          invariant 0 <= s <= |specs|
          invariant before <= installed
          invariant forall inst :: inst in installed ==>
            inst.defaults == ExtraParams(inst.cls) &&
            (if inst.cls in ASYNC_SUFFIX_CLASSES then inst.spec in FindWithAsyncSuffix(dir(inst.cls))
             else inst.spec in FindWithFinishSuffix(dir(inst.cls)))
          invariant forall k, spec :: 0 <= k < c && spec in (if pass == 0 then FindWithAsyncSuffix(dir(classes[k])) else FindWithFinishSuffix(dir(classes[k]))) ==>
            Installation(classes[k], spec, ExtraParams(classes[k])) in installed
          invariant forall j :: 0 <= j < s ==> Installation(cls, specs[j], extra) in installed
        {
          installed := installed + [Installation(cls, specs[s], extra)];
          s := s + 1;
        }
        c := c + 1;
      }
      pass := pass + 1;
    }
  }
}
