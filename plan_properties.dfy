/**
 * What `createInstance` promises, proved about its specification
 * `Plans.Instantiate`: argument lists are wrapped, not resolved; the new
 * object is constructed first, then called once per method specification in
 * map order, then given each property in map order; nested plans only add
 * objects of their own; and every build makes a new object.
 */
module PlanProperties {
  import opened Wrappers
  import opened Errors
  import opened PhpArrays
  import opened Plans

  /** The object a step acts on. */
  function Ident(a: Action): nat {
    match a
    case Construct(id, _, _) => id
    case Call(target, _, _) => target
    case SetProp(target, _, _) => target
  }

  /** The steps of `acts` that act on object `id`, in order. */
  function OnObject(acts: seq<Action>, id: nat): seq<Action> {
    if acts == [] then []
    else (if Ident(acts[0]) == id then [acts[0]] else []) + OnObject(acts[1..], id)
  }

  /** The steps added between `log` and `log'`. */
  function Added(log: Log, log': Log): seq<Action>
    requires |log.actions| <= |log'.actions|
  {
    log'.actions[|log.actions|..]
  }

  /**
   * `log'` extends `log`: the earlier steps are kept, object numbers only
   * grow, and every added step acts on an object numbered from `lo` up to
   * the last one built.
   */
  ghost predicate Grows(log: Log, log': Log, lo: nat) {
    && log.nextId <= log'.nextId
    && |log.actions| <= |log'.actions|
    && log'.actions[..|log.actions|] == log.actions
    && forall i :: |log.actions| <= i < |log'.actions| ==> lo <= Ident(log'.actions[i]) < log'.nextId
  }

  /** The calls `createInstance` makes for method specifications `ms`, each with its argument list wrapped. */
  ghost function MethodCalls(obj: nat, ms: Entries<ServiceInjectMethod>): seq<Action>
    reads set i | 0 <= i < |ms| :: ms[i].1
  {
    if ms == [] then []
    else [Call(obj, ms[0].1.name, [Arr(ms[0].1.args)])] + MethodCalls(obj, ms[1..])
  }

  /**
   * `sets` are the property assignments for `ps` on object `obj`: one per
   * entry, in order; a value that is not a plan is assigned as it is, a
   * plan is replaced by an object built after `obj`.
   */
  ghost predicate PropSteps(sets: seq<Action>, obj: nat, ps: Entries<Value>) {
    && |sets| == |ps|
    && forall i :: 0 <= i < |ps| ==>
         && sets[i].SetProp? && sets[i].target == obj && sets[i].name == ps[i].0
         && (!ps[i].1.Svc? ==> sets[i].value == ps[i].1)
         && (ps[i].1.Svc? ==> sets[i].value.Obj? && sets[i].value.id > obj)
  }

  /** No property value is itself a plan. */
  predicate NoPlans(ps: Entries<Value>) {
    forall i :: 0 <= i < |ps| ==> !ps[i].1.Svc?
  }

  /** The assignments for `ps` when no value is a plan. */
  function PropSets(obj: nat, ps: Entries<Value>): seq<Action> {
    if ps == [] then [] else [SetProp(obj, ps[0].0, ps[0].1)] + PropSets(obj, ps[1..])
  }

  // ---------------------------------------------------------------------
  // processArgs as it is called

  /**
   * `processArgs` is variadic but called with one array, so it returns that
   * array as its only element, unresolved, and takes no step.
   */
  lemma ProcessArgsAsCalled(xs: seq<Value>, known: set<string>, fuel: nat, log: Log)
    ensures ProcessFrom([Arr(xs)], [], known, fuel, log) == Outcome(Success([Arr(xs)]), log)
  {
    assert ProcessArgValue(Arr(xs), known, fuel, log) == Outcome(Success(Arr(xs)), log);
    var args: seq<Value> := [Arr(xs)];
    var none: seq<Value> := [];
    assert args[0] == Arr(xs) && args[1..] == [] && none + [Arr(xs)] == args;
    assert ProcessFrom(args, none, known, fuel, log) == ProcessFrom([], args, known, fuel, log);
  }

  /** Every method specification becomes one call, in map order, and nothing else happens. */
  lemma {:induction false} CallAllEmitsCalls(obj: nat, ms: Entries<ServiceInjectMethod>, known: set<string>, fuel: nat, log: Log)
    ensures CallAll(obj, ms, known, fuel, log) == Outcome(Success(()), Log(log.actions + MethodCalls(obj, ms), log.nextId))
    decreases |ms|
  {
    if ms != [] {
      ProcessArgsAsCalled(ms[0].1.args, known, fuel, log);
      var step := Call(obj, ms[0].1.name, [Arr(ms[0].1.args)]);
      CallAllEmitsCalls(obj, ms[1..], known, fuel, Log(log.actions + [step], log.nextId));
      assert log.actions + [step] + MethodCalls(obj, ms[1..]) == log.actions + MethodCalls(obj, ms);
    }
  }

  /** With no plan among the values, every property becomes one assignment of its value, in map order. */
  lemma {:induction false} AssignAllPlain(obj: nat, ps: Entries<Value>, known: set<string>, fuel: nat, log: Log)
    requires NoPlans(ps)
    ensures AssignAll(obj, ps, known, fuel, log) == Outcome(Success(()), Log(log.actions + PropSets(obj, ps), log.nextId))
    decreases |ps|
  {
    if ps != [] {
      var step := SetProp(obj, ps[0].0, ps[0].1);
      AssignAllPlain(obj, ps[1..], known, fuel, Log(log.actions + [step], log.nextId));
      assert log.actions + [step] + PropSets(obj, ps[1..]) == log.actions + PropSets(obj, ps);
    }
  }

  /**
   * A plan whose class is usable and whose properties hold no plans builds
   * exactly: construct (with one array argument, the call-time arguments
   * followed by the stored ones), the method calls in map order, the
   * property assignments in map order; and returns the new object.
   */
  lemma InstantiateSteps(s: Service, args: seq<Value>, known: set<string>, fuel: nat, log: Log)
    requires ClassUsable(s.className, known) && NoPlans(PropsOf(s))
    ensures var id := log.nextId;
            var cls := s.className.value;
            Instantiate(s, args, known, fuel, log)
              == Outcome(Success(Obj(id, cls)),
                         Log(log.actions + [Construct(id, cls, [Arr(ConstructorArgs(s, args))])]
                               + MethodCalls(id, s.methods) + PropSets(id, PropsOf(s)),
                             id + 1))
  {
    var id := log.nextId;
    var cls := s.className.value;
    ProcessArgsAsCalled(ConstructorArgs(s, args), known, fuel, log);
    var built := Log(log.actions + [Construct(id, cls, [Arr(ConstructorArgs(s, args))])], id + 1);
    CallAllEmitsCalls(id, s.methods, known, fuel, built);
    AssignAllPlain(id, PropsOf(s), known, fuel, Log(built.actions + MethodCalls(id, s.methods), id + 1));
  }

  /** A plan with no usable class throws before any step. */
  lemma UnusableClassTakesNoStep(s: Service, args: seq<Value>, known: set<string>, fuel: nat, log: Log)
    requires !ClassUsable(s.className, known)
    ensures Instantiate(s, args, known, fuel, log) == Outcome(Failure(ClassNotFound(s.key, s.className.GetOr(""))), log)
  {
  }

  // ---------------------------------------------------------------------
  // Logs only grow, and nested builds only touch their own objects

  lemma GrowsRefl(log: Log, lo: nat)
    ensures Grows(log, log, lo)
  {
  }

  lemma GrowsTrans(a: Log, b: Log, c: Log, lo: nat, lo': nat)
    requires Grows(a, b, lo) && Grows(b, c, lo') && lo <= lo'
    ensures Grows(a, c, lo)
  {
    assert c.actions[..|a.actions|] == c.actions[..|b.actions|][..|a.actions|];
    forall i | |a.actions| <= i < |c.actions|
      ensures lo <= Ident(c.actions[i]) < c.nextId
    {
      if i < |b.actions| {
        assert c.actions[i] == b.actions[i];
      }
    }
  }

  /** Appending one step on an already numbered object `obj` (at least `lo`). */
  lemma GrowsStep(log: Log, a: Action, next: nat, lo: nat)
    requires log.nextId <= next && lo <= Ident(a) < next
    ensures Grows(log, Log(log.actions + [a], next), lo)
  {
    assert (log.actions + [a])[..|log.actions|] == log.actions;
  }

  lemma {:induction false} InstantiateGrows(s: Service, args: seq<Value>, known: set<string>, fuel: nat, log: Log)
    ensures var o := Instantiate(s, args, known, fuel, log);
            && Grows(log, o.log, log.nextId)
            && (o.result.Success? ==> o.result.value.Obj? && log.nextId <= o.result.value.id < o.log.nextId)
    decreases fuel, 4, 0
  {
    if !ClassUsable(s.className, known) {
      GrowsRefl(log, log.nextId);
    } else {
      var cls := s.className.value;
      var pc := ProcessFrom([Arr(ConstructorArgs(s, args))], [], known, fuel, log);
      ProcessFromGrows([Arr(ConstructorArgs(s, args))], [], known, fuel, log);
      if pc.result.Success? {
        var id := pc.log.nextId;
        var built := Log(pc.log.actions + [Construct(id, cls, pc.result.value)], id + 1);
        GrowsStep(pc.log, Construct(id, cls, pc.result.value), id + 1, log.nextId);
        GrowsTrans(log, pc.log, built, log.nextId, log.nextId);
        var pm := CallAll(id, s.methods, known, fuel, built);
        CallAllGrows(id, s.methods, known, fuel, built);
        GrowsTrans(log, built, pm.log, log.nextId, id);
        if pm.result.Success? {
          var pp := AssignAll(id, PropsOf(s), known, fuel, pm.log);
          AssignAllGrows(id, PropsOf(s), known, fuel, pm.log);
          GrowsTrans(log, pm.log, pp.log, log.nextId, id);
        }
      }
    }
  }

  lemma {:induction false} ProcessArgGrows(arg: Value, known: set<string>, fuel: nat, log: Log)
    ensures Grows(log, ProcessArgValue(arg, known, fuel, log).log, log.nextId)
    ensures var o := ProcessArgValue(arg, known, fuel, log);
            arg.Svc? && o.result.Success? ==> o.result.value.Obj? && log.nextId <= o.result.value.id
    decreases fuel, 1, 0
  {
    if arg.Svc? && fuel > 0 {
      InstantiateGrows(arg.service, [], known, fuel - 1, log);
    } else {
      GrowsRefl(log, log.nextId);
    }
  }

  lemma {:induction false} ProcessFromGrows(args: seq<Value>, done: seq<Value>, known: set<string>, fuel: nat, log: Log)
    ensures Grows(log, ProcessFrom(args, done, known, fuel, log).log, log.nextId)
    decreases fuel, 2, |args|
  {
    if args == [] {
      GrowsRefl(log, log.nextId);
    } else {
      var a := ProcessArgValue(args[0], known, fuel, log);
      ProcessArgGrows(args[0], known, fuel, log);
      if a.result.Success? {
        ProcessFromGrows(args[1..], done + [a.result.value], known, fuel, a.log);
        GrowsTrans(log, a.log, ProcessFrom(args, done, known, fuel, log).log, log.nextId, a.log.nextId);
      }
    }
  }

  lemma {:induction false} CallAllGrows(obj: nat, ms: Entries<ServiceInjectMethod>, known: set<string>, fuel: nat, log: Log)
    requires obj < log.nextId
    ensures Grows(log, CallAll(obj, ms, known, fuel, log).log, obj)
    decreases fuel, 3, |ms|
  {
    if ms == [] {
      GrowsRefl(log, obj);
    } else {
      var m := ms[0].1;
      var pa := ProcessFrom([Arr(m.args)], [], known, fuel, log);
      ProcessFromGrows([Arr(m.args)], [], known, fuel, log);
      if pa.result.Success? {
        var next := Log(pa.log.actions + [Call(obj, m.name, pa.result.value)], pa.log.nextId);
        GrowsStep(pa.log, Call(obj, m.name, pa.result.value), pa.log.nextId, obj);
        GrowsTrans(log, pa.log, next, obj, obj);
        CallAllGrows(obj, ms[1..], known, fuel, next);
        GrowsTrans(log, next, CallAll(obj, ms, known, fuel, log).log, obj, obj);
      }
    }
  }

  lemma {:induction false} AssignAllGrows(obj: nat, ps: Entries<Value>, known: set<string>, fuel: nat, log: Log)
    requires obj < log.nextId
    ensures Grows(log, AssignAll(obj, ps, known, fuel, log).log, obj)
    decreases fuel, 3, |ps|
  {
    if ps == [] {
      GrowsRefl(log, obj);
    } else {
      var v := ProcessArgValue(ps[0].1, known, fuel, log);
      ProcessArgGrows(ps[0].1, known, fuel, log);
      if v.result.Success? {
        var next := Log(v.log.actions + [SetProp(obj, ps[0].0, v.result.value)], v.log.nextId);
        GrowsStep(v.log, SetProp(obj, ps[0].0, v.result.value), v.log.nextId, obj);
        GrowsTrans(log, v.log, next, obj, obj);
        AssignAllGrows(obj, ps[1..], known, fuel, next);
        GrowsTrans(log, next, AssignAll(obj, ps, known, fuel, log).log, obj, obj);
      }
    }
  }

  // ---------------------------------------------------------------------
  // The steps on the new object

  lemma {:induction false} OnObjectAppend(a: seq<Action>, b: seq<Action>, id: nat)
    ensures OnObject(a + b, id) == OnObject(a, id) + OnObject(b, id)
  {
    if a == [] {
      assert a + b == b;
    } else {
      assert (a + b)[0] == a[0] && (a + b)[1..] == a[1..] + b;
      OnObjectAppend(a[1..], b, id);
    }
  }

  lemma {:induction false} OnObjectNone(acts: seq<Action>, id: nat)
    requires forall i :: 0 <= i < |acts| ==> Ident(acts[i]) != id
    ensures OnObject(acts, id) == []
  {
    if acts != [] {
      assert Ident(acts[0]) != id;
      OnObjectNone(acts[1..], id);
    }
  }

  lemma {:induction false} MethodCallsOnObject(obj: nat, ms: Entries<ServiceInjectMethod>)
    ensures |MethodCalls(obj, ms)| == |ms|
    ensures OnObject(MethodCalls(obj, ms), obj) == MethodCalls(obj, ms)
  {
    if ms != [] {
      MethodCallsOnObject(obj, ms[1..]);
      var c := Call(obj, ms[0].1.name, [Arr(ms[0].1.args)]);
      assert MethodCalls(obj, ms) == [c] + MethodCalls(obj, ms[1..]);
      OnObjectAppend([c], MethodCalls(obj, ms[1..]), obj);
      assert OnObject([c], obj) == [c];
    }
  }

  /** The steps added between `log` and `v.log` by processing a value leave object `obj` alone. */
  lemma ProcessArgLeavesObject(arg: Value, known: set<string>, fuel: nat, log: Log, obj: nat)
    requires obj < log.nextId
    ensures var v := ProcessArgValue(arg, known, fuel, log);
            && Grows(log, v.log, log.nextId)
            && OnObject(Added(log, v.log), obj) == []
  {
    var v := ProcessArgValue(arg, known, fuel, log);
    ProcessArgGrows(arg, known, fuel, log);
    var added := Added(log, v.log);
    forall i | 0 <= i < |added|
      ensures Ident(added[i]) != obj
    {
      assert added[i] == v.log.actions[|log.actions| + i];
    }
    OnObjectNone(added, obj);
  }

  /** The property loop assigns each property once, in map order, to object `obj` and nothing else. */
  lemma {:induction false} AssignAllOwnSteps(obj: nat, ps: Entries<Value>, known: set<string>, fuel: nat, log: Log)
    requires obj < log.nextId
    ensures Grows(log, AssignAll(obj, ps, known, fuel, log).log, obj)
    ensures var o := AssignAll(obj, ps, known, fuel, log);
            o.result.Success? ==> PropSteps(OnObject(Added(log, o.log), obj), obj, ps)
    decreases |ps|
  {
    AssignAllGrows(obj, ps, known, fuel, log);
    var o := AssignAll(obj, ps, known, fuel, log);
    if ps == [] {
      assert Added(log, o.log) == [];
    } else if o.result.Success? {
      var v := ProcessArgValue(ps[0].1, known, fuel, log);
      ProcessArgLeavesObject(ps[0].1, known, fuel, log, obj);
      ProcessArgGrows(ps[0].1, known, fuel, log);
      var step := SetProp(obj, ps[0].0, v.result.value);
      var next := Log(v.log.actions + [step], v.log.nextId);
      assert o == AssignAll(obj, ps[1..], known, fuel, next);
      AssignAllOwnSteps(obj, ps[1..], known, fuel, next);
      var rest := OnObject(Added(next, o.log), obj);
      assert o.log.actions == next.actions + Added(next, o.log);
      assert v.log.actions == log.actions + Added(log, v.log);
      assert Added(log, o.log) == Added(log, v.log) + [step] + Added(next, o.log);
      OnObjectAppend(Added(log, v.log) + [step], Added(next, o.log), obj);
      OnObjectAppend(Added(log, v.log), [step], obj);
      assert OnObject([step], obj) == [step];
      assert OnObject(Added(log, o.log), obj) == [step] + rest;
      PropStepsCons(step, rest, obj, ps);
    }
  }

  lemma PropStepsCons(step: Action, rest: seq<Action>, obj: nat, ps: Entries<Value>)
    requires ps != [] && PropSteps(rest, obj, ps[1..])
    requires step.SetProp? && step.target == obj && step.name == ps[0].0
    requires !ps[0].1.Svc? ==> step.value == ps[0].1
    requires ps[0].1.Svc? ==> step.value.Obj? && step.value.id > obj
    ensures PropSteps([step] + rest, obj, ps)
  {
    var sets := [step] + rest;
    forall i | 0 <= i < |ps|
      ensures && sets[i].SetProp? && sets[i].target == obj && sets[i].name == ps[i].0
              && (!ps[i].1.Svc? ==> sets[i].value == ps[i].1)
              && (ps[i].1.Svc? ==> sets[i].value.Obj? && sets[i].value.id > obj)
    {
      if i > 0 {
        assert sets[i] == rest[i - 1] && ps[i] == ps[1..][i - 1];
      }
    }
  }

  /**
   * However plans nest, a successful build of `s` acts on its own new
   * object (numbered `log.nextId`) exactly so: constructed first, with the
   * call-time arguments followed by the stored constructor arguments as one
   * array; then one call per method specification in map order; then one
   * assignment per property in map order. Nested plans only build and set
   * up objects numbered after it.
   */
  lemma OwnSteps(s: Service, args: seq<Value>, known: set<string>, fuel: nat, log: Log)
    requires Instantiate(s, args, known, fuel, log).result.Success?
    ensures Grows(log, Instantiate(s, args, known, fuel, log).log, log.nextId)
    ensures var o := Instantiate(s, args, known, fuel, log);
            var id := log.nextId;
            var steps := OnObject(Added(log, o.log), id);
            && ClassUsable(s.className, known)
            && o.result.value == Obj(id, s.className.value)
            && |steps| == 1 + |s.methods| + |PropsOf(s)|
            && steps[0] == Construct(id, s.className.value, [Arr(ConstructorArgs(s, args))])
            && steps[1..1 + |s.methods|] == MethodCalls(id, s.methods)
            && PropSteps(steps[1 + |s.methods|..], id, PropsOf(s))
  {
    InstantiateGrows(s, args, known, fuel, log);
    var o := Instantiate(s, args, known, fuel, log);
    var id := log.nextId;
    var cls := s.className.value;
    ProcessArgsAsCalled(ConstructorArgs(s, args), known, fuel, log);
    var c := Construct(id, cls, [Arr(ConstructorArgs(s, args))]);
    var built := Log(log.actions + [c], id + 1);
    CallAllEmitsCalls(id, s.methods, known, fuel, built);
    var mc := MethodCalls(id, s.methods);
    var called := Log(built.actions + mc, id + 1);
    AssignAllOwnSteps(id, PropsOf(s), known, fuel, called);
    assert o.log == AssignAll(id, PropsOf(s), known, fuel, called).log;
    assert o.log.actions == called.actions + Added(called, o.log);
    assert Added(log, o.log) == [c] + mc + Added(called, o.log);
    OnObjectAppend([c] + mc, Added(called, o.log), id);
    OnObjectAppend([c], mc, id);
    MethodCallsOnObject(id, s.methods);
    assert OnObject([c], id) == [c];
    var steps := OnObject(Added(log, o.log), id);
    assert steps == [c] + mc + OnObject(Added(called, o.log), id);
    assert steps[1 + |s.methods|..] == OnObject(Added(called, o.log), id);
  }

  /** Resolution is not cached: building twice in a row gives two different objects. */
  lemma SuccessiveBuildsDiffer(s: Service, t: Service, args: seq<Value>, args': seq<Value>, known: set<string>, fuel: nat, log: Log)
    requires Instantiate(s, args, known, fuel, log).result.Success?
    requires Instantiate(t, args', known, fuel, Instantiate(s, args, known, fuel, log).log).result.Success?
    ensures Instantiate(s, args, known, fuel, log).result.value
         != Instantiate(t, args', known, fuel, Instantiate(s, args, known, fuel, log).log).result.value
  {
    var o := Instantiate(s, args, known, fuel, log);
    InstantiateGrows(s, args, known, fuel, log);
    InstantiateGrows(t, args', known, fuel, o.log);
  }
}
