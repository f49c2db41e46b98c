/**
 * Deferred construction plans: `Service`, its constructor and method call
 * specifications (`ServiceInjectMethod`) and its property injections
 * (`ServiceInjectProps`), and `createInstance`, which turns a plan into an
 * object.
 *
 * PHP's reflective primitives are not run: `class_exists` is membership in
 * the parameter `known`, and `new $className(...)`, `call_user_func_array`
 * and `$object->$name = $value` are recorded as actions in a `Log`, whose
 * `nextId` numbers the objects in the order they are built.
 */
module Plans {
  import opened Wrappers
  import opened Errors
  import opened Patterns
  import opened PhpArrays

  /** A PHP value, as far as the container distinguishes values. */
  datatype Value =
    | Null
    | Bool(b: bool)
    | Int(i: int)
    | Str(s: string)
    | Arr(items: seq<Value>)
    | Obj(id: nat, cls: string)   // an object that is not a Service
    | Svc(service: Service)       // a Service object

  /** `is_object` */
  predicate IsObject(v: Value) {
    v.Obj? || v.Svc?
  }

  /** `gettype` */
  function TypeName(v: Value): string {
    match v
    case Null => "NULL"
    case Bool(_) => "boolean"
    case Int(_) => "integer"
    case Str(_) => "string"
    case Arr(_) => "array"
    case Obj(_, _) => "object"
    case Svc(_) => "object"
  }

  const ServiceClass: string := "Comely\\IO\\DependencyInjection\\Services\\Service"

  /** `get_class` */
  function ClassOf(v: Value): string
    requires IsObject(v)
  {
    if v.Obj? then v.cls else ServiceClass
  }

  /** One reflective step of `createInstance`. */
  datatype Action =
    | Construct(id: nat, cls: string, args: seq<Value>)   // object `id` := new cls(...args)
    | Call(target: nat, name: string, args: seq<Value>)   // object `target`->name(...args)
    | SetProp(target: nat, name: string, value: Value)    // object `target`->name = value

  /** The steps taken so far and the number the next built object gets. */
  datatype Log = Log(actions: seq<Action>, nextId: nat)

  /** What a construction step returns or throws, with the log after it. */
  datatype Outcome<T> = Outcome(result: Result<T, Error>, log: Log)

  /** `$this->class && class_exists($this->class)`; "" and "0" are falsy in PHP. */
  predicate ClassUsable(className: Option<string>, known: set<string>) {
    className.Some? && className.value != "" && className.value != "0" && className.value in known
  }

  /** A constructor or method call: a validated name and its argument list. */
  class ServiceInjectMethod {
    const name: string
    var args: seq<Value>

    constructor (name: string)
      requires IsName(name)
      ensures this.name == name && args == []
    {
      this.name := name;
      args := [];
    }

    /** `new ServiceInjectMethod($name)`, which throws unless the name is valid. */
    static method New(name: string) returns (r: Result<ServiceInjectMethod, Error>)
      ensures r.Success? <==> IsName(name)
      ensures r.Failure? ==> r.error == InvalidMethodName
      ensures r.Success? ==> fresh(r.value) && r.value.name == name && r.value.args == []
    {
      if !IsName(name) {
        return Failure(InvalidMethodName);
      }
      var m := new ServiceInjectMethod(name);
      return Success(m);
    }

    /** `args(...$args)`: replaces the whole argument list. */
    method Args(xs: seq<Value>) returns (self: ServiceInjectMethod)
      modifies this
      ensures self == this && args == xs
    {
      args := xs;
      return this;
    }

    /** `getName()`: the name the specification was created with; it never changes. */
    function GetName(): (r: string)
      ensures r == name
    {
      name
    }

    /** `getArgs()`: the list last given to `args`, empty before. */
    function GetArgs(): (r: seq<Value>)
      reads this
      ensures r == args
    {
      args
    }
  }

  /** Property injections: property name to value, in insertion order. */
  class ServiceInjectProps {
    var props: Entries<Value>

    /** Property names are unique and each was validated by `add`. */
    ghost predicate Valid()
      reads this
    {
      IsMap(props) && forall i :: 0 <= i < |props| ==> IsName(props[i].0)
    }

    constructor ()
      ensures Valid() && props == []
    {
      props := [];
    }

    /** `add($propName, $value)` */
    method Add(name: string, value: Value) returns (r: Result<ServiceInjectProps, Error>)
      modifies this
      ensures r.Success? <==> IsName(name)
      ensures r.Failure? ==> r.error == InvalidPropertyName && props == old(props)
      ensures r.Success? ==> r.value == this && props == Assign(old(props), name, value)
      ensures IsMap(old(props)) ==> IsMap(props)
      ensures old(Valid()) ==> Valid()
    {
      if !IsName(name) {
        return Failure(InvalidPropertyName);
      }
      AssignKeepsMapIf(props, name, value);
      AssignEntriesFrom(props, name, value);
      assert forall i :: 0 <= i < |Assign(props, name, value)| ==>
               Assign(props, name, value)[i] in Assign(props, name, value);
      props := Assign(props, name, value);
      return Success(this);
    }

    /** `getAll()`: the properties in insertion order, each name once and valid. */
    function GetAll(): (r: Entries<Value>)
      reads this
      ensures Valid() ==> IsMap(r) && forall i :: 0 <= i < |r| ==> IsName(r[i].0)
    {
      props
    }
  }

  lemma AssignKeepsMapIf<V>(e: Entries<V>, k: string, v: V)
    ensures IsMap(e) ==> IsMap(Assign(e, k, v))
  {
    if IsMap(e) {
      AssignKeepsMap(e, k, v);
    }
  }

  /** A construction plan registered under `key`. */
  class Service {
    const key: string
    var className: Option<string>
    var methods: Entries<ServiceInjectMethod>
    var ctor: ServiceInjectMethod?
    var props: ServiceInjectProps?

    constructor (key: string)
      ensures this.key == key && className == None && methods == [] && ctor == null && props == null
    {
      this.key := key;
      className := None;
      methods := [];
      ctor := null;
      props := null;
    }

    /** `class($className)`: validates the name and returns this plan; it stores nothing. */
    function Class(name: string): (r: Result<Service, Error>)
      ensures r.Success? <==> IsClassName(name)
      ensures r.Success? ==> r.value == this
      ensures r.Failure? ==> r.error == InvalidClassName(key)
    {
      if !IsClassName(name) then Failure(InvalidClassName(key)) else Success(this)
    }

    /** `constructor()`: the constructor call specification, created on first use. */
    method Constructor() returns (m: ServiceInjectMethod)
      modifies this
      ensures ctor == m
      ensures old(ctor) != null ==> m == old(ctor)
      ensures old(ctor) == null ==> fresh(m) && m.name == "__construct" && m.args == []
      ensures className == old(className) && methods == old(methods) && props == old(props)
    {
      if ctor == null {
        ctor := new ServiceInjectMethod("__construct");
      }
      return ctor;
    }

    /** `method($name)`: a fresh call specification under `name`, replacing any earlier one. */
    method Method(name: string) returns (r: Result<ServiceInjectMethod, Error>)
      modifies this
      ensures r.Success? <==> IsName(name)
      ensures r.Failure? ==> r.error == InvalidMethodName && methods == old(methods)
      ensures r.Success? ==> && fresh(r.value) && r.value.name == name && r.value.args == []
                             && methods == Assign(old(methods), name, r.value)
      ensures IsMap(old(methods)) ==> IsMap(methods)
      ensures className == old(className) && ctor == old(ctor) && props == old(props)
    {
      var m := ServiceInjectMethod.New(name);
      if m.Failure? {
        return Failure(m.error);
      }
      AssignKeepsMapIf(methods, name, m.value);
      methods := Assign(methods, name, m.value);
      return m;
    }

    /** `props()`: the property injections, created on first use. */
    method Props() returns (p: ServiceInjectProps)
      modifies this
      ensures props == p
      ensures old(props) != null ==> p == old(props)
      ensures old(props) == null ==> fresh(p) && p.props == []
      ensures className == old(className) && methods == old(methods) && ctor == old(ctor)
    {
      if props == null {
        props := new ServiceInjectProps();
      }
      return props;
    }

    /**
     * `createInstance(...$args)`. It has no modifies clause: building an
     * object never changes this plan or any other.
     */
    method CreateInstance(args: seq<Value>, known: set<string>, fuel: nat, log: Log) returns (o: Outcome<Value>)
      ensures o == Instantiate(this, args, known, fuel, log)
      ensures !ClassUsable(className, known) ==> o == Outcome(Failure(ClassNotFound(key, className.GetOr(""))), log)
      decreases fuel, 4, 0
    {
      if !ClassUsable(className, known) {
        return Outcome(Failure(ClassNotFound(key, className.GetOr(""))), log);
      }
      var cls := className.value;
      var constructorArgs := args;
      if ctor != null {
        constructorArgs := constructorArgs + ctor.GetArgs();
      }
      var pc := ProcessArgs([Arr(constructorArgs)], known, fuel, log);
      if pc.result.Failure? {
        return Outcome(Failure(pc.result.error), pc.log);
      }
      var id := pc.log.nextId;
      var built := Log(pc.log.actions + [Construct(id, cls, pc.result.value)], id + 1);

      var pm := CallMethods(id, known, fuel, built);
      if pm.result.Failure? {
        return Outcome(Failure(pm.result.error), pm.log);
      }
      var ps := if props == null then [] else props.GetAll();
      var pp := InjectProps(id, ps, known, fuel, pm.log);
      if pp.result.Failure? {
        return Outcome(Failure(pp.result.error), pp.log);
      }
      return Outcome(Success(Obj(id, cls)), pp.log);
    }

    /** The `foreach ($this->methods ...)` loop of `createInstance`, on object `id`. */
    method CallMethods(id: nat, known: set<string>, fuel: nat, log: Log) returns (o: Outcome<()>)
      ensures o == CallAll(id, methods, known, fuel, log)
      decreases fuel, 3, |methods|
    {
      var cur := log;
      var i := 0;
      while i < |methods|
        invariant 0 <= i <= |methods|
        invariant CallAll(id, methods, known, fuel, log) == CallAll(id, methods[i..], known, fuel, cur)
      {
        var m := methods[i].1;
        var pa := ProcessArgs([Arr(m.GetArgs())], known, fuel, cur);
        assert methods[i..][0] == methods[i] && methods[i..][1..] == methods[i + 1..];
        if pa.result.Failure? {
          return Outcome(Failure(pa.result.error), pa.log);
        }
        cur := Log(pa.log.actions + [Call(id, m.GetName(), pa.result.value)], pa.log.nextId);
        i := i + 1;
      }
      return Outcome(Success(()), cur);
    }

    /** The `foreach ($props ...)` loop of `createInstance`, on object `id`. */
    method InjectProps(id: nat, ps: Entries<Value>, known: set<string>, fuel: nat, log: Log) returns (o: Outcome<()>)
      ensures o == AssignAll(id, ps, known, fuel, log)
      decreases fuel, 3, |ps|
    {
      var cur := log;
      var j := 0;
      while j < |ps|
        invariant 0 <= j <= |ps|
        invariant AssignAll(id, ps, known, fuel, log) == AssignAll(id, ps[j..], known, fuel, cur)
      {
        var v := ProcessArg(ps[j].1, known, fuel, cur);
        assert ps[j..][0] == ps[j] && ps[j..][1..] == ps[j + 1..];
        if v.result.Failure? {
          return Outcome(Failure(v.result.error), v.log);
        }
        cur := Log(v.log.actions + [SetProp(id, ps[j].0, v.result.value)], v.log.nextId);
        j := j + 1;
      }
      return Outcome(Success(()), cur);
    }

    /** `processArgs(...$args)`: each argument passed through `processArg`, in order. */
    method ProcessArgs(args: seq<Value>, known: set<string>, fuel: nat, log: Log) returns (o: Outcome<seq<Value>>)
      ensures o == ProcessFrom(args, [], known, fuel, log)
      decreases fuel, 2, |args|
    {
      var processed := [];
      var cur := log;
      var i := 0;
      while i < |args|
        invariant 0 <= i <= |args|
        invariant ProcessFrom(args, [], known, fuel, log) == ProcessFrom(args[i..], processed, known, fuel, cur)
      {
        var a := ProcessArg(args[i], known, fuel, cur);
        assert args[i..][0] == args[i] && args[i..][1..] == args[i + 1..];
        if a.result.Failure? {
          return Outcome(Failure(a.result.error), a.log);
        }
        processed := processed + [a.result.value];
        cur := a.log;
        i := i + 1;
      }
      return Outcome(Success(processed), cur);
    }

    /** `processArg($arg)`: a Service is replaced by the object it builds, anything else is kept. */
    method ProcessArg(arg: Value, known: set<string>, fuel: nat, log: Log) returns (o: Outcome<Value>)
      ensures o == ProcessArgValue(arg, known, fuel, log)
      ensures !arg.Svc? ==> o == Outcome(Success(arg), log)
      ensures arg.Svc? && fuel > 0 ==> o == Instantiate(arg.service, [], known, fuel - 1, log)
      decreases fuel, 1, 0
    {
      if !arg.Svc? {
        return Outcome(Success(arg), log);
      }
      if fuel == 0 {
        return Outcome(Failure(DepthExceeded), log);
      }
      o := arg.service.CreateInstance([], known, fuel - 1, log);
    }
  }

  /** The constructor's argument list: the call-time arguments, then the stored ones. */
  ghost function ConstructorArgs(s: Service, args: seq<Value>): seq<Value>
    reads s, s.ctor
  {
    if s.ctor == null then args else args + s.ctor.args
  }

  /** The property injections of a plan, none when `props()` was never called. */
  ghost function PropsOf(s: Service): Entries<Value>
    reads s, s.props
  {
    if s.props == null then [] else s.props.props
  }

  /** What `createInstance(...args)` does to plan `s`, nested plans at most `fuel` deep. */
  ghost function Instantiate(s: Service, args: seq<Value>, known: set<string>, fuel: nat, log: Log): Outcome<Value>
    reads *
    decreases fuel, 4, 0
  {
    if !ClassUsable(s.className, known) then
      Outcome(Failure(ClassNotFound(s.key, s.className.GetOr(""))), log)
    else
      var cls := s.className.value;
      var pc := ProcessFrom([Arr(ConstructorArgs(s, args))], [], known, fuel, log);
      if pc.result.Failure? then Outcome(Failure(pc.result.error), pc.log)
      else
        var id := pc.log.nextId;
        var pm := CallAll(id, s.methods, known, fuel, Log(pc.log.actions + [Construct(id, cls, pc.result.value)], id + 1));
        if pm.result.Failure? then Outcome(Failure(pm.result.error), pm.log)
        else
          var pp := AssignAll(id, PropsOf(s), known, fuel, pm.log);
          if pp.result.Failure? then Outcome(Failure(pp.result.error), pp.log)
          else Outcome(Success(Obj(id, cls)), pp.log)
  }

  /** `processArg`: a Service value is built with no call-time arguments. */
  ghost function ProcessArgValue(arg: Value, known: set<string>, fuel: nat, log: Log): Outcome<Value>
    reads *
    decreases fuel, 1, 0
  {
    if !arg.Svc? then Outcome(Success(arg), log)
    else if fuel == 0 then Outcome(Failure(DepthExceeded), log)
    else Instantiate(arg.service, [], known, fuel - 1, log)
  }

  /** The `processArgs` loop from the point where `done` holds the arguments processed so far. */
  ghost function ProcessFrom(args: seq<Value>, done: seq<Value>, known: set<string>, fuel: nat, log: Log): Outcome<seq<Value>>
    reads *
    decreases fuel, 2, |args|
  {
    if args == [] then Outcome(Success(done), log)
    else
      var a := ProcessArgValue(args[0], known, fuel, log);
      if a.result.Failure? then Outcome(Failure(a.result.error), a.log)
      else ProcessFrom(args[1..], done + [a.result.value], known, fuel, a.log)
  }

  /** The method-call loop of `createInstance` on object `obj`, from method `ms[0]` on. */
  ghost function CallAll(obj: nat, ms: Entries<ServiceInjectMethod>, known: set<string>, fuel: nat, log: Log): Outcome<()>
    reads *
    decreases fuel, 3, |ms|
  {
    if ms == [] then Outcome(Success(()), log)
    else
      var m := ms[0].1;
      var pa := ProcessFrom([Arr(m.args)], [], known, fuel, log);
      if pa.result.Failure? then Outcome(Failure(pa.result.error), pa.log)
      else CallAll(obj, ms[1..], known, fuel, Log(pa.log.actions + [Call(obj, m.name, pa.result.value)], pa.log.nextId))
  }

  /** The property loop of `createInstance` on object `obj`, from property `ps[0]` on. */
  ghost function AssignAll(obj: nat, ps: Entries<Value>, known: set<string>, fuel: nat, log: Log): Outcome<()>
    reads *
    decreases fuel, 3, |ps|
  {
    if ps == [] then Outcome(Success(()), log)
    else
      var v := ProcessArgValue(ps[0].1, known, fuel, log);
      if v.result.Failure? then Outcome(Failure(v.result.error), v.log)
      else AssignAll(obj, ps[1..], known, fuel, Log(v.log.actions + [SetProp(obj, ps[0].0, v.result.value)], v.log.nextId))
  }
}
