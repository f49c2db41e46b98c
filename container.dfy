/**
 * `DependencyInjectionContainer`: the facade that normalises keys and routes
 * objects to the repository and class names to construction plans, and
 * answers `get` from the repository first.
 */
module DependencyInjection {
  import opened Wrappers
  import opened Errors
  import opened Patterns
  import opened KeyProcessing
  import opened PhpArrays
  import opened Plans
  import opened ServiceRegistry
  import opened InstanceRepository

  /** A plan as `new Service($key)` leaves it: no class, methods, constructor or properties. */
  ghost predicate IsBlankPlan(p: Service)
    reads p
  {
    p.className.None? && p.methods == [] && p.ctor == null && p.props == null
  }

  class DependencyInjectionContainer {
    const services: Services
    const repository: Repository

    /** The plans the registry holds. */
    ghost function Registered(): set<Service>
      reads this, services
    {
      set i | 0 <= i < |services.services| :: services.services[i].1
    }

    /**
     * Both stores are consistent, and no registered plan has a class name:
     * `class()` validates its argument but never stores it.
     */
    ghost predicate Valid()
      reads this, services, repository, Registered()
    {
      && services.Valid()
      && repository.Valid()
      && (forall i :: 0 <= i < |services.services| ==> services.services[i].1.key == services.services[i].0)
      && (forall i :: 0 <= i < |services.services| ==> services.services[i].1.className.None?)
    }

    constructor ()
      ensures Valid() && fresh(services) && fresh(repository)
      ensures services.services == [] && repository.instances == [] && repository.count == 0
    {
      services := new Services();
      repository := new Repository();
    }

    /** `repo()` */
    function Repo(): Repository {
      repository
    }

    /** `service($key)`: the plan under the normalised key, created if there is none. */
    method Service(key: string) returns (r: Result<Service, Error>)
      requires Valid()
      modifies services
      ensures Valid()
      ensures !IsKey(key) ==> r == Failure(InvalidKey(ContainerService)) && services.services == old(services.services)
      ensures IsKey(key) ==>
                && r.Success? && r.value.key == ToLower(key) && r.value.className.None?
                && services.Has(ToLower(key)) && PhpArrays.Get(services.services, ToLower(key)) == r.value
                && (old(services.Has(ToLower(key))) ==> services.services == old(services.services))
                && (!old(services.Has(ToLower(key))) ==>
                      && fresh(r.value) && IsBlankPlan(r.value)
                      && services.services == old(services.services) + [(ToLower(key), r.value)])
    {
      var k := ProcessKey(ContainerService, key);
      if k.Failure? {
        return Failure(k.error);
      }
      var s := services.Service(k.value);
      GetIsEntry(services.services, k.value);
      assert (k.value, s) in services.services;
      return Success(s);
    }

    /**
     * `add($key, $object)`: an object is pushed into the repository, a
     * string is taken as the class name of the plan under the key, and any
     * other value is refused.
     */
    method Add(key: string, value: Value) returns (r: Result<Value, Error>)
      requires Valid()
      modifies services, repository
      ensures Valid()
      ensures !IsKey(key) ==> r == Failure(InvalidKey(ContainerAdd)) && unchanged(services, repository)
      ensures IsKey(key) && IsObject(value) ==>
                && r == Success(Bool(true)) && unchanged(services)
                && repository.instances == Assign(old(repository.instances), ToLower(key), value)
                && repository.count == old(repository.count) + 1
      ensures IsKey(key) && value.Str? ==>
                && unchanged(repository)
                && services.Has(ToLower(key))
                && (old(services.Has(ToLower(key))) ==> services.services == old(services.services))
                && (!old(services.Has(ToLower(key))) ==>
                      && fresh(PhpArrays.Get(services.services, ToLower(key)))
                      && IsBlankPlan(PhpArrays.Get(services.services, ToLower(key)))
                      && services.services == old(services.services) + [(ToLower(key), PhpArrays.Get(services.services, ToLower(key)))])
                && r == if IsClassName(value.s) then Success(Svc(PhpArrays.Get(services.services, ToLower(key))))
                        else Failure(InvalidClassName(ToLower(key)))
      ensures IsKey(key) && !IsObject(value) && !value.Str? ==>
                r == Failure(CannotStore(TypeName(value))) && unchanged(services, repository)
    {
      var k := ProcessKey(ContainerAdd, key);
      if k.Failure? {
        return Failure(k.error);
      }
      ProcessKeyIdempotent(ContainerAdd, ContainerAdd, key);
      var objectType := TypeName(value);
      if objectType == "object" {
        r := AddInstance(k.value, value);
      } else if objectType == "string" {
        r := AddPlan(k.value, value.s);
      } else {
        r := Failure(CannotStore(objectType));
      }
    }

    /** The object branch of `add`, under a key already normalised. */
    method AddInstance(k: string, value: Value) returns (r: Result<Value, Error>)
      requires Valid() && IsNormalKey(k) && IsObject(value)
      modifies repository
      ensures Valid()
      ensures r == Success(Bool(true))
      ensures repository.instances == Assign(old(repository.instances), k, value)
      ensures repository.count == old(repository.count) + 1
    {
      NormalKeyIsFixedPoint(RepositoryPush, k);
      var pushed := repository.Push(value, Some(k), (cls: string) => cls);
      assert pushed.Success?;
      return Success(Bool(true));
    }

    /**
     * The string branch of `add`, under a key already normalised: the plan
     * is fetched or created before the class name is checked, so it stays
     * registered when the check fails.
     */
    method AddPlan(k: string, className: string) returns (r: Result<Value, Error>)
      requires Valid() && IsNormalKey(k)
      modifies services
      ensures Valid()
      ensures services.Has(k)
      ensures old(services.Has(k)) ==> services.services == old(services.services)
      ensures !old(services.Has(k)) ==>
                && fresh(PhpArrays.Get(services.services, k)) && IsBlankPlan(PhpArrays.Get(services.services, k))
                && services.services == old(services.services) + [(k, PhpArrays.Get(services.services, k))]
      ensures r == if IsClassName(className) then Success(Svc(PhpArrays.Get(services.services, k)))
                   else Failure(InvalidClassName(k))
    {
      NormalKeyIsFixedPoint(ContainerService, k);
      var s := Service(k);
      var classed := s.value.Class(className);
      if classed.Failure? {
        return Failure(classed.error);
      }
      return Success(Svc(classed.value));
    }

    /**
     * `get($key, ...$args)`: a stored instance wins; otherwise the plan
     * under the key (created if there is none) builds an object.
     */
    method Get(key: string, args: seq<Value>, known: set<string>, fuel: nat, log: Log) returns (o: Outcome<Value>)
      requires Valid()
      modifies services
      ensures Valid()
      ensures !IsKey(key) ==> o == Outcome(Failure(InvalidKey(ContainerGet)), log) && services.services == old(services.services)
      ensures IsKey(key) && ToLower(key) in Keys(repository.instances) ==>
                && o == Outcome(Success(PhpArrays.Get(repository.instances, ToLower(key))), log)
                && services.services == old(services.services)
      ensures IsKey(key) && ToLower(key) !in Keys(repository.instances) ==>
                && services.Has(ToLower(key))
                && (old(services.Has(ToLower(key))) ==> services.services == old(services.services))
                && (!old(services.Has(ToLower(key))) ==>
                      && fresh(PhpArrays.Get(services.services, ToLower(key)))
                      && IsBlankPlan(PhpArrays.Get(services.services, ToLower(key)))
                      && services.services == old(services.services) + [(ToLower(key), PhpArrays.Get(services.services, ToLower(key)))])
                && o == Instantiate(PhpArrays.Get(services.services, ToLower(key)), args, known, fuel, log)
                && o == Outcome(Failure(ClassNotFound(ToLower(key), "")), log)
    {
      var k := ProcessKey(ContainerGet, key);
      if k.Failure? {
        return Outcome(Failure(k.error), log);
      }
      ProcessKeyIdempotent(ContainerGet, RepositoryHas, key);
      ProcessKeyIdempotent(ContainerGet, RepositoryPull, key);
      ProcessKeyIdempotent(ContainerGet, ContainerGet, key);
      ToLowerIdempotent(key);
      var present := repository.Has(k.value);
      if present.value {
        var instance := repository.Pull(k.value);
        return Outcome(Success(instance.value), log);
      }
      o := Build(k.value, args, known, fuel, log);
    }

    /** The `else` branch of `get`, under a key already normalised. */
    method Build(k: string, args: seq<Value>, known: set<string>, fuel: nat, log: Log) returns (o: Outcome<Value>)
      requires Valid() && IsNormalKey(k)
      modifies services
      ensures Valid()
      ensures services.Has(k)
      ensures old(services.Has(k)) ==> services.services == old(services.services)
      ensures !old(services.Has(k)) ==>
                && fresh(PhpArrays.Get(services.services, k)) && IsBlankPlan(PhpArrays.Get(services.services, k))
                && services.services == old(services.services) + [(k, PhpArrays.Get(services.services, k))]
      ensures o == Instantiate(PhpArrays.Get(services.services, k), args, known, fuel, log)
      ensures o == Outcome(Failure(ClassNotFound(k, "")), log)
    {
      NormalKeyIsFixedPoint(ContainerService, k);
      var s := Service(k);
      o := s.value.CreateInstance(args, known, fuel, log);
    }
  }

  /**
   * In any container, an object added under one spelling of a key is
   * returned for every spelling of it, and building nothing records nothing.
   */
  method LookupIsCaseInsensitive(c: DependencyInjectionContainer, key: string, other: string, instance: Value,
                                 args: seq<Value>, known: set<string>, fuel: nat, log: Log)
    returns (added: Result<Value, Error>, first: Outcome<Value>, second: Outcome<Value>)
    requires c.Valid() && IsKey(key) && SameUpToCase(key, other) && IsObject(instance)
    modifies c.services, c.repository
    ensures c.Valid()
    ensures added == Success(Bool(true))
    ensures first == Outcome(Success(instance), log)
    ensures second == first
  {
    AssignGet(c.repository.instances, ToLower(key), instance, ToLower(key));
    AssignKeys(c.repository.instances, ToLower(key), instance);
    added := c.Add(key, instance);
    ProcessKeyCaseInsensitive(ContainerGet, key, other);
    first := c.Get(key, args, known, fuel, log);
    second := c.Get(other, args, known, fuel, log);
  }

  /** In any container, an instance stored under a key wins over a plan registered under it earlier. */
  method InstanceShadowsPlan(c: DependencyInjectionContainer, key: string, className: string, instance: Value,
                             args: seq<Value>, known: set<string>, fuel: nat, log: Log)
    returns (o: Outcome<Value>)
    requires c.Valid() && IsKey(key) && IsObject(instance)
    modifies c.services, c.repository
    ensures c.Valid()
    ensures o == Outcome(Success(instance), log)
  {
    var planned := c.Add(key, Str(className));
    AssignGet(c.repository.instances, ToLower(key), instance, ToLower(key));
    AssignKeys(c.repository.instances, ToLower(key), instance);
    var added := c.Add(key, instance);
    o := c.Get(key, args, known, fuel, log);
  }

  /**
   * In any container, a class name accepted by `add` is never used: the
   * plan it returns has no class, so a later `get` of the key fails with
   * `ClassNotFound` whatever classes exist, and records no step, unless an
   * instance already stored under the key answers it.
   */
  method PlanIsNeverBuilt(c: DependencyInjectionContainer, key: string, className: string,
                          args: seq<Value>, known: set<string>, fuel: nat, log: Log)
    returns (added: Result<Value, Error>, o: Outcome<Value>)
    requires c.Valid() && IsKey(key) && IsClassName(className)
    modifies c.services, c.repository
    ensures c.Valid()
    ensures added.Success? && added.value.Svc? && added.value.service.className.None?
    ensures ToLower(key) !in Keys(c.repository.instances) ==> o == Outcome(Failure(ClassNotFound(ToLower(key), "")), log)
    ensures ToLower(key) in Keys(c.repository.instances) ==>
              o == Outcome(Success(PhpArrays.Get(c.repository.instances, ToLower(key))), log)
  {
    added := c.Add(key, Str(className));
    GetIsEntry(c.services.services, ToLower(key));
    o := c.Get(key, args, known, fuel, log);
  }
}
