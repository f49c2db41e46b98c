/** `Repository`: stored instances by normalised key, with a push counter. */
module InstanceRepository {
  import opened Wrappers
  import opened Errors
  import opened Patterns
  import opened KeyProcessing
  import opened PhpArrays
  import opened Plans

  class Repository {
    var instances: Entries<Value>
    var count: nat

    /**
     * Every key is normalised and holds an object; `count` counts pushes,
     * overwrites included, so it is never below the number of keys.
     */
    ghost predicate Valid()
      reads this
    {
      && IsMap(instances)
      && |instances| <= count
      && Stored(instances)
    }

    constructor ()
      ensures Valid() && instances == [] && count == 0
    {
      instances := [];
      count := 0;
    }

    /** `count()`: the number of pushes, which is never below the number of stored instances. */
    function Count(): (r: nat)
      reads this
      ensures Valid() ==> |instances| <= r
    {
      count
    }

    /** `list()`: each key with the class of its instance, in storage order. */
    method List() returns (r: Entries<string>)
      requires Valid()
      ensures Keys(r) == Keys(instances)
      ensures |r| == |instances|
      ensures forall i :: 0 <= i < |r| ==> r[i] == (instances[i].0, ClassOf(instances[i].1))
    {
      r := [];
      var i := 0;
      while i < |instances|
        invariant 0 <= i <= |instances|
        invariant |r| == i
        invariant forall j :: 0 <= j < i ==> r[j] == (instances[j].0, ClassOf(instances[j].1))
      {
        var (key, instance) := instances[i];
        assert Keys(r) == Keys(instances[..i]);
        KeyNotBefore(instances, i);
        AssignNewKeyAppends(r, key, ClassOf(instance));
        r := Assign(r, key, ClassOf(instance));
        i := i + 1;
      }
    }

    /**
     * `push($instance, $key)`; with no key, the key is the base name of the
     * instance's class as `baseClassName` gives it.
     */
    method Push(instance: Value, key: Option<string>, baseClassName: string -> string) returns (r: Result<nat, Error>)
      requires Valid()
      modifies this
      ensures Valid()
      ensures !IsObject(instance) ==> r == Failure(NotAnObject) && instances == old(instances) && count == old(count)
      ensures IsObject(instance) && !IsKey(key.GetOr(baseClassName(ClassOf(instance)))) ==>
                r == Failure(InvalidKey(RepositoryPush)) && instances == old(instances) && count == old(count)
      ensures IsObject(instance) && IsKey(key.GetOr(baseClassName(ClassOf(instance)))) ==>
                && instances == Assign(old(instances), ToLower(key.GetOr(baseClassName(ClassOf(instance)))), instance)
                && count == old(count) + 1
                && r == Success(count)
    {
      if !IsObject(instance) {
        return Failure(NotAnObject);
      }
      var given := key.GetOr(baseClassName(ClassOf(instance)));
      var k := ProcessKey(RepositoryPush, given);
      if k.Failure? {
        return Failure(k.error);
      }
      ProcessKeyIdempotent(RepositoryPush, RepositoryPush, given);
      StoreKeepsInvariant(instances, k.value, instance);
      instances := Assign(instances, k.value, instance);
      count := count + 1;
      return Success(count);
    }

    /** `has($key)` */
    function Has(key: string): (r: Result<bool, Error>)
      reads this
      ensures r.Success? <==> IsKey(key)
      ensures r.Failure? ==> r.error == InvalidKey(RepositoryHas)
      ensures r.Success? ==> (r.value <==> ToLower(key) in Keys(instances))
    {
      var k :- ProcessKey(RepositoryHas, key);
      Success(k in Keys(instances))
    }

    /** `pull($key)`: the key is processed, then `has` processes it once more. */
    function Pull(key: string): (r: Result<Value, Error>)
      reads this
      ensures r.Success? <==> IsKey(key) && ToLower(key) in Keys(instances)
      ensures !IsKey(key) ==> r == Failure(InvalidKey(RepositoryPull))
      ensures IsKey(key) && ToLower(key) !in Keys(instances) ==> r == Failure(NoInstance(ToLower(key)))
      ensures r.Success? ==> r.value == Get(instances, ToLower(key))
      ensures Valid() && r.Success? ==> IsObject(r.value)
    {
      var k :- ProcessKey(RepositoryPull, key);
      ProcessKeyIdempotent(RepositoryPull, RepositoryHas, key);
      var present := Has(k).value;
      ToLowerIdempotent(key);
      if !present then Failure(NoInstance(k))
      else
        StoredGet(instances, k);
        Success(Get(instances, k))
    }
  }

  /** Every stored key is normalised and every stored value is an object. */
  ghost predicate Stored(e: Entries<Value>) {
    forall i :: 0 <= i < |e| ==> IsNormalKey(e[i].0) && IsObject(e[i].1)
  }

  lemma StoreKeepsInvariant(e: Entries<Value>, k: string, v: Value)
    requires IsMap(e) && Stored(e) && IsNormalKey(k) && IsObject(v)
    ensures IsMap(Assign(e, k, v)) && Stored(Assign(e, k, v))
    ensures |Assign(e, k, v)| <= |e| + 1
  {
    AssignKeepsMap(e, k, v);
    AssignKeys(e, k, v);
    AssignEntriesFrom(e, k, v);
    var r := Assign(e, k, v);
    forall i | 0 <= i < |r|
      ensures IsNormalKey(r[i].0) && IsObject(r[i].1)
    {
      assert r[i] in r;
    }
  }

  lemma StoredGet(e: Entries<Value>, k: string)
    requires k in Keys(e)
    ensures Stored(e) ==> IsObject(Get(e, k))
  {
    GetIsEntry(e, k);
  }

  lemma KeyNotBefore<V>(e: Entries<V>, i: nat)
    requires IsMap(e) && i < |e|
    ensures e[i].0 !in Keys(e[..i])
  {
  }
}
