/** `Services`: the construction plans by key, created on first request. */
module ServiceRegistry {
  import opened PhpArrays
  import Plans

  class Services {
    var services: Entries<Plans.Service>

    ghost predicate Valid()
      reads this
    {
      IsMap(services)
    }

    constructor ()
      ensures Valid() && services == []
    {
      services := [];
    }

    /** `has($key)`: membership of the key exactly as given; it is not normalised. */
    function Has(key: string): (r: bool)
      reads this
      ensures r <==> exists i :: 0 <= i < |services| && services[i].0 == key
    {
      assert forall i :: 0 <= i < |services| ==> Keys(services)[i] == services[i].0;
      key in Keys(services)
    }

    /** `service($key)`: the plan under `key`, created and stored if there is none. */
    method Service(key: string) returns (s: Plans.Service)
      requires Valid()
      modifies this
      ensures Valid()
      ensures Has(key) && Get(services, key) == s
      ensures old(Has(key)) ==> s == Get(old(services), key) && services == old(services)
      ensures !old(Has(key)) ==> && fresh(s) && services == old(services) + [(key, s)]
                                 && s.key == key && s.className.None? && s.methods == []
                                 && s.ctor == null && s.props == null
      ensures forall k :: k in Keys(old(services)) ==> k in Keys(services) && Get(services, k) == Get(old(services), k)
    {
      if Has(key) {
        return Get(services, key);
      }
      var newService := new Plans.Service(key);
      AssignNewKeyAppends(services, key, newService);
      AssignKeepsMap(services, key, newService);
      AssignGet(services, key, newService, key);
      forall k | k in Keys(services)
        ensures k in Keys(services + [(key, newService)]) && Get(services + [(key, newService)], k) == Get(services, k)
      {
        GetAppend(services, [(key, newService)], k);
      }
      services := Assign(services, key, newService);
      return newService;
    }
  }
}
