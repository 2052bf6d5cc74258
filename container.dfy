/**
 * DialogProContainer: a registry of service factories with lazily created,
 * shared instances. A factory is identified by a tag; calling it yields a
 * fresh object, told apart from earlier ones by the running count of factory
 * calls, or null when the factory is one that returns null.
 */
module ServiceContainer {
  import opened Php

  const NotFoundPrefix: string := "Service not found: "

  /** A registered closure: its identity, and whether it returns null. */
  datatype Factory = Factory(tag: nat, returnsNull: bool)

  /** What a factory call produced: null, or the `serial`-th object made by the container. */
  datatype Instance = NullInstance | Obj(madeBy: Factory, serial: nat)

  /** The value the `serial`-th factory call produces. */
  function Made(f: Factory, serial: nat): Instance
  {
    if f.returnsNull then NullInstance else Obj(f, serial)
  }

  /** isset($instances[$id]): an entry that is present and not null. */
  predicate IsSet(instances: map<string, Instance>, id: string)
  {
    id in instances && instances[id] != NullInstance
  }

  predicate Distinct(ids: seq<string>)
  {
    forall i, j :: 0 <= i < j < |ids| ==> ids[i] != ids[j]
  }

  /** The sequence without any occurrence of `id`, order kept. */
  function Without(ids: seq<string>, id: string): (r: seq<string>)
    ensures forall x :: x in r <==> x in ids && x != id
  {
    if ids == [] then []
    else if ids[0] == id then Without(ids[1..], id)
    else [ids[0]] + Without(ids[1..], id)
  }

  lemma {:induction false} WithoutDistinct(ids: seq<string>, id: string)
    requires Distinct(ids)
    ensures Distinct(Without(ids, id))
  {
    if ids != [] {
      WithoutDistinct(ids[1..], id);
      if ids[0] != id {
        assert ids[0] !in ids[1..];
      }
    }
  }

  class Container {
    var factories: map<string, Factory>
    var instances: map<string, Instance>
    /** The keys of the factories array in PHP's insertion order. */
    var order: seq<string>
    /** How many factory calls have been made. */
    var calls: nat

    /** The key order lists each registered id exactly once. */
    predicate Valid()
      reads this
    {
      && Distinct(order)
      && (forall id :: id in order ==> id in factories)
      && (forall id :: id in factories ==> id in order)
    }

    constructor ()
      ensures Valid()
      ensures factories == map[] && instances == map[] && order == [] && calls == 0
    {
      factories := map[];
      instances := map[];
      order := [];
      calls := 0;
    }

    /**
     * register: stores the factory under the id without calling it. A new id
     * goes to the end of the key order; a known one keeps its place. An
     * instance already created for the id stays.
     */
    method Register(id: string, f: Factory)
      requires Valid()
      modifies this
      ensures Valid()
      ensures factories == old(factories)[id := f]
      ensures order == if id in old(factories) then old(order) else old(order) + [id]
      ensures instances == old(instances) && calls == old(calls)
    {
      if id !in factories {
        order := order + [id];
      }
      factories := factories[id := f];
    }

    /**
     * get: a set instance is returned as it is; otherwise the registered
     * factory is called and its result stored, and without a factory the call
     * fails with "Service not found: <id>". A factory that returned null
     * leaves the slot unset, so it runs again on the next get.
     */
    method Get(id: string) returns (r: Result<Instance>)
      requires Valid()
      modifies this
      ensures Valid()
      ensures IsSet(old(instances), id) ==> r == Ok(old(instances)[id]) && unchanged(this)
      ensures !IsSet(old(instances), id) && id !in old(factories) ==>
        r == Err(NotFoundPrefix + id) && unchanged(this)
      ensures !IsSet(old(instances), id) && id in old(factories) ==>
        && r == Ok(Made(old(factories)[id], old(calls)))
        && instances == old(instances)[id := r.value]
        && calls == old(calls) + 1
        && factories == old(factories) && order == old(order)
      ensures r.Ok? && r.value != NullInstance ==> IsSet(instances, id) && instances[id] == r.value
    {
      if IsSet(instances, id) {
        return Ok(instances[id]);
      }
      if id !in factories {
        return Err(NotFoundPrefix + id);
      }
      var instance := Made(factories[id], calls);
      calls := calls + 1;
      instances := instances[id := instance];
      r := Ok(instance);
    }

    /** has: a factory is registered under the id. */
    predicate Has(id: string)
      reads this
    {
      id in factories
    }

    /** remove: forgets the factory and the instance; an unknown id changes nothing. */
    method Remove(id: string)
      requires Valid()
      modifies this
      ensures Valid()
      ensures factories == old(factories) - {id} && instances == old(instances) - {id}
      ensures order == Without(old(order), id) && calls == old(calls)
      ensures !Has(id)
      ensures id !in old(factories) && id !in old(instances) ==> unchanged(this)
    {
      if id !in factories {
        WithoutAbsent(order, id);
        assert factories - {id} == factories;
      }
      if id !in instances {
        assert instances - {id} == instances;
      }
      WithoutDistinct(order, id);
      order := Without(order, id);
      factories := factories - {id};
      instances := instances - {id};
    }

    /** getServices: every registered id once, in registration order. */
    function GetServices(): (ids: seq<string>)
      requires Valid()
      reads this
      ensures Distinct(ids)
      ensures forall id :: id in ids <==> Has(id)
      ensures |ids| == |factories|
    {
      DistinctCount(order, factories.Keys);
      order
    }
  }

  lemma {:induction false} WithoutAbsent(ids: seq<string>, id: string)
    requires id !in ids
    ensures Without(ids, id) == ids
  {
    if ids != [] {
      WithoutAbsent(ids[1..], id);
    }
  }

  /** A duplicate-free sequence has as many elements as the set of its elements. */
  lemma {:induction false} DistinctCount(ids: seq<string>, keys: set<string>)
    requires Distinct(ids) && forall id :: id in ids <==> id in keys
    ensures |ids| == |keys|
  {
    if ids != [] {
      var rest := keys - {ids[0]};
      assert forall id :: id in ids[1..] <==> id in rest by {
        forall id ensures id in ids[1..] <==> id in rest {
          if id in ids[1..] {
            var k :| 0 <= k < |ids[1..]| && ids[1..][k] == id;
            assert ids[k + 1] == id;
          }
        }
      }
      DistinctCount(ids[1..], rest);
    }
  }

  /** One factory: it runs on the first get only, an unknown id fails, and remove unregisters. */
  method SingletonScenario()
  {
    var c := new Container();
    var f := Factory(1, false);
    c.Register("test", f);
    assert c.calls == 0;
    var first := c.Get("test");
    var second := c.Get("test");
    assert first == second == Ok(Obj(f, 0));
    var missing := c.Get("nonexistent");
    assert missing == Err("Service not found: nonexistent");
    c.Remove("test");
    assert !c.Has("test");
  }

  /** Re-registering before the first get switches factories; after it, the made instance stays. */
  method ReRegisterScenario()
  {
    var c := new Container();
    var f, g := Factory(1, false), Factory(2, false);
    c.Register("svc", f);
    c.Register("svc", g);
    var made := c.Get("svc");
    assert made == Ok(Obj(g, 0));
    c.Register("svc", f);
    var again := c.Get("svc");
    assert again == made;
    assert c.GetServices() == ["svc"];
  }

  /** A factory that returns null is called again on every get. */
  method NullFactoryScenario()
  {
    var c := new Container();
    var nil := Factory(3, true);
    c.Register("nil", nil);
    var n1 := c.Get("nil");
    var n2 := c.Get("nil");
    assert n1 == n2 == Ok(NullInstance);
    assert c.calls == 2;
  }
}
