/** The in-memory merchant store: a dictionary from id to record and an id
    counter, updated in place by its operations. Each operation is modelled
    as one atomic step; every method is proved to do exactly what the
    matching function of StoreSpec does, so the properties proved there hold
    of the object. */
module Stores {
  import opened Schemas
  import StoreSpec

  class MemoryStore {
    /** The dictionary from id to record. */
    var data: map<int, MerchantOut>
    /** The dictionary's iteration order: its keys in insertion order. */
    var order: seq<int>
    /** The next id to hand out. */
    var nextId: int

    ghost function State(): StoreSpec.Store
      reads this
    {
      StoreSpec.Store(data, order, nextId)
    }

    ghost predicate Valid()
      reads this
    {
      StoreSpec.Inv(State())
    }

    /** A new store is empty and will hand out id 1 first. */
    constructor ()
      ensures Valid()
      ensures data == map[] && order == [] && nextId == 1
      ensures State() == StoreSpec.Empty()
    {
      data := map[];
      order := [];
      nextId := 1;
    }

    /** A snapshot of the stored records in dictionary order. */
    method List() returns (merchants: seq<MerchantOut>)
      requires Valid()
      ensures merchants == StoreSpec.List(State())
      ensures forall i, j :: 0 <= i < j < |merchants| ==> merchants[i].id < merchants[j].id
    {
      StoreSpec.OrderIsLive(State());
      var d, keys := data, order;
      merchants := seq(|keys|, i requires 0 <= i < |keys| => d[keys[i]]);
    }

    /** The record stored under `id`, or NotFound; the store is unchanged. */
    method Get(id: int) returns (r: StoreSpec.Result<MerchantOut>)
      ensures r == StoreSpec.Get(State(), id)
      ensures r.Ok? <==> id in data
    {
      if id in data {
        r := StoreSpec.Ok(data[id]);
      } else {
        r := StoreSpec.NotFound;
      }
    }

    /** Stores a record built from the payload under the counter's value,
        advances the counter and returns the record. */
    method Create(payload: MerchantCreate) returns (merchant: MerchantOut)
      requires Valid() && ValidBase(payload)
      modifies this
      ensures Valid()
      ensures StoreSpec.Create(old(State()), payload) == StoreSpec.Outcome(State(), StoreSpec.Ok(merchant))
      ensures merchant.id == old(nextId) && AsBase(merchant) == payload
      ensures data == old(data)[merchant.id := merchant] && nextId == old(nextId) + 1
    {
      StoreSpec.OrderIsLive(State());
      merchant := FromBase(nextId, payload);
      data := data[nextId := merchant];
      order := order + [nextId];
      nextId := nextId + 1;
    }

    /** Replaces the record under `id` wholesale, or fails with NotFound and
        changes nothing when there is none. */
    method Update(id: int, payload: MerchantUpdate) returns (r: StoreSpec.Result<MerchantOut>)
      requires Valid() && ValidBase(payload)
      modifies this
      ensures Valid()
      ensures StoreSpec.Update(old(State()), id, payload) == StoreSpec.Outcome(State(), r)
      ensures id !in old(data) ==> r == StoreSpec.NotFound && unchanged(this)
      ensures id in old(data) ==> r == StoreSpec.Ok(FromBase(id, payload)) && data == old(data)[id := r.value]
      ensures order == old(order) && nextId == old(nextId)
    {
      if id !in data {
        return StoreSpec.NotFound;
      }
      var updated := FromBase(id, payload);
      data := data[id := updated];
      r := StoreSpec.Ok(updated);
    }

    /** Removes the record under `id`, or fails with NotFound and changes
        nothing when there is none. */
    method Delete(id: int) returns (r: StoreSpec.Result<()>)
      requires Valid()
      modifies this
      ensures Valid()
      ensures StoreSpec.Delete(old(State()), id) == StoreSpec.Outcome(State(), r)
      ensures id !in old(data) ==> r == StoreSpec.NotFound && unchanged(this)
      ensures id in old(data) ==> r == StoreSpec.Ok(()) && data == old(data) - {id}
      ensures nextId == old(nextId)
    {
      if id !in data {
        return StoreSpec.NotFound;
      }
      data := data - {id};
      order := StoreSpec.Without(order, id);
      r := StoreSpec.Ok(());
    }
  }

  /** A client run of the store: the ids handed out go up, and a deleted id
      stays NotFound even after later creates. */
  method UsageScenario(a: MerchantCreate, b: MerchantCreate)
    requires ValidBase(a) && ValidBase(b)
  {
    var store := new MemoryStore();
    var m1 := store.Create(a);
    var m2 := store.Create(b);
    assert m1.id == 1 && m2.id == 2;
    var gone := store.Delete(m1.id);
    assert gone.Ok?;
    var m3 := store.Create(a);
    assert m3.id == 3;
    var again := store.Get(m1.id);
    assert again == StoreSpec.NotFound;
    var missing := store.Update(m1.id, b);
    assert missing == StoreSpec.NotFound;
  }
}
