/**
 The bounded dedupe set (ios/SinchPushSocket/SeenSet.swift): insertion-ordered, evicting the
 entry that was inserted first, never refreshing a repeated id.
 */
module SeenSets {
  import opened Common

  const CAPACITY: nat := 2000

  // ----- The set as a list, oldest first -----

  predicate IsNew(order: seq<string>, id: string) {
    id != "" && id !in order
  }

  function Inserted(order: seq<string>, limit: nat, id: string): seq<string> {
    if IsNew(order, id) then LastN(order + [id], limit) else order
  }

  /** The list after offering `ids` one by one. */
  function Replay(order: seq<string>, limit: nat, ids: seq<string>): seq<string> {
    if ids == [] then order
    else Inserted(Replay(order, limit, ids[..|ids| - 1]), limit, ids[|ids| - 1])
  }

  /** The log of the offers that were answered "new", in order. */
  function NewlyMarked(order: seq<string>, limit: nat, ids: seq<string>): seq<string> {
    if ids == [] then []
    else
      var id := ids[|ids| - 1];
      var before := ids[..|ids| - 1];
      NewlyMarked(order, limit, before) + (if IsNew(Replay(order, limit, before), id) then [id] else [])
  }

  ghost predicate Consistent(order: seq<string>, limit: nat) {
    Distinct(order) && |order| <= limit && "" !in order
  }

  lemma InsertedStaysConsistent(order: seq<string>, limit: nat, id: string)
    requires Consistent(order, limit)
    ensures Consistent(Inserted(order, limit, id), limit)
  {
  }

  lemma {:induction false} ReplayStaysConsistent(order: seq<string>, limit: nat, ids: seq<string>)
    requires Consistent(order, limit)
    ensures Consistent(Replay(order, limit, ids), limit)
    decreases |ids|
  {
    if ids != [] {
      ReplayStaysConsistent(order, limit, ids[..|ids| - 1]);
      InsertedStaysConsistent(Replay(order, limit, ids[..|ids| - 1]), limit, ids[|ids| - 1]);
    }
  }

  /** The set is exactly the newest `limit` entries of the log: an id is in it iff it is among them. */
  lemma {:induction false} SetIsNewestOfLog(order: seq<string>, limit: nat, ids: seq<string>)
    requires Consistent(order, limit)
    ensures Replay(order, limit, ids) == LastN(order + NewlyMarked(order, limit, ids), limit)
    decreases |ids|
  {
    if ids == [] {
      assert order + [] == order;
    } else {
      var before := ids[..|ids| - 1];
      var id := ids[|ids| - 1];
      SetIsNewestOfLog(order, limit, before);
      var log := order + NewlyMarked(order, limit, before);
      if IsNew(Replay(order, limit, before), id) {
        LastNOfAppend(log, limit, id);
        assert order + NewlyMarked(order, limit, ids) == log + [id];
      } else {
        assert order + NewlyMarked(order, limit, ids) == log;
      }
    }
  }

  /**
   Any `limit` + 1 consecutive entries of the log are distinct: two "new" answers for one id have at
   least `limit` other, pairwise different, new ids between them.
   */
  lemma {:induction false} RepeatsAreFarApart(order: seq<string>, limit: nat, ids: seq<string>, p: nat, q: nat)
    requires Consistent(order, limit)
    requires p < q < |order| + |NewlyMarked(order, limit, ids)|
    requires q - p <= limit
    ensures (order + NewlyMarked(order, limit, ids))[p] != (order + NewlyMarked(order, limit, ids))[q]
    decreases |ids|
  {
    if ids != [] {
      var before := ids[..|ids| - 1];
      var log := order + NewlyMarked(order, limit, before);
      if q < |log| {
        RepeatsAreFarApart(order, limit, before, p, q);
        assert log[p] != log[q];
      } else {
        SetIsNewestOfLog(order, limit, before);
        assert log[p] in LastN(log, limit) by {
          assert LastN(log, limit)[p - (|log| - |LastN(log, limit)|)] == log[p];
        }
      }
      assert log <= order + NewlyMarked(order, limit, ids);
    }
  }

  /** Offering distinct ids that the set has not seen records all of them and keeps the newest. */
  lemma {:induction false} ReplayOfDistinct(limit: nat, ids: seq<string>)
    requires Distinct(ids) && "" !in ids
    ensures Replay([], limit, ids) == LastN(ids, limit)
    decreases |ids|
  {
    if ids != [] {
      var before := ids[..|ids| - 1];
      ReplayOfDistinct(limit, before);
      LastNOfAppend(before, limit, ids[|ids| - 1]);
      assert before + [ids[|ids| - 1]] == ids;
      forall x | x in LastN(before, limit) ensures x != ids[|ids| - 1] {
        assert x in before;
      }
    }
  }

  /** What `init(persisted:)` builds: at most CAPACITY entries are read, from the front. */
  function RestoredOldest(persisted: seq<string>): seq<string> {
    Replay([], CAPACITY, if |persisted| <= CAPACITY then persisted else persisted[..CAPACITY])
  }

  /** Restoring what a set persisted gives the same set back, under either initialiser. */
  lemma RestoreIsIdentity(persisted: seq<string>, limit: nat)
    requires Consistent(persisted, limit)
    ensures Replay([], limit, persisted) == persisted
    ensures limit == 2000 ==> RestoredOldest(persisted) == persisted
  {
    ReplayOfDistinct(limit, persisted);
  }

  lemma RestoredOldestIsConsistent(persisted: seq<string>)
    ensures Consistent(RestoredOldest(persisted), CAPACITY)
  {
    ReplayStaysConsistent([], CAPACITY, if |persisted| <= CAPACITY then persisted else persisted[..CAPACITY]);
  }

  /**
   On a list longer than the bound the two initialisers differ: `init(limit:persisted:)` keeps the
   newest entries and `init(persisted:)` the oldest, although its comment says the excess is
   dropped from the front. It keeps the newest exactly when the list fits.
   */
  lemma RestoresKeepOppositeEnds(persisted: seq<string>)
    requires Distinct(persisted) && "" !in persisted
    ensures Replay([], 2000, persisted) == LastN(persisted, 2000)
    ensures RestoredOldest(persisted) == persisted[..Min(2000, |persisted|)]
    ensures RestoredOldest(persisted) == LastN(persisted, 2000) <==> |persisted| <= 2000
  {
    ReplayOfDistinct(CAPACITY, persisted);
    if |persisted| <= CAPACITY {
      assert persisted[..|persisted|] == persisted;
    } else {
      ReplayOfDistinct(CAPACITY, persisted[..CAPACITY]);
      assert persisted[..CAPACITY][0] != LastN(persisted, CAPACITY)[0];
    }
  }

  // ----- The mutable set -----

  /** `order` is the eviction order and the persisted list; `index` answers membership. */
  class SeenSet {
    var order: seq<string>
    var index: set<string>
    const limit: nat

    ghost predicate Valid()
      reads this
    {
      && Consistent(order, limit)
      && index == (set id | id in order)
    }

    constructor (limit: nat)
      ensures Valid() && order == [] && this.limit == limit
    {
      this.limit := limit;
      order, index := [], {};
    }

    method Contains(id: string) returns (known: bool)
      requires Valid()
      ensures known == (id in order)
    {
      known := id in index;
    }

    /** True for a newly recorded non-empty id. */
    method Insert(id: string) returns (inserted: bool)
      requires Valid()
      modifies this
      ensures Valid()
      ensures inserted == IsNew(old(order), id)
      ensures order == Inserted(old(order), limit, id)
    {
      if id == "" || id in index {
        return false;
      }
      index := index + {id};
      order := order + [id];
      EvictIfNeeded();
      inserted := true;
    }

    method EvictIfNeeded()
      requires Distinct(order) && "" !in order && index == (set id | id in order)
      modifies this
      ensures Valid()
      ensures order == LastN(old(order), limit)
    {
      ghost var all := order;
      while |order| > limit
        invariant |order| <= |all| && order == all[|all| - |order|..]
        invariant |all| > limit ==> |order| >= limit
        invariant |all| <= limit ==> order == all
        invariant index == (set id | id in order)
      {
        var oldest := order[0];
        assert order == [oldest] + order[1..];
        assert oldest !in order[1..] by {
          forall i | 1 <= i < |order| ensures order[i] != oldest {
            assert all[|all| - |order|] == oldest && all[|all| - |order| + i] == order[i];
          }
        }
        order := order[1..];
        index := index - {oldest};
      }
    }

    /** `init(limit:persisted:)`: every persisted id is offered, so an over-long list keeps its newest. */
    method RestoreNewest(persisted: seq<string>)
      modifies this
      ensures Valid() && order == Replay([], limit, persisted)
    {
      order, index := [], {};
      for i := 0 to |persisted|
        invariant Valid() && order == Replay([], limit, persisted[..i])
      {
        var _ := Insert(persisted[i]);
        assert persisted[..i + 1][..i] == persisted[..i];
      }
      assert persisted[..|persisted|] == persisted;
    }

    /** `init(persisted:)`: only the first CAPACITY persisted ids are offered. */
    method RestoreOldest(persisted: seq<string>)
      requires limit == CAPACITY
      modifies this
      ensures Valid() && order == RestoredOldest(persisted)
    {
      RestoreNewest(if |persisted| <= CAPACITY then persisted else persisted[..CAPACITY]);
    }
  }
}
