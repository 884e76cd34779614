/**
 The one dedupe set per process (ios/SinchPushSocket/SeenMessageRegistry.swift): lazily loaded,
 persisted before a new mark is answered. Calls are atomic (the lock is held).
 */
module SeenRegistries {
  import opened Common
  import opened SocketTypes
  import opened SeenSets

  /** `memory` is meaningful once `loaded`; `stored` is the persisted list. */
  datatype Registry = Registry(loaded: bool, memory: seq<string>, stored: seq<string>)

  function Current(r: Registry): seq<string> {
    if r.loaded then r.memory else RestoredOldest(r.stored)
  }

  function Loaded(r: Registry): Registry {
    Registry(true, Current(r), r.stored)
  }

  function Marked(r: Registry, id: string): Registry {
    if IsNew(Current(r), id)
    then var order := Inserted(Current(r), CAPACITY, id); Registry(true, order, order)
    else Loaded(r)
  }

  function Restarted(r: Registry): Registry {
    Registry(false, [], r.stored)
  }

  class SeenMessageRegistry {
    const store: StateStore
    const seen: SeenSet
    var didLoad: bool

    ghost predicate Valid()
      reads this, seen
    {
      seen.Valid() && seen.limit == CAPACITY
    }

    ghost function View(): Registry
      reads this, seen, store
    {
      Registry(didLoad, if didLoad then seen.order else [], store.seenMessageIds)
    }

    constructor (store: StateStore)
      ensures Valid() && fresh(seen) && this.store == store
      ensures View() == Restarted(View())
    {
      this.store := store;
      seen := new SeenSet(CAPACITY);
      didLoad := false;
    }

    /** True for a newly recorded id, which is on disk by the time this returns. */
    method MarkSeen(id: string) returns (isNew: bool)
      requires Valid()
      modifies this, seen, store`seenMessageIds
      ensures Valid()
      ensures isNew == IsNew(old(Current(View())), id)
      ensures View() == old(Marked(View(), id))
      ensures isNew ==> id in store.seenMessageIds
    {
      LoadIfNeeded();
      isNew := seen.Insert(id);
      if isNew {
        store.seenMessageIds := seen.order;
        assert seen.order[|seen.order| - 1] == id;
      }
    }

    method Contains(id: string) returns (known: bool)
      requires Valid()
      modifies this, seen
      ensures Valid() && View() == old(Loaded(View()))
      ensures known == (id in old(Current(View())))
    {
      LoadIfNeeded();
      known := seen.Contains(id);
    }

    method LoadIfNeeded()
      requires Valid()
      modifies this, seen
      ensures Valid() && didLoad && View() == old(Loaded(View()))
    {
      if didLoad {
        return;
      }
      didLoad := true;
      seen.RestoreOldest(store.seenMessageIds);
    }
  }

  // ----- Runs, restarts included -----

  datatype Call = Mark(id: string) | Look(id: string) | Restart

  function StepRegistry(r: Registry, call: Call): Registry {
    match call
    case Mark(id) => Marked(r, id)
    case Look(_) => Loaded(r)
    case Restart => Restarted(r)
  }

  function RunRegistry(r: Registry, calls: seq<Call>): Registry {
    if calls == [] then r else StepRegistry(RunRegistry(r, calls[..|calls| - 1]), calls[|calls| - 1])
  }

  function MarkedIds(calls: seq<Call>): seq<string> {
    if calls == [] then []
    else MarkedIds(calls[..|calls| - 1]) + (if calls[|calls| - 1].Mark? then [calls[|calls| - 1].id] else [])
  }

  /** What disk would restore is what memory holds. */
  ghost predicate Durable(r: Registry) {
    Consistent(Current(r), CAPACITY) && RestoredOldest(r.stored) == Current(r)
  }

  lemma AnyStoreIsDurable(stored: seq<string>)
    ensures Durable(Registry(false, [], stored))
  {
    RestoredOldestIsConsistent(stored);
  }

  lemma StepKeepsDurable(r: Registry, call: Call)
    requires Durable(r)
    ensures Durable(StepRegistry(r, call))
    ensures Current(StepRegistry(r, call)) == if call.Mark? then Inserted(Current(r), CAPACITY, call.id) else Current(r)
  {
    if call.Mark? {
      InsertedStaysConsistent(Current(r), CAPACITY, call.id);
      RestoreIsIdentity(Inserted(Current(r), CAPACITY, call.id), CAPACITY);
    }
  }

  /**
   Restarts and look-ups are invisible: after any run over any store, the set is what the marks alone,
   offered to one uninterrupted set, would have left, and it is already on disk.
   */
  lemma {:induction false} RestartsAreInvisible(r: Registry, calls: seq<Call>)
    requires Durable(r)
    ensures Durable(RunRegistry(r, calls))
    ensures Current(RunRegistry(r, calls)) == Replay(Current(r), CAPACITY, MarkedIds(calls))
    decreases |calls|
  {
    if calls != [] {
      var before := calls[..|calls| - 1];
      RestartsAreInvisible(r, before);
      StepKeepsDurable(RunRegistry(r, before), calls[|calls| - 1]);
      var ids := MarkedIds(calls);
      if calls[|calls| - 1].Mark? {
        assert ids[..|ids| - 1] == MarkedIds(before);
      } else {
        assert ids == MarkedIds(before);
      }
    }
  }

  /** The ids answered "new" over a run. */
  function FirstSights(r: Registry, calls: seq<Call>): seq<string> {
    if calls == [] then []
    else
      var before := calls[..|calls| - 1];
      var call := calls[|calls| - 1];
      FirstSights(r, before)
      + (if call.Mark? && IsNew(Current(RunRegistry(r, before)), call.id) then [call.id] else [])
  }

  lemma {:induction false} FirstSightsAreNewMarks(r: Registry, calls: seq<Call>)
    requires Durable(r)
    ensures FirstSights(r, calls) == NewlyMarked(Current(r), CAPACITY, MarkedIds(calls))
    decreases |calls|
  {
    if calls != [] {
      var before := calls[..|calls| - 1];
      FirstSightsAreNewMarks(r, before);
      RestartsAreInvisible(r, before);
      var ids := MarkedIds(calls);
      if calls[|calls| - 1].Mark? {
        assert ids[..|ids| - 1] == MarkedIds(before);
      } else {
        assert ids == MarkedIds(before);
      }
    }
  }

  /**
   Across restarts over one store: an id is known exactly when it is among the 2000 newest first sights,
   and two first sights of one id have at least 2000 others between them.
   */
  lemma DedupeAgreesWithLog(r: Registry, calls: seq<Call>, id: string)
    requires Durable(r)
    ensures id in Current(RunRegistry(r, calls)) <==> id in LastN(Current(r) + FirstSights(r, calls), 2000)
    ensures var log := Current(r) + FirstSights(r, calls);
            forall p, q :: 0 <= p < q < |log| && log[p] == log[q] ==> q - p > 2000
  {
    FirstSightsAreNewMarks(r, calls);
    RestartsAreInvisible(r, calls);
    SetIsNewestOfLog(Current(r), CAPACITY, MarkedIds(calls));
    var log := Current(r) + FirstSights(r, calls);
    forall p, q | 0 <= p < q < |log| && log[p] == log[q] ensures q - p > CAPACITY {
      if q - p <= CAPACITY {
        RepeatsAreFarApart(Current(r), CAPACITY, MarkedIds(calls), p, q);
      }
    }
  }
}
