/** The persisted queue of provider-push reports (ios/SinchPushSocket/ReportOutbox.swift). */
module ReportOutboxes {
  import opened Common
  import opened SocketTypes

  const CAPACITY: nat := 500

  type ReportKey = (string, string)

  function KeyOf(e: ReportOutboxEntry): ReportKey {
    (e.messageId, e.subscriberId)
  }

  predicate Queued(entries: seq<ReportOutboxEntry>, key: ReportKey) {
    exists i :: 0 <= i < |entries| && KeyOf(entries[i]) == key
  }

  predicate Takes(entries: seq<ReportOutboxEntry>, messageId: string, subscriberId: string) {
    messageId != "" && subscriberId != "" && !Queued(entries, (messageId, subscriberId))
  }

  function Enqueued(entries: seq<ReportOutboxEntry>, messageId: string, subscriberId: string, nowMs: int)
    : seq<ReportOutboxEntry>
  {
    if !Takes(entries, messageId, subscriberId) then entries
    else
      (if |entries| >= CAPACITY then entries[1..] else entries) + [ReportOutboxEntry(messageId, subscriberId, nowMs)]
  }

  /** The entries whose key is not in `keys`, in order. */
  function Without(entries: seq<ReportOutboxEntry>, keys: seq<ReportKey>): seq<ReportOutboxEntry> {
    if entries == [] then []
    else
      var e := entries[|entries| - 1];
      Without(entries[..|entries| - 1], keys) + (if KeyOf(e) in keys then [] else [e])
  }

  ghost predicate Sound(entries: seq<ReportOutboxEntry>) {
    && |entries| <= CAPACITY
    && (forall i, j :: 0 <= i < j < |entries| ==> KeyOf(entries[i]) != KeyOf(entries[j]))
    && (forall e :: e in entries ==> e.messageId != "" && e.subscriberId != "")
  }

  lemma EnqueueKeepsSound(entries: seq<ReportOutboxEntry>, messageId: string, subscriberId: string, nowMs: int)
    requires Sound(entries)
    ensures Sound(Enqueued(entries, messageId, subscriberId, nowMs))
    ensures messageId != "" && subscriberId != "" ==>
              Queued(Enqueued(entries, messageId, subscriberId, nowMs), (messageId, subscriberId))
    ensures Enqueued(entries, messageId, subscriberId, nowMs) ==
            if Takes(entries, messageId, subscriberId)
            then LastN(entries + [ReportOutboxEntry(messageId, subscriberId, nowMs)], 500) else entries
  {
    if Takes(entries, messageId, subscriberId) {
      var after := Enqueued(entries, messageId, subscriberId, nowMs);
      assert KeyOf(after[|after| - 1]) == (messageId, subscriberId);
      assert forall e :: e in after ==> e in entries || e == ReportOutboxEntry(messageId, subscriberId, nowMs);
    }
  }

  lemma {:induction false} WithoutIff(entries: seq<ReportOutboxEntry>, keys: seq<ReportKey>)
    ensures forall e :: e in Without(entries, keys) <==> e in entries && KeyOf(e) !in keys
    ensures |Without(entries, keys)| <= |entries|
    decreases |entries|
  {
    if entries != [] {
      var before := entries[..|entries| - 1];
      WithoutIff(before, keys);
      assert entries == before + [entries[|entries| - 1]];
    }
  }

  lemma {:induction false} WithoutIsSound(entries: seq<ReportOutboxEntry>, keys: seq<ReportKey>)
    requires Sound(entries)
    ensures Sound(Without(entries, keys))
    decreases |entries|
  {
    if entries != [] {
      var before := entries[..|entries| - 1];
      WithoutIsSound(before, keys);
      WithoutIff(before, keys);
      var kept := Without(before, keys);
      forall i | 0 <= i < |kept| ensures KeyOf(kept[i]) != KeyOf(entries[|entries| - 1]) {
        assert kept[i] in before;
      }
    }
  }

  /** Removal drops exactly the entries with the given keys, keeping the others in order. */
  lemma RemovalIsExact(entries: seq<ReportOutboxEntry>, keys: seq<ReportKey>)
    ensures forall e :: e in Without(entries, keys) <==> e in entries && KeyOf(e) !in keys
    ensures Sound(entries) ==> Sound(Without(entries, keys))
    ensures |Without(entries, keys)| <= |entries|
  {
    WithoutIff(entries, keys);
    if Sound(entries) {
      WithoutIsSound(entries, keys);
    }
  }

  class ReportOutbox {
    const store: StateStore
    var entries: seq<ReportOutboxEntry>
    var didLoad: bool

    /** The queue a caller sees: memory once loaded, else what loading would give. */
    ghost function View(): seq<ReportOutboxEntry>
      reads this, store
    {
      if didLoad then entries else LastN(store.reportOutbox, CAPACITY)
    }

    constructor (store: StateStore)
      ensures this.store == store && View() == LastN(store.reportOutbox, CAPACITY)
    {
      this.store := store;
      entries, didLoad := [], false;
    }

    method LoadIfNeeded()
      modifies this
      ensures didLoad && entries == old(View())
    {
      if didLoad {
        return;
      }
      didLoad := true;
      entries := store.reportOutbox;
      if |entries| > CAPACITY {
        entries := entries[|entries| - CAPACITY..];
      }
    }

    /** False when the pair is already queued: the original time stands. */
    method Enqueue(messageId: string, subscriberId: string, nowMs: int) returns (queued: bool)
      modifies this, store`reportOutbox
      ensures queued == old(Takes(View(), messageId, subscriberId))
      ensures View() == old(Enqueued(View(), messageId, subscriberId, nowMs))
      ensures queued ==> store.reportOutbox == View()
      ensures !queued ==> store.reportOutbox == old(store.reportOutbox)
    {
      LoadIfNeeded();
      if messageId == "" || subscriberId == "" {
        return false;
      }
      if exists i :: 0 <= i < |entries| && KeyOf(entries[i]) == (messageId, subscriberId) {
        return false;
      }
      if |entries| >= CAPACITY {
        entries := entries[1..];
      }
      entries := entries + [ReportOutboxEntry(messageId, subscriberId, nowMs)];
      store.reportOutbox := entries;
      queued := true;
    }

    method Snapshot() returns (queue: seq<ReportOutboxEntry>)
      modifies this
      ensures queue == old(View()) == View()
    {
      LoadIfNeeded();
      queue := entries;
    }

    method Remove(keys: seq<ReportKey>)
      modifies this, store`reportOutbox
      ensures View() == old(Without(View(), keys))
      ensures keys != [] ==> store.reportOutbox == View()
    {
      LoadIfNeeded();
      if keys == [] {
        EmptyKeysRemoveNothing(entries);
        return;
      }
      var kept := [];
      for i := 0 to |entries|
        invariant kept == Without(entries[..i], keys)
      {
        assert entries[..i + 1][..i] == entries[..i];
        if KeyOf(entries[i]) !in keys {
          kept := kept + [entries[i]];
        }
      }
      assert entries[..|entries|] == entries;
      entries := kept;
      store.reportOutbox := entries;
    }

    method Clear()
      modifies this, store`reportOutbox
      ensures View() == [] && store.reportOutbox == []
    {
      LoadIfNeeded();
      entries := [];
      store.reportOutbox := entries;
    }
  }

  lemma {:induction false} EmptyKeysRemoveNothing(entries: seq<ReportOutboxEntry>)
    ensures Without(entries, []) == entries
    decreases |entries|
  {
    if entries != [] {
      EmptyKeysRemoveNothing(entries[..|entries| - 1]);
    }
  }
}
