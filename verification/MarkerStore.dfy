/** The marker store's methods, each one transaction over the persisted list. */
module MarkerStores {
  import opened Common
  import opened MarkerSpec

  class ReportMarkerStore {
    /** What `reports.json` holds. */
    var file: seq<Marker>

    constructor (stored: seq<Marker>)
      ensures file == stored
    {
      file := stored;
    }

    method Save(before: seq<Marker>, markers: seq<Marker>, now: int, write: bool)
      requires file == before
      modifies this
      ensures file == Prune(markers, now)
    {
      var pruned := Prune(markers, now);
      if write || pruned != before {
        file := pruned;
      }
    }

    /** Reports that must not be reported again right now. */
    method ExcludedKeys(now: int) returns (keys: set<ReportKey>)
      modifies this
      ensures keys == MarkerSpec.ExcludedKeys(old(file), now)
      ensures file == Transact(old(file), Act(Look, now))
    {
      var markers := Prune(file, now);
      keys := set m | m in markers && Excluding(m, now) :: m.entry.key;
      Save(file, markers, now, false);
    }

    method SentKeys(now: int) returns (keys: set<ReportKey>)
      modifies this
      ensures keys == MarkerSpec.SentKeys(old(file), now)
      ensures file == Transact(old(file), Act(Look, now))
    {
      var markers := Prune(file, now);
      keys := set m | m in markers && m.state == Sent :: m.entry.key;
      Save(file, markers, now, false);
    }

    method RetryEntries(now: int) returns (entries: seq<ReportEntry>)
      modifies this
      ensures entries == MarkerSpec.RetryEntries(old(file), now)
      ensures file == Transact(old(file), Act(Look, now))
    {
      var markers := Prune(file, now);
      entries := RetriesOf(markers);
      Save(file, markers, now, false);
    }

    /** Marks the entries in flight and returns the ones this caller now owns. */
    method Claim(entries: seq<ReportEntry>, now: int) returns (claimed: seq<ReportEntry>)
      modifies this
      ensures claimed == Claimed(old(file), Act(Op.Claim(entries), now))
      ensures file == Transact(old(file), Act(Op.Claim(entries), now))
    {
      var loaded := Prune(file, now);
      var markers := loaded;
      claimed := [];
      for n := 0 to |entries|
        invariant ClaimAll(loaded, entries[..n], now) == ClaimResult(markers, claimed)
      {
        var entry := entries[n];
        assert entries[..n + 1][..n] == entries[..n];
        var existing := IndexOf(markers, entry.key);
        if existing < |markers| {
          if Excluding(markers[existing], now) {
            assert claimed + [] == claimed;
            continue;
          }
          markers := RemoveAt(markers, existing);
        }
        markers := markers + [Marker(entry, InFlight, now)];
        claimed := claimed + [entry];
      }
      assert entries[..|entries|] == entries;
      Save(file, markers, now, true);
    }

    method MarkSent(keys: seq<ReportKey>, entries: seq<ReportEntry>, now: int)
      modifies this
      ensures file == Transact(old(file), Act(Mark(Sent, keys, entries), now))
    {
      Set(Sent, keys, entries, now);
    }

    /** Keeps the reports for the app to send. */
    method MarkRetry(keys: seq<ReportKey>, entries: seq<ReportEntry>, now: int)
      modifies this
      ensures file == Transact(old(file), Act(Mark(Retry, keys, entries), now))
    {
      Set(Retry, keys, entries, now);
    }

    method Set(state: SettledState, keys: seq<ReportKey>, entries: seq<ReportEntry>, now: int)
      modifies this
      ensures file == Transact(old(file), Act(Mark(state, keys, entries), now))
    {
      if |keys| == 0 {
        return;
      }
      var loaded := Prune(file, now);
      var markers := loaded;
      for n := 0 to |keys|
        invariant markers == SetAll(loaded, state, keys[..n], entries, now)
      {
        var key := keys[n];
        assert keys[..n + 1][..n] == keys[..n];
        var index := IndexOf(markers, key);
        if index < |markers| {
          if markers[index].state == Sent && state != Sent {
            continue;
          }
          markers := markers[index := markers[index].(state := state, atMs := now)];
        } else {
          markers := markers + [Marker(EntryFor(entries, key, now), state, now)];
        }
      }
      assert keys[..|keys|] == keys;
      Save(file, markers, now, true);
    }

    /** Forgets the reports waiting for a retry. */
    method ClearRetries(now: int)
      modifies this
      ensures file == Transact(old(file), Act(Op.ClearRetries, now))
    {
      Save(file, WithoutRetries(Prune(file, now)), now, true);
    }
  }
}
