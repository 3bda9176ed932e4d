/** What a put keeps and what it costs, record by record. */
module TranscriptStoreKeeps {
  import opened Lists
  import opened TranscriptStores

  /** A record as a call at `now` takes it: one dated more than five minutes ahead ended now. */
  function Redated(e: Entry, now: real): Entry {
    if e.ended > now + 300.0 then Entry(e.id, now, e.size) else e
  }

  lemma ClampedAre(entries: seq<Entry>, now: real, e: Entry)
    requires e in entries
    ensures Redated(e, now) in Clamped(entries, now)
  {
    var i :| 0 <= i < |entries| && entries[i] == e;
    assert Clamped(entries, now)[i] == Redated(e, now);
  }

  /** The place of an id among the ids that may go. */
  lemma {:induction false} OtherIdsInOrder(sorted: seq<Entry>, id: string, i: nat, j: nat, d: Entry, k: Entry)
    requires EndedInOrder(sorted) && Distinct(sorted) && d in sorted && k in sorted
    requires i < j < |OtherIds(sorted, id)| && OtherIds(sorted, id)[i] == d.id && OtherIds(sorted, id)[j] == k.id
    ensures d.ended <= k.ended
  {
    if sorted[0].id == id {
      assert d in sorted[1..] && k in sorted[1..] by {
        OtherIdsAre(sorted, id, d.id);
        OtherIdsAre(sorted, id, k.id);
      }
      OtherIdsInOrder(sorted[1..], id, i, j, d, k);
    } else if i == 0 {
      DistinctFinds(sorted, sorted[0], d);
      var n :| 0 <= n < |sorted| && sorted[n] == k;
    } else {
      var rest := OtherIds(sorted[1..], id);
      assert rest[i - 1] == d.id && rest[j - 1] == k.id;
      OtherIdsAre(sorted[1..], id, d.id);
      OtherIdsAre(sorted[1..], id, k.id);
      StaysBehind(sorted, d);
      StaysBehind(sorted, k);
      OtherIdsInOrder(sorted[1..], id, i - 1, j - 1, d, k);
    }
  }

  lemma StaysBehind(sorted: seq<Entry>, e: Entry)
    requires Distinct(sorted) && e in sorted && exists d :: d in sorted[1..] && d.id == e.id
    ensures e in sorted[1..]
  {
    var d :| d in sorted[1..] && d.id == e.id;
    assert d in sorted;
    DistinctFinds(sorted, d, e);
  }

  /** Which of the records a put finds it keeps: those of other ids, not older than the time
      they are kept for, and not dropped for room. */
  lemma PutKeepsTheRest(policy: Policy, entries: seq<Entry>, id: string, size: nat, now: real, doomed: seq<string>, e: Entry)
    requires policy.Ok() && Distinct(entries) && e in entries
    requires FairRoom(policy, Live(entries, policy, now), id, size, doomed)
    ensures Redated(e, now) in Without(Live(entries, policy, now), Members(doomed) + {id})
       <==> e.id != id && e.id !in doomed && now - Redated(e, now).ended < policy.ttl
  {
    ClampedAre(entries, now, e);
    LiveIsFresh(entries, policy, now, Redated(e, now));
    WithoutKeeps(Live(entries, policy, now), Members(doomed) + {id});
  }

  lemma LiveIsDistinct(entries: seq<Entry>, policy: Policy, now: real)
    requires Distinct(entries)
    ensures Distinct(Live(entries, policy, now))
  {
    var clamped := Clamped(entries, now);
    assert Distinct(clamped);
    WithoutKeepsDistinct(clamped, Members(ExpiredIds(clamped, policy, now)));
  }

  /** What is dropped for room ended no later than anything that stays. */
  lemma OldestGoFirst(policy: Policy, live: seq<Entry>, id: string, size: nat, doomed: seq<string>, d: Entry, k: Entry)
    requires Distinct(live) && FairRoom(policy, live, id, size, doomed)
    requires d in live && d.id in doomed && k in live && k.id !in doomed && k.id != id
    ensures d.ended <= k.ended
  {
    var sorted := OldestFirst(live);
    var others := OtherIds(sorted, id);
    OldestFirstSorts(live);
    OtherIdsAre(sorted, id, k.id);
    var i :| 0 <= i < |doomed| && doomed[i] == d.id;
    var j :| 0 <= j < |others| && others[j] == k.id;
    assert others[i] == d.id && others[..|doomed|] == doomed;
    OtherIdsInOrder(sorted, id, i, j, d, k);
  }

  /** The new record fits beside what stays, within both caps; and with one record fewer dropped
      it would not have. */
  lemma RoomIsNoMoreThanNeeded(policy: Policy, live: seq<Entry>, id: string, size: nat, doomed: seq<string>)
    requires Distinct(live) && FairRoom(policy, live, id, size, doomed)
    ensures var kept := Without(live, Members(doomed) + {id});
            && |kept| + 1 <= policy.maxEntries && TotalSize(kept) + size <= policy.maxBytes
            && (doomed != [] ==>
                  exists d :: d in live && d.id == doomed[|doomed| - 1] &&
                    (|kept| + 2 > policy.maxEntries || TotalSize(kept) + d.size + size > policy.maxBytes))
  {
    var gone := Members(doomed) + {id};
    WithoutKeeps(live, gone);
    if doomed != [] {
      var n := |doomed| - 1;
      var before := doomed[..n];
      var d := LastDoomed(policy, live, id, size, doomed);
      assert doomed == before + [doomed[n]];
      assert gone == Members(before) + {id} + {d.id};
      var i :| 0 <= i < |live| && live[i] == d;
      DropOne(live, Members(before) + {id}, i);
      assert !Fits(policy, live, id, size, Members(doomed[..n]));
    }
  }

  lemma LastDoomed(policy: Policy, live: seq<Entry>, id: string, size: nat, doomed: seq<string>) returns (d: Entry)
    requires Distinct(live) && FairRoom(policy, live, id, size, doomed) && doomed != []
    ensures d in live && d.id == doomed[|doomed| - 1] && d.id != id && d.id !in doomed[..|doomed| - 1]
  {
    var sorted := OldestFirst(live);
    var n := |doomed| - 1;
    OldestFirstSorts(live);
    assert OtherIds(sorted, id)[n] == doomed[n];
    OtherIdsAre(sorted, id, doomed[n]);
    d :| d in sorted && d.id == doomed[n];
    if i :| 0 <= i < n && doomed[i] == d.id {
      OtherIdsDistinct(sorted, id, i, n);
    }
  }

  lemma {:induction false} OtherIdsDistinct(sorted: seq<Entry>, id: string, i: nat, j: nat)
    requires Distinct(sorted) && i < j < |OtherIds(sorted, id)|
    ensures OtherIds(sorted, id)[i] != OtherIds(sorted, id)[j]
  {
    if sorted[0].id == id {
      OtherIdsDistinct(sorted[1..], id, i, j);
    } else if i == 0 {
      OtherIdsAre(sorted[1..], id, OtherIds(sorted, id)[j]);
    } else {
      OtherIdsDistinct(sorted[1..], id, i - 1, j - 1);
    }
  }
}
