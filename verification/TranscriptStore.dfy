/**
 The in-memory store of public transcripts: retention and eviction
 (src/arena/server/transcript_store.py). Time is passed to each call; it may step back.
 */
module TranscriptStores {
  import opened Lists
  import opened Wrappers

  const PUBLIC_AUDIENCE: string := "public"
  const FUTURE_SLACK_S: real := 300.0

  type Bytes = seq<bv8>

  datatype Policy = Policy(ttl: real, maxEntries: int, maxBytes: int, maxRecordBytes: int) {
    predicate Ok() {
      ttl > 0.0 && maxEntries >= 1 && maxBytes >= 1 && maxRecordBytes >= 1
    }

    function RecordLimit(): int {
      if maxRecordBytes < maxBytes then maxRecordBytes else maxBytes
    }

    predicate IsExpired(ended: real, now: real) {
      now - ended >= ttl
    }
  }

  datatype Entry = Entry(id: string, ended: real, size: nat)

  datatype Stored = Stored(id: string, ended: real, body: Bytes)

  datatype StoreError = TranscriptRejected | StoreClosed

  // ---------------------------------------------------------------------------
  // The index
  // ---------------------------------------------------------------------------

  function Ids(entries: seq<Entry>): set<string> {
    set e | e in entries :: e.id
  }

  predicate Distinct(entries: seq<Entry>) {
    forall i, j :: 0 <= i < j < |entries| ==> entries[i].id != entries[j].id
  }

  function TotalSize(entries: seq<Entry>): nat {
    if entries == [] then 0 else entries[0].size + TotalSize(entries[1..])
  }

  /** The entries whose ids are not in `gone`, in their order. */
  function Without(entries: seq<Entry>, gone: set<string>): seq<Entry> {
    if entries == [] then []
    else if entries[0].id in gone then Without(entries[1..], gone)
    else [entries[0]] + Without(entries[1..], gone)
  }

  function CountLeft(entries: seq<Entry>, gone: set<string>): nat {
    if entries == [] then 0
    else (if entries[0].id in gone then 0 else 1) + CountLeft(entries[1..], gone)
  }

  function SizeLeft(entries: seq<Entry>, gone: set<string>): nat {
    if entries == [] then 0
    else (if entries[0].id in gone then 0 else entries[0].size) + SizeLeft(entries[1..], gone)
  }

  /** Records from the future, re-dated to now. */
  function Clamped(entries: seq<Entry>, now: real): (r: seq<Entry>)
    ensures |r| == |entries|
    ensures forall i :: 0 <= i < |entries| ==>
      r[i] == if entries[i].ended - now > FUTURE_SLACK_S then entries[i].(ended := now) else entries[i]
  {
    seq(|entries|, i requires 0 <= i < |entries| =>
      if entries[i].ended - now > FUTURE_SLACK_S then entries[i].(ended := now) else entries[i])
  }

  function ExpiredIds(entries: seq<Entry>, policy: Policy, now: real): seq<string> {
    if entries == [] then []
    else if policy.IsExpired(entries[0].ended, now) then [entries[0].id] + ExpiredIds(entries[1..], policy, now)
    else ExpiredIds(entries[1..], policy, now)
  }

  // ---------------------------------------------------------------------------
  // Oldest first
  // ---------------------------------------------------------------------------

  /** Before every entry that ended no earlier: inserted from the last to the first, entries
      that ended together keep their order. */
  function InsertByEnded(e: Entry, sorted: seq<Entry>): seq<Entry> {
    if sorted == [] || e.ended <= sorted[0].ended then [e] + sorted
    else [sorted[0]] + InsertByEnded(e, sorted[1..])
  }

  function OldestFirst(entries: seq<Entry>): seq<Entry> {
    if entries == [] then [] else InsertByEnded(entries[0], OldestFirst(entries[1..]))
  }

  predicate EndedInOrder(entries: seq<Entry>) {
    forall i, j :: 0 <= i < j < |entries| ==> entries[i].ended <= entries[j].ended
  }

  lemma {:induction false} InsertKeepsMembers(e: Entry, sorted: seq<Entry>)
    ensures |InsertByEnded(e, sorted)| == |sorted| + 1
    ensures forall x :: x in InsertByEnded(e, sorted) <==> x == e || x in sorted
  {
    if sorted != [] && e.ended > sorted[0].ended {
      InsertKeepsMembers(e, sorted[1..]);
      assert sorted == [sorted[0]] + sorted[1..];
    }
  }

  lemma {:induction false} InsertKeepsOrder(e: Entry, sorted: seq<Entry>)
    requires EndedInOrder(sorted)
    ensures EndedInOrder(InsertByEnded(e, sorted))
  {
    if sorted != [] && e.ended > sorted[0].ended {
      var rest := InsertByEnded(e, sorted[1..]);
      InsertKeepsOrder(e, sorted[1..]);
      InsertKeepsMembers(e, sorted[1..]);
      forall i | 0 <= i < |rest|
        ensures sorted[0].ended <= rest[i].ended
      {
        assert rest[i] in rest;
      }
    }
  }

  lemma {:induction false} InsertKeepsDistinct(e: Entry, sorted: seq<Entry>)
    requires Distinct(sorted) && forall x :: x in sorted ==> x.id != e.id
    ensures Distinct(InsertByEnded(e, sorted))
  {
    if sorted != [] && e.ended > sorted[0].ended {
      var rest := InsertByEnded(e, sorted[1..]);
      InsertKeepsDistinct(e, sorted[1..]);
      InsertKeepsMembers(e, sorted[1..]);
      forall i | 0 <= i < |rest|
        ensures sorted[0].id != rest[i].id
      {
        assert rest[i] in rest;
      }
    }
  }

  lemma {:induction false} InsertKeepsSums(e: Entry, sorted: seq<Entry>, gone: set<string>)
    ensures CountLeft(InsertByEnded(e, sorted), gone) == CountLeft([e] + sorted, gone)
    ensures SizeLeft(InsertByEnded(e, sorted), gone) == SizeLeft([e] + sorted, gone)
  {
    if sorted != [] && e.ended > sorted[0].ended {
      InsertKeepsSums(e, sorted[1..], gone);
      assert ([e] + sorted)[1..] == sorted;
      assert ([e] + sorted[1..])[1..] == sorted[1..];
      assert InsertByEnded(e, sorted)[1..] == InsertByEnded(e, sorted[1..]);
    }
  }

  /** Sorting keeps the records, their distinct ids, and every sum over what is left after
      dropping some ids. */
  lemma {:induction false} OldestFirstSorts(entries: seq<Entry>)
    ensures EndedInOrder(OldestFirst(entries))
    ensures |OldestFirst(entries)| == |entries|
    ensures forall e :: e in OldestFirst(entries) <==> e in entries
    ensures Distinct(entries) ==> Distinct(OldestFirst(entries))
  {
    if entries != [] {
      var rest := OldestFirst(entries[1..]);
      OldestFirstSorts(entries[1..]);
      InsertKeepsMembers(entries[0], rest);
      InsertKeepsOrder(entries[0], rest);
      if Distinct(entries) {
        forall x | x in rest
          ensures x.id != entries[0].id
        {
          assert x in entries[1..];
        }
        InsertKeepsDistinct(entries[0], rest);
      }
    }
  }

  /** The records that ended at one moment, in their order. */
  function EndedAt(entries: seq<Entry>, ended: real): seq<Entry> {
    if entries == [] then []
    else if entries[0].ended == ended then [entries[0]] + EndedAt(entries[1..], ended)
    else EndedAt(entries[1..], ended)
  }

  lemma {:induction false} InsertIsStable(e: Entry, sorted: seq<Entry>, ended: real)
    ensures EndedAt(InsertByEnded(e, sorted), ended) == EndedAt([e] + sorted, ended)
  {
    assert ([e] + sorted)[1..] == sorted;
    if sorted != [] && e.ended > sorted[0].ended {
      InsertIsStable(e, sorted[1..], ended);
      assert ([e] + sorted[1..])[1..] == sorted[1..];
      assert InsertByEnded(e, sorted)[1..] == InsertByEnded(e, sorted[1..]);
    }
  }

  /** Records that ended together are evicted in the order the index holds them. */
  lemma {:induction false} OldestFirstIsStable(entries: seq<Entry>, ended: real)
    ensures EndedAt(OldestFirst(entries), ended) == EndedAt(entries, ended)
  {
    if entries != [] {
      var rest := OldestFirst(entries[1..]);
      OldestFirstIsStable(entries[1..], ended);
      InsertIsStable(entries[0], rest, ended);
      assert ([entries[0]] + rest)[1..] == rest;
    }
  }

  lemma {:induction false} OldestFirstSums(entries: seq<Entry>, gone: set<string>)
    ensures CountLeft(OldestFirst(entries), gone) == CountLeft(entries, gone)
    ensures SizeLeft(OldestFirst(entries), gone) == SizeLeft(entries, gone)
  {
    if entries != [] {
      var rest := OldestFirst(entries[1..]);
      OldestFirstSums(entries[1..], gone);
      InsertKeepsSums(entries[0], rest, gone);
      assert ([entries[0]] + rest)[1..] == rest;
    }
  }

  // ---------------------------------------------------------------------------
  // Dropping
  // ---------------------------------------------------------------------------

  lemma {:induction false} WithoutKeeps(entries: seq<Entry>, gone: set<string>)
    ensures forall e :: e in Without(entries, gone) <==> e in entries && e.id !in gone
    ensures |Without(entries, gone)| == CountLeft(entries, gone)
    ensures TotalSize(Without(entries, gone)) == SizeLeft(entries, gone)
  {
    if entries != [] {
      var rest := Without(entries[1..], gone);
      WithoutKeeps(entries[1..], gone);
      assert entries == [entries[0]] + entries[1..];
      assert ([entries[0]] + rest)[1..] == rest;
    }
  }

  lemma {:induction false} WithoutKeepsDistinct(entries: seq<Entry>, gone: set<string>)
    requires Distinct(entries)
    ensures Distinct(Without(entries, gone))
  {
    if entries != [] {
      var rest := Without(entries[1..], gone);
      WithoutKeepsDistinct(entries[1..], gone);
      WithoutKeeps(entries[1..], gone);
      forall i | 0 <= i < |rest|
        ensures entries[0].id != rest[i].id
      {
        assert rest[i] in rest && rest[i] in entries[1..];
      }
    }
  }

  lemma {:induction false} NothingGone(entries: seq<Entry>, gone: set<string>)
    requires forall e :: e in entries ==> e.id !in gone
    ensures CountLeft(entries, gone) == |entries| && SizeLeft(entries, gone) == TotalSize(entries)
  {
    if entries != [] {
      assert entries[0] in entries;
      NothingGone(entries[1..], gone);
    }
  }

  lemma {:induction false} AllGone(entries: seq<Entry>, gone: set<string>)
    requires forall e :: e in entries ==> e.id in gone
    ensures CountLeft(entries, gone) == 0 && SizeLeft(entries, gone) == 0
  {
    if entries != [] {
      assert entries[0] in entries;
      AllGone(entries[1..], gone);
    }
  }

  lemma {:induction false} SameLeft(entries: seq<Entry>, gone: set<string>, other: set<string>)
    requires forall e :: e in entries ==> (e.id in gone <==> e.id in other)
    ensures CountLeft(entries, gone) == CountLeft(entries, other)
    ensures SizeLeft(entries, gone) == SizeLeft(entries, other)
  {
    if entries != [] {
      assert entries[0] in entries;
      SameLeft(entries[1..], gone, other);
    }
  }

  /** Dropping one more record frees one place and its bytes. */
  lemma {:induction false} DropOne(entries: seq<Entry>, gone: set<string>, i: nat)
    requires Distinct(entries) && i < |entries| && entries[i].id !in gone
    ensures CountLeft(entries, gone + {entries[i].id}) == CountLeft(entries, gone) - 1
    ensures SizeLeft(entries, gone + {entries[i].id}) == SizeLeft(entries, gone) - entries[i].size
    decreases |entries|
  {
    if i == 0 {
      SameLeft(entries[1..], gone, gone + {entries[0].id});
    } else {
      DropOne(entries[1..], gone, i - 1);
    }
  }

  // ---------------------------------------------------------------------------
  // Making room
  // ---------------------------------------------------------------------------

  /** The ids that may be dropped for `id`, in the order of a list of records. */
  function OtherIds(entries: seq<Entry>, id: string): seq<string> {
    if entries == [] then []
    else if entries[0].id == id then OtherIds(entries[1..], id)
    else [entries[0].id] + OtherIds(entries[1..], id)
  }

  /** A record for `id` of `size` bytes fits beside what is left once `gone` is dropped; the
      record it replaces is not counted. */
  predicate Fits(policy: Policy, entries: seq<Entry>, id: string, size: nat, gone: set<string>) {
    && CountLeft(entries, gone + {id}) + 1 <= policy.maxEntries
    && SizeLeft(entries, gone + {id}) + size <= policy.maxBytes
  }

  /** `doomed` is the shortest oldest-first prefix, skipping `id`, that makes the record fit. */
  ghost predicate FairRoom(policy: Policy, entries: seq<Entry>, id: string, size: nat, doomed: seq<string>) {
    && doomed <= OtherIds(OldestFirst(entries), id)
    && Fits(policy, entries, id, size, Members(doomed))
    && forall k :: 0 <= k < |doomed| ==> !Fits(policy, entries, id, size, Members(doomed[..k]))
  }

  /** The new record's count and bytes, with `id`'s own record not counted. */
  method CountAndTotal(entries: seq<Entry>, totalBytes: nat, id: string, size: nat) returns (count: nat, total: nat)
    requires Distinct(entries) && totalBytes == TotalSize(entries)
    ensures count == CountLeft(entries, {id}) + 1 && total == SizeLeft(entries, {id}) + size
  {
    if i :| 0 <= i < |entries| && entries[i].id == id {
      NothingGone(entries, {});
      DropOne(entries, {}, i);
      assert {} + {entries[i].id} == {id};
      count, total := |entries|, totalBytes - entries[i].size + size;
    } else {
      NothingGone(entries, {id});
      count, total := |entries| + 1, totalBytes + size;
    }
  }

  lemma {:induction false} OtherIdsAre(entries: seq<Entry>, id: string, x: string)
    ensures x in OtherIds(entries, id) <==> x != id && exists e :: e in entries && e.id == x
  {
    if entries != [] {
      OtherIdsAre(entries[1..], id, x);
      if exists e :: e in entries && e.id == x {
        var e :| e in entries && e.id == x;
        assert e == entries[0] || e in entries[1..];
      }
      if exists e :: e in entries[1..] && e.id == x {
        var e :| e in entries[1..] && e.id == x;
        assert e in entries;
      }
    }
  }

  /** Where the eviction loop stands after `i` of the sorted records. */
  ghost predicate RoomSoFar(policy: Policy, sorted: seq<Entry>, id: string, size: nat, i: nat, doomed: seq<string>, count: int, total: int) {
    && i <= |sorted|
    && doomed + OtherIds(sorted[i..], id) == OtherIds(sorted, id)
    && (forall k :: i <= k < |sorted| ==> sorted[k].id !in Members(doomed))
    && count == CountLeft(sorted, Members(doomed) + {id}) + 1
    && total == SizeLeft(sorted, Members(doomed) + {id}) + size
    && forall k :: 0 <= k < |doomed| ==> !Fits(policy, sorted, id, size, Members(doomed[..k]))
  }

  lemma SkipSelf(policy: Policy, sorted: seq<Entry>, id: string, size: nat, i: nat, doomed: seq<string>, count: int, total: int)
    requires RoomSoFar(policy, sorted, id, size, i, doomed, count, total) && i < |sorted| && sorted[i].id == id
    ensures RoomSoFar(policy, sorted, id, size, i + 1, doomed, count, total)
  {
    assert sorted[i..][1..] == sorted[i + 1..];
  }

  lemma DoomedGrow(doomed: seq<string>, x: string)
    ensures Members(doomed + [x]) == Members(doomed) + {x}
  {
  }

  lemma DoomOneMore(policy: Policy, sorted: seq<Entry>, id: string, size: nat, i: nat, doomed: seq<string>, count: int, total: int)
    requires Distinct(sorted) && RoomSoFar(policy, sorted, id, size, i, doomed, count, total)
    requires i < |sorted| && sorted[i].id != id && !(count <= policy.maxEntries && total <= policy.maxBytes)
    ensures RoomSoFar(policy, sorted, id, size, i + 1, doomed + [sorted[i].id], count - 1, total - sorted[i].size)
  {
    var grown := doomed + [sorted[i].id];
    assert sorted[i..][1..] == sorted[i + 1..];
    assert grown + OtherIds(sorted[i + 1..], id) == OtherIds(sorted, id);
    DoomedGrow(doomed, sorted[i].id);
    assert Members(grown) + {id} == Members(doomed) + {id} + {sorted[i].id};
    DropOne(sorted, Members(doomed) + {id}, i);
    forall k | 0 <= k < |grown|
      ensures !Fits(policy, sorted, id, size, Members(grown[..k]))
    {
      assert grown[..k] == doomed[..k];
      assert doomed[..|doomed|] == doomed;
    }
  }

  /** The eviction loop: walk the records oldest first, keeping running totals. */
  method RoomFor(policy: Policy, entries: seq<Entry>, totalBytes: nat, id: string, size: nat) returns (doomed: seq<string>)
    requires policy.Ok() && Distinct(entries) && totalBytes == TotalSize(entries) && size <= policy.RecordLimit()
    ensures FairRoom(policy, entries, id, size, doomed)
  {
    var sorted := OldestFirst(entries);
    OldestFirstSorts(entries);
    var count: int, total: int := CountAndTotal(entries, totalBytes, id, size);
    doomed := [];
    RoomStarts(policy, entries, id, size, count, total);
    var i := 0;
    while i < |sorted| && !(count <= policy.maxEntries && total <= policy.maxBytes)
      invariant RoomSoFar(policy, sorted, id, size, i, doomed, count, total)
    {
      if sorted[i].id == id {
        SkipSelf(policy, sorted, id, size, i, doomed, count, total);
      } else {
        DoomOneMore(policy, sorted, id, size, i, doomed, count, total);
        count, total, doomed := count - 1, total - sorted[i].size, doomed + [sorted[i].id];
      }
      i := i + 1;
    }
    RoomIsFair(policy, entries, id, size, i, doomed);
  }

  lemma RoomStarts(policy: Policy, entries: seq<Entry>, id: string, size: nat, count: int, total: int)
    requires count == CountLeft(entries, {id}) + 1 && total == SizeLeft(entries, {id}) + size
    ensures RoomSoFar(policy, OldestFirst(entries), id, size, 0, [], count, total)
  {
    OldestFirstSums(entries, {id});
    assert Members([]) + {id} == {id};
    assert OldestFirst(entries)[0..] == OldestFirst(entries);
  }

  lemma RoomIsFair(policy: Policy, entries: seq<Entry>, id: string, size: nat, i: nat, doomed: seq<string>)
    requires policy.Ok() && Distinct(entries) && size <= policy.RecordLimit()
    requires i <= |OldestFirst(entries)|
    requires doomed + OtherIds(OldestFirst(entries)[i..], id) == OtherIds(OldestFirst(entries), id)
    requires i == |OldestFirst(entries)| || Fits(policy, OldestFirst(entries), id, size, Members(doomed))
    requires forall k :: 0 <= k < |doomed| ==> !Fits(policy, OldestFirst(entries), id, size, Members(doomed[..k]))
    ensures FairRoom(policy, entries, id, size, doomed)
  {
    var sorted := OldestFirst(entries);
    if i == |sorted| {
      assert doomed == OtherIds(sorted, id);
      forall e | e in sorted
        ensures e.id in Members(doomed) + {id}
      {
        OtherIdsAre(sorted, id, e.id);
      }
      AllGone(sorted, Members(doomed) + {id});
    }
    OldestFirstSums(entries, Members(doomed) + {id});
    forall k | 0 <= k < |doomed|
      ensures !Fits(policy, entries, id, size, Members(doomed[..k]))
    {
      OldestFirstSums(entries, Members(doomed[..k]) + {id});
    }
  }

  // ---------------------------------------------------------------------------
  // The store
  // ---------------------------------------------------------------------------

  predicate IsIdChar(c: char) {
    'A' <= c <= 'Z' || 'a' <= c <= 'z' || '0' <= c <= '9' || c == '_' || c == '-'
  }

  /** Letters, digits, `_` and `-`, by their code points. */
  predicate IsIdCode(n: int) {
    48 <= n <= 57 || 65 <= n <= 90 || 97 <= n <= 122 || n == 95 || n == 45
  }

  predicate IsValidMatchId(id: string) {
    1 <= |id| <= 64 && forall i :: 0 <= i < |id| ==> IsIdChar(id[i])
  }

  predicate PutAccepted(policy: Policy, id: string, body: Bytes, audience: string) {
    audience == PUBLIC_AUDIENCE && IsValidMatchId(id) && |body| <= policy.RecordLimit()
  }

  /** The records a call at `now` finds: future ones re-dated, expired ones gone. */
  function Live(entries: seq<Entry>, policy: Policy, now: real): seq<Entry> {
    var clamped := Clamped(entries, now);
    Without(clamped, Members(ExpiredIds(clamped, policy, now)))
  }

  lemma {:induction false} ExpiredIdsAre(entries: seq<Entry>, policy: Policy, now: real, x: string)
    ensures x in ExpiredIds(entries, policy, now) <==> exists e :: e in entries && e.id == x && policy.IsExpired(e.ended, now)
  {
    if entries != [] {
      ExpiredIdsAre(entries[1..], policy, now, x);
      if exists e :: e in entries && e.id == x && policy.IsExpired(e.ended, now) {
        var e :| e in entries && e.id == x && policy.IsExpired(e.ended, now);
        assert e == entries[0] || e in entries[1..];
      }
      if exists e :: e in entries[1..] && e.id == x && policy.IsExpired(e.ended, now) {
        var e :| e in entries[1..] && e.id == x && policy.IsExpired(e.ended, now);
        assert e in entries;
      }
    }
  }

  lemma DistinctFinds(entries: seq<Entry>, d: Entry, e: Entry)
    requires Distinct(entries) && d in entries && e in entries && d.id == e.id
    ensures d == e
  {
  }

  /** What a call keeps: no record older than the lifetime, none dated past the slack, and
      every record that was neither. */
  lemma LiveIsFresh(entries: seq<Entry>, policy: Policy, now: real, e: Entry)
    requires Distinct(entries) && policy.Ok()
    ensures e in Live(entries, policy, now) <==> e in Clamped(entries, now) && now - e.ended < policy.ttl
    ensures e in Live(entries, policy, now) ==> now - policy.ttl < e.ended <= now + FUTURE_SLACK_S
  {
    var clamped := Clamped(entries, now);
    assert Distinct(clamped);
    WithoutKeeps(clamped, Members(ExpiredIds(clamped, policy, now)));
    ExpiredIdsAre(clamped, policy, now, e.id);
    if e in clamped && e.id in ExpiredIds(clamped, policy, now) {
      var d :| d in clamped && d.id == e.id && policy.IsExpired(d.ended, now);
      DistinctFinds(clamped, d, e);
    }
  }

  /** A call finds the record with `e`'s id exactly when `e` has not expired. */
  lemma FoundDecides(entries: seq<Entry>, policy: Policy, now: real, e: Entry)
    requires Distinct(entries) && policy.Ok() && e in Clamped(entries, now)
    ensures (exists d :: d in Live(entries, policy, now) && d.id == e.id) <==> now - e.ended < policy.ttl
  {
    LiveIsFresh(entries, policy, now, e);
    if d :| d in Live(entries, policy, now) && d.id == e.id {
      LiveIsFresh(entries, policy, now, d);
      DistinctFinds(Clamped(entries, now), d, e);
    }
  }

  lemma AbsentDecides(entries: seq<Entry>, policy: Policy, now: real, id: string)
    requires Distinct(entries) && policy.Ok() && forall e :: e in Clamped(entries, now) ==> e.id != id
    ensures !exists d :: d in Live(entries, policy, now) && d.id == id
  {
    forall d | d in Live(entries, policy, now)
      ensures d.id != id
    {
      LiveIsFresh(entries, policy, now, d);
    }
  }

  lemma {:induction false} WithoutTwice(entries: seq<Entry>, gone: set<string>, more: set<string>)
    ensures Without(Without(entries, gone), more) == Without(entries, gone + more)
  {
    if entries != [] {
      var rest := Without(entries[1..], gone);
      WithoutTwice(entries[1..], gone, more);
      assert ([entries[0]] + rest)[1..] == rest;
    }
  }

  lemma {:induction false} WithoutNone(entries: seq<Entry>, gone: set<string>)
    requires forall e :: e in entries ==> e.id !in gone
    ensures Without(entries, gone) == entries
  {
    if entries != [] {
      assert entries[0] in entries;
      WithoutNone(entries[1..], gone);
    }
  }

  lemma {:induction false} ClampedSize(entries: seq<Entry>, now: real)
    ensures TotalSize(Clamped(entries, now)) == TotalSize(entries)
  {
    if entries != [] {
      ClampedSize(entries[1..], now);
      assert Clamped(entries, now)[1..] == Clamped(entries[1..], now);
    }
  }

  lemma {:induction false} TotalSizeAppend(entries: seq<Entry>, e: Entry)
    ensures TotalSize(entries + [e]) == TotalSize(entries) + e.size
  {
    if entries != [] {
      TotalSizeAppend(entries[1..], e);
      assert (entries + [e])[1..] == entries[1..] + [e];
    } else {
      assert ([] + [e])[1..] == [];
    }
  }

  /** Index and bodies agree: the same ids, every size right, the total their sum. */
  ghost predicate Consistent(entries: seq<Entry>, totalBytes: int, bodies: map<string, Bytes>) {
    && Distinct(entries)
    && totalBytes == TotalSize(entries)
    && (forall e :: e in entries ==> e.id in bodies && |bodies[e.id]| == e.size)
    && (forall id :: id in bodies ==> exists e :: e in entries && e.id == id)
  }

  lemma ConsistentWithout(entries: seq<Entry>, totalBytes: int, bodies: map<string, Bytes>, gone: set<string>)
    requires Consistent(entries, totalBytes, bodies)
    ensures Consistent(Without(entries, gone), SizeLeft(entries, gone), bodies - gone)
    ensures |Without(entries, gone)| <= |entries| && SizeLeft(entries, gone) <= totalBytes
  {
    WithoutKeeps(entries, gone);
    WithoutKeepsDistinct(entries, gone);
    LeftShrinks(entries, gone);
  }

  lemma {:induction false} LeftShrinks(entries: seq<Entry>, gone: set<string>)
    ensures CountLeft(entries, gone) <= |entries| && SizeLeft(entries, gone) <= TotalSize(entries)
  {
    if entries != [] {
      LeftShrinks(entries[1..], gone);
    }
  }

  lemma ClampedKeepsIds(entries: seq<Entry>, now: real)
    ensures forall e :: e in Clamped(entries, now) ==> exists d :: d in entries && d.id == e.id && d.size == e.size
    ensures forall d :: d in entries ==> exists e :: e in Clamped(entries, now) && e.id == d.id
  {
    var clamped := Clamped(entries, now);
    forall e | e in clamped
      ensures exists d :: d in entries && d.id == e.id && d.size == e.size
    {
      var i :| 0 <= i < |clamped| && clamped[i] == e;
      assert entries[i] in entries;
    }
    forall d | d in entries
      ensures exists e :: e in clamped && e.id == d.id
    {
      var i :| 0 <= i < |entries| && entries[i] == d;
      assert clamped[i] in clamped;
    }
  }

  lemma ConsistentClamped(entries: seq<Entry>, totalBytes: int, bodies: map<string, Bytes>, now: real)
    requires Consistent(entries, totalBytes, bodies)
    ensures Consistent(Clamped(entries, now), totalBytes, bodies)
  {
    ClampedSize(entries, now);
    ClampedKeepsIds(entries, now);
  }

  lemma ConsistentAdd(entries: seq<Entry>, totalBytes: int, bodies: map<string, Bytes>, id: string, ended: real, body: Bytes)
    requires Consistent(entries, totalBytes, bodies) && id !in bodies
    ensures Consistent(entries + [Entry(id, ended, |body|)], totalBytes + |body|, bodies[id := body])
  {
    var e := Entry(id, ended, |body|);
    TotalSizeAppend(entries, e);
    assert forall x :: x in entries ==> x in entries + [e];
    assert e in entries + [e];
  }

  /** The running total is the sum over distinct records. */
  ghost predicate Tallied(entries: seq<Entry>, totalBytes: int) {
    Distinct(entries) && totalBytes == TotalSize(entries)
  }

  lemma TallyWithout(entries: seq<Entry>, gone: set<string>)
    requires Distinct(entries)
    ensures Tallied(Without(entries, gone), SizeLeft(entries, gone))
  {
    WithoutKeeps(entries, gone);
    WithoutKeepsDistinct(entries, gone);
  }

  lemma SizeWithoutOne(entries: seq<Entry>, i: nat)
    requires Distinct(entries) && i < |entries|
    ensures SizeLeft(entries, {entries[i].id}) == TotalSize(entries) - entries[i].size
  {
    NothingGone(entries, {});
    DropOne(entries, {}, i);
    assert {} + {entries[i].id} == {entries[i].id};
  }

  lemma MinusTwice(bodies: map<string, Bytes>, gone: set<string>, more: set<string>)
    ensures bodies - gone - more == bodies - (gone + more)
  {
  }

  lemma MinusNothing(bodies: map<string, Bytes>, id: string)
    requires id !in bodies
    ensures bodies - {id} == bodies
  {
  }

  lemma PrefixMembers(ids: seq<string>, i: nat)
    requires i < |ids|
    ensures Members(ids[..i + 1]) == Members(ids[..i]) + {ids[i]}
  {
    assert ids[..i + 1] == ids[..i] + [ids[i]];
  }

  /** Adding a record that fits, once its room is made, keeps index, bodies and caps. */
  lemma AddingKeeps(policy: Policy, entries: seq<Entry>, totalBytes: int, bodies: map<string, Bytes>,
                    gone: set<string>, id: string, ended: real, body: Bytes)
    requires Consistent(entries, totalBytes, bodies) && Fits(policy, entries, id, |body|, gone)
    ensures
      var kept := Without(entries, gone + {id});
      var e := Entry(id, ended, |body|);
      && Consistent(kept + [e], TotalSize(kept) + |body|, (bodies - (gone + {id}))[id := body])
      && |kept + [e]| <= policy.maxEntries && TotalSize(kept) + |body| <= policy.maxBytes
  {
    WithoutKeeps(entries, gone + {id});
    ConsistentWithout(entries, totalBytes, bodies, gone + {id});
    ConsistentAdd(Without(entries, gone + {id}), SizeLeft(entries, gone + {id}), bodies - (gone + {id}), id, ended, body);
  }

  /** The re-dating loop. */
  method ClampEntries(entries: seq<Entry>, now: real) returns (r: seq<Entry>)
    ensures r == Clamped(entries, now)
  {
    r := entries;
    for i := 0 to |entries|
      invariant |r| == |entries|
      invariant forall j :: 0 <= j < i ==> r[j] == Clamped(entries, now)[j]
      invariant forall j :: i <= j < |entries| ==> r[j] == entries[j]
    {
      if r[i].ended - now > FUTURE_SLACK_S {
        r := r[i := r[i].(ended := now)];
      }
    }
  }

  class MemoryTranscriptStore {
    const policy: Policy
    var entries: seq<Entry>
    var totalBytes: int
    var bodies: map<string, Bytes>
    var closed: bool

    ghost predicate Valid()
      reads this
    {
      && policy.Ok()
      && Consistent(entries, totalBytes, bodies)
      && |entries| <= policy.maxEntries && totalBytes <= policy.maxBytes
      && (closed ==> entries == [])
    }

    constructor (policy: Policy)
      requires policy.Ok()
      ensures Valid() && this.policy == policy && entries == [] && !closed
    {
      this.policy := policy;
      entries, totalBytes, bodies, closed := [], 0, map[], false;
    }

    /** Re-dates future records in place. */
    method ClampFuture(now: real)
      requires Valid()
      modifies this`entries
      ensures Valid() && entries == Clamped(old(entries), now)
    {
      ConsistentClamped(entries, totalBytes, bodies, now);
      entries := ClampEntries(entries, now);
    }

    /** Forgets one record, if it is there. */
    method Discard(id: string)
      requires Tallied(entries, totalBytes)
      modifies this`entries, this`totalBytes, this`bodies
      ensures entries == Without(old(entries), {id}) && bodies == old(bodies) - {id}
      ensures Tallied(entries, totalBytes)
    {
      TallyWithout(entries, {id});
      if i :| 0 <= i < |entries| && entries[i].id == id {
        SizeWithoutOne(entries, i);
        totalBytes := totalBytes - entries[i].size;
      } else {
        NothingGone(entries, {id});
      }
      entries := Without(entries, {id});
      bodies := bodies - {id};
    }

    /** Forgets every record named. */
    method Drop(ids: seq<string>)
      requires Tallied(entries, totalBytes)
      modifies this`entries, this`totalBytes, this`bodies
      ensures entries == Without(old(entries), Members(ids)) && bodies == old(bodies) - Members(ids)
      ensures Tallied(entries, totalBytes)
    {
      WithoutNone(entries, Members(ids[..0]));
      for i := 0 to |ids|
        invariant entries == Without(old(entries), Members(ids[..i]))
        invariant bodies == old(bodies) - Members(ids[..i])
        invariant Tallied(entries, totalBytes)
      {
        ghost var before := Members(ids[..i]);
        Discard(ids[i]);
        WithoutTwice(old(entries), before, {ids[i]});
        MinusTwice(old(bodies), before, {ids[i]});
        PrefixMembers(ids, i);
      }
      assert ids[..|ids|] == ids;
    }

    /** Forgets the records that have expired. */
    method DropExpired(now: real) returns (removed: nat)
      requires Valid()
      modifies this`entries, this`totalBytes, this`bodies
      ensures Valid() && removed == |ExpiredIds(old(entries), policy, now)|
      ensures entries == Without(old(entries), Members(ExpiredIds(old(entries), policy, now)))
      ensures bodies == old(bodies) - Members(ExpiredIds(old(entries), policy, now))
    {
      var doomed := ExpiredIds(entries, policy, now);
      ConsistentWithout(entries, totalBytes, bodies, Members(doomed));
      WithoutKeeps(entries, Members(doomed));
      Drop(doomed);
      removed := |doomed|;
    }

    /** Makes room for a record and adds it, in place of its id's earlier one. */
    method AddRecord(id: string, body: Bytes, now: real) returns (ghost doomed: seq<string>)
      requires Valid() && !closed && |body| <= policy.RecordLimit()
      modifies this`entries, this`totalBytes, this`bodies
      ensures Valid()
      ensures FairRoom(policy, old(entries), id, |body|, doomed)
      ensures entries == Without(old(entries), Members(doomed) + {id}) + [Entry(id, now, |body|)]
      ensures bodies == (old(bodies) - (Members(doomed) + {id}))[id := body]
    {
      ghost var before, total, texts := entries, totalBytes, bodies;
      var room := RoomFor(policy, entries, totalBytes, id, |body|);
      doomed := room;
      Drop(room);
      Discard(id);
      WithoutTwice(before, Members(room), {id});
      MinusTwice(texts, Members(room), {id});
      AddingKeeps(policy, before, total, texts, Members(room), id, now, body);
      entries := entries + [Entry(id, now, |body|)];
      totalBytes := totalBytes + |body|;
      bodies := bodies[id := body];
    }

    /** Stores a public transcript. Refused calls change nothing. Otherwise future records are
        re-dated, expired ones dropped, room made fairly, and the new record put last. */
    method Put(id: string, body: Bytes, audience: string, now: real) returns (r: Result<Stored, StoreError>, ghost doomed: seq<string>)
      requires Valid()
      modifies this`entries, this`totalBytes, this`bodies
      ensures Valid()
      ensures r == Err(TranscriptRejected) <==>
        !(audience == "public" && 1 <= |id| <= 64 && (forall i :: 0 <= i < |id| ==> IsIdCode(id[i] as int)) &&
          |body| <= policy.maxRecordBytes && |body| <= policy.maxBytes)
      ensures r == Err(TranscriptRejected) || r == if closed then Err(StoreClosed) else Ok(Stored(id, now, body))
      ensures r.Err? ==> entries == old(entries) && bodies == old(bodies)
      ensures r.Ok? ==>
        var live := Live(old(entries), policy, now);
        && FairRoom(policy, live, id, |body|, doomed)
        && entries == Without(live, Members(doomed) + {id}) + [Entry(id, now, |body|)]
      ensures r.Ok? ==>
        var expired := Members(ExpiredIds(Clamped(old(entries), now), policy, now));
        bodies == (old(bodies) - expired - (Members(doomed) + {id}))[id := body]
    {
      doomed := [];
      if !PutAccepted(policy, id, body, audience) {
        r := Err(TranscriptRejected);
        return;
      }
      if closed {
        r := Err(StoreClosed);
        return;
      }
      ClampFuture(now);
      var _ := DropExpired(now);
      doomed := AddRecord(id, body, now);
      r := Ok(Stored(id, now, body));
    }

    /** The record, if it is there and has not expired; one found expired is dropped. */
    method Get(id: string, now: real) returns (r: Option<Stored>)
      requires Valid()
      modifies this`entries, this`totalBytes, this`bodies
      ensures Valid()
      ensures r.Some? ==> r.value.id == id && now - r.value.ended < policy.ttl
                          && id in old(bodies) && r.value.body == old(bodies)[id]
      ensures r.Some? <==> IsValidMatchId(id) && exists e :: e in Live(old(entries), policy, now) && e.id == id
      ensures entries == if !IsValidMatchId(id) then old(entries)
                         else if r.Some? then Clamped(old(entries), now)
                         else Without(Clamped(old(entries), now), {id})
      ensures bodies == if IsValidMatchId(id) && r.None? then old(bodies) - {id} else old(bodies)
    {
      if !IsValidMatchId(id) {
        return None;
      }
      ClampFuture(now);
      var i := Find(id);
      if i < |entries| && !policy.IsExpired(entries[i].ended, now) {
        FoundDecides(old(entries), policy, now, entries[i]);
        return Some(Stored(id, entries[i].ended, bodies[id]));
      }
      if i < |entries| {
        FoundDecides(old(entries), policy, now, entries[i]);
        Forget(id);
      } else {
        AbsentDecides(old(entries), policy, now, id);
        WithoutNone(entries, {id});
        MinusNothing(bodies, id);
      }
      return None;
    }

    /** The place of the entry with this id, or the end. */
    method Find(id: string) returns (i: nat)
      requires Valid()
      ensures i <= |entries|
      ensures i < |entries| ==> entries[i].id == id && id in bodies && entries[i] in entries
      ensures i == |entries| ==> id !in bodies && forall e :: e in entries ==> e.id != id
    {
      i := 0;
      while i < |entries| && entries[i].id != id
        invariant i <= |entries| && forall k :: 0 <= k < i ==> entries[k].id != id
      {
        i := i + 1;
      }
      assert i < |entries| ==> entries[i] in entries;
    }

    /** Forgets one record that has expired. */
    method Forget(id: string)
      requires Valid()
      modifies this`entries, this`totalBytes, this`bodies
      ensures Valid() && entries == Without(old(entries), {id}) && bodies == old(bodies) - {id}
    {
      ConsistentWithout(entries, totalBytes, bodies, {id});
      WithoutKeeps(entries, {id});
      assert Members([id]) == {id};
      Drop([id]);
    }

    method Sweep(now: real) returns (removed: nat)
      requires Valid()
      modifies this`entries, this`totalBytes, this`bodies
      ensures Valid() && entries == Live(old(entries), policy, now)
      ensures removed == |ExpiredIds(Clamped(old(entries), now), policy, now)|
    {
      ClampFuture(now);
      removed := DropExpired(now);
    }

    method Close()
      requires Valid()
      modifies this`entries, this`totalBytes, this`bodies, this`closed
      ensures Valid() && closed && entries == [] && bodies == map[]
    {
      closed, entries, totalBytes, bodies := true, [], 0, map[];
    }
  }
}
