/** What one batch claim takes, what it leaves, and how batches drain the due events. */
module BatchClaims {
  import opened Records
  import opened Ordering
  import opened Claims
  import opened Coupling

  predicate Late(row: Event, now: int, grace: int) {
    row.scheduledFor < now - grace
  }

  /** The entry of an event a batch took. */
  function TakenEntry(x: Entry, now: int, grace: int): Entry {
    if Late(x.row, now, grace) then MissedEntry(x, now) else ClaimedEntry(x, now)
  }

  predicate Known(s: Store, ids: seq<int>) {
    forall k :: 0 <= k < |ids| ==> ids[k] in s.events
  }

  /** The events a batch takes are pending, and it takes each of them once. */
  ghost predicate Takeable(s: Store, ids: seq<int>) {
    && Distinct(ids)
    && Known(s, ids)
    && forall k :: 0 <= k < |ids| ==> s.events[ids[k]].row.status == Scheduled
  }

  /** The claim a batch hands out for an event that was pending in `s`. */
  function FreshClaim(s: Store, id: int, now: int): Claim
    requires id in s.events
  {
    var x := s.events[id];
    Claim(id, |x.attempts|, |x.attempts| + 1, Moved(x.row, Processing, now), NumberOf(s, x.row.phone))
  }

  function FreshClaims(s: Store, ids: seq<int>, now: int): seq<Claim>
    requires Known(s, ids)
  {
    seq(|ids|, i requires 0 <= i < |ids| => FreshClaim(s, ids[i], now))
  }

  /** The ids that are late, or those that are not, in the order of `ids`. */
  function Sifted(s: Store, ids: seq<int>, now: int, grace: int, late: bool): (r: seq<int>)
    requires Known(s, ids)
    ensures forall i :: 0 <= i < |r| ==> r[i] in ids && r[i] in s.events
  {
    if ids == [] then []
    else
      var n := |ids| - 1;
      Sifted(s, ids[..n], now, grace, late)
      + (if Late(s.events[ids[n]].row, now, grace) == late then [ids[n]] else [])
  }

  lemma {:induction false} SiftedSplits(s: Store, ids: seq<int>, now: int, grace: int)
    requires Known(s, ids) && Distinct(ids)
    ensures |Sifted(s, ids, now, grace, true)| + |Sifted(s, ids, now, grace, false)| == |ids|
    ensures Distinct(Sifted(s, ids, now, grace, true)) && Distinct(Sifted(s, ids, now, grace, false))
    ensures forall late, i :: 0 <= i < |Sifted(s, ids, now, grace, late)| ==>
              Late(s.events[Sifted(s, ids, now, grace, late)[i]].row, now, grace) == late
  {
    if ids == [] {
    } else {
      var n := |ids| - 1;
      SiftedSplits(s, ids[..n], now, grace);
      assert ids[n] !in ids[..n];
    }
  }

  /** Every id is sifted to its side, and each side keeps the order. */
  lemma {:induction false} SiftedKeepsAll(s: Store, ids: seq<int>, now: int, grace: int, late: bool)
    requires Known(s, ids)
    requires forall i, j :: 0 <= i < j < |ids| ==> Older(s.events, ids[i], ids[j])
    ensures var r := Sifted(s, ids, now, grace, late);
            && (forall e :: e in ids && e in s.events && Late(s.events[e].row, now, grace) == late ==> e in r)
            && (forall i, j :: 0 <= i < j < |r| ==> Older(s.events, r[i], r[j]))
  {
    if ids == [] {
    } else {
      var n := |ids| - 1;
      var before := Sifted(s, ids[..n], now, grace, late);
      SiftedKeepsAll(s, ids[..n], now, grace, late);
      assert ids == ids[..n] + [ids[n]];
      forall i | 0 <= i < |before| ensures Older(s.events, before[i], ids[n]) {
        assert before[i] in ids[..n];
      }
    }
  }

  lemma NextTakes(b: Batch, id: int, now: int, grace: int)
    requires id in b.store.events
    ensures ClaimNext(b, id, now, grace).store == WithEntry(b.store, id, TakenEntry(b.store.events[id], now, grace))
  {
  }

  /** The loop changes the rows it was given and no other, independently of their order. */
  lemma {:induction false} EachEntry(s: Store, ids: seq<int>, now: int, grace: int)
    requires Takeable(s, ids)
    ensures var t := ClaimEach(s, ids, now, grace).store;
            && t.events.Keys == s.events.Keys && t.phones == s.phones && t.sms == s.sms
            && forall e :: e in s.events ==>
                 t.events[e] == if e in ids then TakenEntry(s.events[e], now, grace) else s.events[e]
  {
    if ids == [] {
    } else {
      var n, last := |ids| - 1, ids[|ids| - 1];
      assert ids == ids[..n] + [last];
      assert last in s.events && last !in ids[..n];
      EachEntry(s, ids[..n], now, grace);
      NextTakes(ClaimEach(s, ids[..n], now, grace), last, now, grace);
    }
  }

  /** One turn of the loop, on a row that the turns before it left alone. */
  lemma NextSplits(s: Store, b: Batch, id: int, now: int, grace: int)
    requires id in s.events && id in b.store.events && b.store.events[id] == s.events[id] && b.store.phones == s.phones
    ensures var r := ClaimNext(b, id, now, grace);
            if Late(s.events[id].row, now, grace) then r.missed == b.missed + [id] && r.deliveries == b.deliveries
            else r.missed == b.missed && r.deliveries == b.deliveries + [FreshClaim(s, id, now)]
  {
  }

  /** `deliveries` and `missed` split the rows by the grace cutoff, each in query order, and
      every delivery is a claim on the row as it was in `s`. */
  lemma {:induction false} EachSplits(s: Store, ids: seq<int>, now: int, grace: int)
    requires Takeable(s, ids)
    ensures var b := ClaimEach(s, ids, now, grace);
            && b.missed == Sifted(s, ids, now, grace, true)
            && b.deliveries == FreshClaims(s, Sifted(s, ids, now, grace, false), now)
  {
    if ids == [] {
    } else {
      var n, last := |ids| - 1, ids[|ids| - 1];
      assert last in s.events && last !in ids[..n];
      EachSplits(s, ids[..n], now, grace);
      EachEntry(s, ids[..n], now, grace);
      var before := ClaimEach(s, ids[..n], now, grace);
      NextSplits(s, before, last, now, grace);
    }
  }

  // ----- the events a batch may take

  /** The event is pending, its time has come, and it is a demo or real ones are let through. */
  ghost predicate Eligible(s: Store, e: int, now: int, includeReal: bool) {
    && e in s.events && s.events[e].row.status == Scheduled
    && s.events[e].row.scheduledFor <= now
    && (includeReal || s.events[e].row.isDemo)
  }

  ghost function EligibleIds(s: Store, now: int, includeReal: bool): set<int> {
    set e | e in s.events && Eligible(s, e, now, includeReal)
  }

  lemma DueIsEligible(s: Store, now: int, includeReal: bool)
    ensures DueIds(s, now, includeReal) == EligibleIds(s, now, includeReal)
  {
  }

  /** A batch and a tick may take exactly the pending events that a queued message would take out
      of `scheduled` at that time. */
  lemma EligibleExactlyWhenTaken(s: Store, e: int, now: int, grace: nat, includeReal: bool)
    requires e in s.events && s.events[e].row.status == Scheduled
    ensures var t := ClaimQueued(s, e, now, grace, includeReal).value.store;
            && e in t.events
            && (e in DueIds(s, now, includeReal) <==> t.events[e].row.status != Scheduled)
            && (e in DueIds(s, now, includeReal) <==> Eligible(s, e, now, includeReal))
  {
  }

  lemma SelectedIsTakeable(s: Store, locked: set<int>, now: int, size: nat, includeReal: bool)
    ensures var ids := OldestDue(s, locked, now, size, includeReal);
            Takeable(s, ids)
            && forall k :: 0 <= k < |ids| ==> ids[k] in DueIds(s, now, includeReal) && ids[k] !in locked
  {
    OldestFirstIsPrefix(s.events, DueIds(s, now, includeReal) - locked, size);
  }

  /** With no row locked the selection is an oldest-first prefix of all due events. */
  lemma UnlockedSelection(s: Store, now: int, size: nat, includeReal: bool)
    ensures var due := EligibleIds(s, now, includeReal);
            var ids := OldestDue(s, {}, now, size, includeReal);
            && Distinct(ids) && Elements(ids) <= due
            && |ids| == (if |due| <= size then |due| else size)
            && (forall i, j :: 0 <= i < j < |ids| ==>
                  ids[i] in s.events && ids[j] in s.events && Older(s.events, ids[i], ids[j]))
            && (forall x, y :: x in ids && y in due && y !in ids ==> x in s.events && Older(s.events, x, y))
  {
    var due := DueIds(s, now, includeReal);
    DueIsEligible(s, now, includeReal);
    assert due - {} == due;
    OldestFirstIsPrefix(s.events, due, size);
  }

  /** The selection of a batch, and how the loop splits it. */
  lemma BatchSelects(s: Store, locked: set<int>, now: int, size: int, grace: nat, includeReal: bool)
    requires 1 <= size <= MAX_BATCH_SIZE
    ensures var b := ClaimBatch(s, locked, now, size, grace, includeReal).value;
            var ids := OldestDue(s, locked, now, size, includeReal);
            var open := DueIds(s, now, includeReal) - locked;
            && Distinct(ids) && Elements(ids) <= open
            && |ids| == (if |open| <= size then |open| else size)
            && (forall i, j :: 0 <= i < j < |ids| ==>
                  ids[i] in s.events && ids[j] in s.events && Older(s.events, ids[i], ids[j]))
            && (forall x, y :: x in ids && y in open && y !in ids ==> x in s.events && Older(s.events, x, y))
            && |b.deliveries| + |b.missed| == |ids|
            && b.missed == Sifted(s, ids, now, grace, true)
            && b.deliveries == FreshClaims(s, Sifted(s, ids, now, grace, false), now)
  {
    var ids := OldestDue(s, locked, now, size, includeReal);
    OldestFirstIsPrefix(s.events, DueIds(s, now, includeReal) - locked, size);
    SelectedIsTakeable(s, locked, now, size, includeReal);
    EachSplits(s, ids, now, grace);
    SiftedSplits(s, ids, now, grace);
  }

  /** The events a batch took: those it delivers and those it missed. */
  ghost function TakenBy(b: Batch): set<int> {
    (set c | c in b.deliveries :: c.event) + Elements(b.missed)
  }

  /** One after the other, oldest first. */
  ghost predicate InQueryOrder(s: Store, ids: seq<int>) {
    forall i, j :: 0 <= i < j < |ids| ==> ids[i] in s.events && ids[j] in s.events && Older(s.events, ids[i], ids[j])
  }

  ghost function EventsOf(claims: seq<Claim>): seq<int> {
    seq(|claims|, i requires 0 <= i < |claims| => claims[i].event)
  }

  lemma TakenIsSelected(s: Store, ids: seq<int>, b: Batch, now: int, grace: int)
    requires Known(s, ids) && InQueryOrder(s, ids)
    requires b.missed == Sifted(s, ids, now, grace, true)
    requires b.deliveries == FreshClaims(s, Sifted(s, ids, now, grace, false), now)
    ensures TakenBy(b) == Elements(ids)
    ensures InQueryOrder(s, EventsOf(b.deliveries)) && InQueryOrder(s, b.missed)
  {
    var onTime := Sifted(s, ids, now, grace, false);
    SiftedKeepsAll(s, ids, now, grace, true);
    SiftedKeepsAll(s, ids, now, grace, false);
    assert EventsOf(b.deliveries) == onTime;
    forall e ensures e in TakenBy(b) <==> e in Elements(ids) {
      if e in onTime {
        var i :| 0 <= i < |onTime| && onTime[i] == e;
        assert b.deliveries[i] in b.deliveries;
      }
    }
  }

  /** What a batch takes is an oldest-first prefix of the eligible events whose rows are not locked:
      as many as fit, and none left behind that is older. The late ones among them are missed, the
      others are delivered, each of both in query order. */
  lemma BatchTakesOldest(s: Store, locked: set<int>, now: int, size: int, grace: nat, includeReal: bool)
    requires 1 <= size <= MAX_BATCH_SIZE
    ensures var b := ClaimBatch(s, locked, now, size, grace, includeReal).value;
            var open := EligibleIds(s, now, includeReal) - locked;
            var taken := TakenBy(b);
            && taken <= open && |taken| == (if |open| <= size then |open| else size)
            && |b.deliveries| + |b.missed| == |taken|
            && (forall x, y :: x in taken && y in open && y !in taken ==> Older(s.events, x, y))
            && InQueryOrder(s, EventsOf(b.deliveries)) && InQueryOrder(s, b.missed)
            && (forall e :: e in taken ==> (e in b.missed <==> s.events[e].row.scheduledFor < now - grace))
  {
    var ids := OldestDue(s, locked, now, size, includeReal);
    DueIsEligible(s, now, includeReal);
    BatchSelects(s, locked, now, size, grace, includeReal);
    var b := ClaimBatch(s, locked, now, size, grace, includeReal).value;
    TakenIsSelected(s, ids, b, now, grace);
    SiftedKeepsAll(s, ids, now, grace, true);
    SiftedSplits(s, ids, now, grace);
    ElementsSize(ids);
  }

  lemma TakenIsOut(x: Entry, now: int, grace: int)
    ensures TakenEntry(x, now, grace).row.status != Scheduled
  {
  }

  /** Afterwards none of the taken events is due, and every other one is due as before. */
  lemma BatchLeaves(s: Store, locked: set<int>, now: int, size: int, grace: nat, includeReal: bool)
    requires 1 <= size <= MAX_BATCH_SIZE
    ensures var b := ClaimBatch(s, locked, now, size, grace, includeReal).value;
            EligibleIds(b.store, now, includeReal) == EligibleIds(s, now, includeReal) - TakenBy(b)
  {
    SelectedLeaves(s, locked, now, size, grace, includeReal);
    BatchSelects(s, locked, now, size, grace, includeReal);
    var b := ClaimBatch(s, locked, now, size, grace, includeReal).value;
    TakenIsSelected(s, OldestDue(s, locked, now, size, includeReal), b, now, grace);
    DueIsEligible(s, now, includeReal);
    DueIsEligible(b.store, now, includeReal);
  }

  lemma SelectedLeaves(s: Store, locked: set<int>, now: int, size: int, grace: nat, includeReal: bool)
    requires 1 <= size <= MAX_BATCH_SIZE
    ensures var t := ClaimBatch(s, locked, now, size, grace, includeReal).value.store;
            DueIds(t, now, includeReal)
            == DueIds(s, now, includeReal) - Elements(OldestDue(s, locked, now, size, includeReal))
  {
    var ids := OldestDue(s, locked, now, size, includeReal);
    SelectedIsTakeable(s, locked, now, size, includeReal);
    EachEntry(s, ids, now, grace);
    var t := ClaimEach(s, ids, now, grace).store;
    forall e ensures e in DueIds(t, now, includeReal) <==> e in DueIds(s, now, includeReal) && e !in ids {
      if e in s.events && e in ids {
        TakenIsOut(s.events[e], now, grace);
      }
    }
  }

  /** A batch keeps the coupling: an event it takes is claimed or missed, no other changes. */
  lemma BatchKeeps(s: Store, locked: set<int>, now: int, size: int, grace: int, includeReal: bool)
    requires StoreOk(s) && ClaimBatch(s, locked, now, size, grace, includeReal).Ok?
    ensures var t := ClaimBatch(s, locked, now, size, grace, includeReal).value.store;
            && StoreOk(t)
            && t.events.Keys == s.events.Keys && t.phones == s.phones && t.sms == s.sms
            && forall e :: e in s.events ==>
                 || t.events[e] == s.events[e]
                 || (s.events[e].row.status == Scheduled
                     && (ClaimStep(s.events[e], t.events[e]) || MissStep(s.events[e], t.events[e])))
  {
    var ids := OldestDue(s, locked, now, size, includeReal);
    SelectedIsTakeable(s, locked, now, size, includeReal);
    EachEntry(s, ids, now, grace);
    forall e | e in s.events && e in ids
      ensures ClaimStep(s.events[e], ClaimedEntry(s.events[e], now))
              && MissStep(s.events[e], MissedEntry(s.events[e], now))
    {
      ClaimedEntryIsClaim(s.events[e], now);
    }
  }

  /** A claim of a batch holds an event that was pending and due. */
  ghost predicate HeldByBatch(s: Store, t: Store, c: Claim, now: int, includeReal: bool) {
    && c.event in s.events && s.events[c.event].row.status == Scheduled
    && c.event in DueIds(s, now, includeReal)
    && c.event in t.events && Holds(t.events[c.event], c)
    && (s.events[c.event].row.phone in s.phones ==> c.to == s.phones[s.events[c.event].row.phone].number)
  }

  lemma FreshClaimHolds(s: Store, t: Store, id: int, now: int, includeReal: bool)
    requires StoreOk(s) && id in DueIds(s, now, includeReal)
    requires id in t.events && t.events[id] == ClaimedEntry(s.events[id], now)
    ensures HeldByBatch(s, t, FreshClaim(s, id, now), now, includeReal)
  {
    ClaimedEntryIsClaim(s.events[id], now);
  }

  /** Every delivery of a batch holds an event that was pending, and no two hold the same. */
  lemma BatchHolds(s: Store, locked: set<int>, now: int, size: int, grace: int, includeReal: bool)
    requires StoreOk(s) && ClaimBatch(s, locked, now, size, grace, includeReal).Ok?
    ensures var b := ClaimBatch(s, locked, now, size, grace, includeReal).value;
            && (forall i :: 0 <= i < |b.deliveries| ==> HeldByBatch(s, b.store, b.deliveries[i], now, includeReal))
            && (forall i, j :: 0 <= i < j < |b.deliveries| ==> b.deliveries[i].event != b.deliveries[j].event)
  {
    var ids := OldestDue(s, locked, now, size, includeReal);
    SelectedIsTakeable(s, locked, now, size, includeReal);
    EachEntry(s, ids, now, grace);
    EachSplits(s, ids, now, grace);
    SiftedSplits(s, ids, now, grace);
    var b := ClaimEach(s, ids, now, grace);
    var onTime := Sifted(s, ids, now, grace, false);
    forall i | 0 <= i < |b.deliveries| ensures HeldByBatch(s, b.store, b.deliveries[i], now, includeReal) {
      var id := onTime[i];
      assert id in ids && !Late(s.events[id].row, now, grace);
      FreshClaimHolds(s, b.store, id, now, includeReal);
    }
  }

  // ----- draining

  /** One uncontended batch. */
  function NextBatch(s: Store, now: int, size: int, grace: nat, includeReal: bool): Store
    requires 1 <= size <= MAX_BATCH_SIZE
  {
    ClaimBatch(s, {}, now, size, grace, includeReal).value.store
  }

  /** A step applied `n` times. */
  function Iterate(step: Store -> Store, n: nat, s: Store): Store {
    if n == 0 then s else step(Iterate(step, n - 1, s))
  }

  function Batcher(now: int, size: int, grace: nat, includeReal: bool): Store -> Store
    requires 1 <= size <= MAX_BATCH_SIZE
  {
    s => NextBatch(s, now, size, grace, includeReal)
  }

  function Counter(now: int, includeReal: bool): Store -> nat {
    s => |DueIds(s, now, includeReal)|
  }

  /** `calls` uncontended batches, one after the other. */
  function Drained(s: Store, calls: nat, now: int, size: int, grace: nat, includeReal: bool): Store
    requires 1 <= size <= MAX_BATCH_SIZE
  {
    Iterate(Batcher(now, size, grace, includeReal), calls, s)
  }

  lemma NextBatchCount(s: Store, now: int, size: int, grace: nat, includeReal: bool)
    requires 1 <= size <= MAX_BATCH_SIZE
    ensures var n := |DueIds(s, now, includeReal)|;
            |DueIds(NextBatch(s, now, size, grace, includeReal), now, includeReal)| == if n <= size then 0 else n - size
  {
    var due := DueIds(s, now, includeReal);
    var ids := OldestDue(s, {}, now, size, includeReal);
    assert due - {} == due;
    BatchSelects(s, {}, now, size, grace, includeReal);
    SelectedLeaves(s, {}, now, size, grace, includeReal);
    ElementsSize(ids);
    assert |due - Elements(ids)| == |due| - |Elements(ids)|;
  }

  function Less(n: nat, size: nat): nat {
    if n <= size then 0 else n - size
  }

  /** Every call takes a full batch while there is one. */
  lemma {:induction false} IterateCount(step: Store -> Store, count: Store -> nat, size: nat, calls: nat, s: Store)
    requires forall t :: count(step(t)) == Less(count(t), size)
    ensures count(Iterate(step, calls, s)) == Less(count(s), calls * size)
  {
    if calls == 0 {
    } else {
      IterateCount(step, count, size, calls - 1, s);
      assert calls * size == (calls - 1) * size + size;
    }
  }

  lemma DrainCount(s: Store, calls: nat, now: int, size: int, grace: nat, includeReal: bool)
    requires 1 <= size <= MAX_BATCH_SIZE
    ensures |DueIds(Drained(s, calls, now, size, grace, includeReal), now, includeReal)|
            == Less(|DueIds(s, now, includeReal)|, calls * size)
  {
    var step, count := Batcher(now, size, grace, includeReal), Counter(now, includeReal);
    forall t ensures count(step(t)) == Less(count(t), size) {
      NextBatchCount(t, now, size, grace, includeReal);
    }
    IterateCount(step, count, size, calls, s);
  }

  /** n eligible events take n / size uncontended batches, rounded up, and no fewer. */
  lemma DrainTakes(s: Store, calls: nat, now: int, size: int, grace: nat, includeReal: bool)
    requires 1 <= size <= MAX_BATCH_SIZE
    ensures EligibleIds(Drained(s, calls, now, size, grace, includeReal), now, includeReal) == {}
            <==> calls >= (|EligibleIds(s, now, includeReal)| + size - 1) / size
  {
    DueIsEligible(s, now, includeReal);
    DueIsEligible(Drained(s, calls, now, size, grace, includeReal), now, includeReal);
    DrainCount(s, calls, now, size, grace, includeReal);
    RoundedUp(|DueIds(s, now, includeReal)|, size, calls);
    EmptyWhenNone(DueIds(Drained(s, calls, now, size, grace, includeReal), now, includeReal));
  }

  lemma EmptyWhenNone(ids: set<int>)
    ensures ids == {} <==> |ids| == 0
  {
  }

  lemma RoundedUp(n: nat, size: int, calls: nat)
    requires size >= 1
    ensures n <= calls * size <==> calls >= (n + size - 1) / size
  {
    var q := (n + size - 1) / size;
    var r := (n + size - 1) % size;
    assert n + size - 1 == q * size + r;
    if calls >= q {
      assert calls * size >= q * size;
    } else {
      assert calls * size <= (q - 1) * size;
      assert (q - 1) * size == q * size - size;
    }
  }
}
