/** Exclusive ownership: a claim is held from its commit to its record, whatever else runs. */
module Ownership {
  import opened Records
  import opened Tables
  import opened Claims
  import opened BatchClaims
  import opened Coupling
  import opened Services
  import opened Protocol
  import opened Effects

  lemma HoldsKept(x: Entry, y: Entry, c: Claim)
    requires Holds(x, c) && SameDelivery(x, y)
    ensures Holds(y, c)
  {
    assert Core(Last(x)) == Core(Last(y));
  }

  /** What is in flight stays as it is, unless the step is its holder's own record. The
      clause holds whether or not a worker still holds the event. */
  lemma OnlyTheHolderEnds(s: Sys, l: Label, e: int)
    requires OwnInv(s) && Enabled(s, l) && e in s.db.events && InFlight(s.db.events[e])
    ensures e in DbAfter(s, l).events
    ensures SameDelivery(s.db.events[e], DbAfter(s, l).events[e]) || EndedBy(s, l) == Some(e)
  {
    DbEffect(s, l);
  }

  /** Where a worker's claim comes from: it had it already, and then it is not the one this
      step ends, or the step grants it on an event nobody was holding. */
  lemma ClaimSource(s: Sys, l: Label, w: int, i: nat)
    requires OwnInv(s) && Enabled(s, l) && i < |ClaimsAfter(s, l, w)|
    ensures var c := ClaimsAfter(s, l, w)[i];
            if HasWorker(l) && l.w == w && Starts(l) then
              c.event in s.db.events && !InFlight(s.db.events[c.event])
              && c.event in DbAfter(s, l).events && Holds(DbAfter(s, l).events[c.event], c)
            else
              var k := if HasWorker(l) && l.w == w && Finishes(l) then i + 1 else i;
              k < |ClaimsOf(s, w)| && c == ClaimsOf(s, w)[k] && EndedBy(s, l) != Some(c.event)
  {
    if HasWorker(l) && l.w == w && Starts(l) {
      GrantEffect(s, l);
    } else if Finishes(l) {
      HeadIsHeld(s, l.w);
      var k := if l.w == w then i + 1 else i;
      assert ClaimsAfter(s, l, w)[i] == ClaimsOf(s, w)[k];
    }
  }

  lemma HeldAfter(s: Sys, l: Label, w: int, i: nat)
    requires OwnInv(s) && Enabled(s, l) && i < |ClaimsAfter(s, l, w)|
    ensures var c := ClaimsAfter(s, l, w)[i];
            c.event in DbAfter(s, l).events && Holds(DbAfter(s, l).events[c.event], c)
  {
    ClaimSource(s, l, w, i);
    var c := ClaimsAfter(s, l, w)[i];
    if !(HasWorker(l) && l.w == w && Starts(l)) {
      OnlyTheHolderEnds(s, l, c.event);
      HoldsKept(s.db.events[c.event], DbAfter(s, l).events[c.event], c);
    }
  }

  lemma DisjointAfter(s: Sys, l: Label, v: int, w: int, i: nat, j: nat)
    requires OwnInv(s) && Enabled(s, l)
    requires i < |ClaimsAfter(s, l, v)| && j < |ClaimsAfter(s, l, w)| && (v != w || i != j)
    ensures ClaimsAfter(s, l, v)[i].event != ClaimsAfter(s, l, w)[j].event
  {
    ClaimSource(s, l, v, i);
    ClaimSource(s, l, w, j);
    if Starts(l) && l.w == v == w {
      GrantEffect(s, l);
    }
  }

  /** Every step keeps the coupling of events and attempts and the ownership of claims. */
  lemma OwnStep(s: Sys, l: Label)
    requires OwnInv(s) && Enabled(s, l)
    ensures OwnInv(Next(s, l))
  {
    var t := Next(s, l);
    NextDb(s, l);
    DbEffect(s, l);
    forall w: int, i: nat | i < |ClaimsOf(t, w)|
      ensures var c := ClaimsOf(t, w)[i]; c.event in t.db.events && Holds(t.db.events[c.event], c)
    {
      NextClaims(s, l, w);
      HeldAfter(s, l, w, i);
    }
    forall v: int, w: int, i: nat, j: nat | i < |ClaimsOf(t, v)| && j < |ClaimsOf(t, w)| && (v != w || i != j)
      ensures ClaimsOf(t, v)[i].event != ClaimsOf(t, w)[j].event
    {
      NextClaims(s, l, v);
      NextClaims(s, l, w);
      DisjointAfter(s, l, v, w, i, j);
    }
  }

  lemma OwnInit(s: Sys)
    requires Init(s)
    ensures OwnInv(s)
  {
  }

  /** In every state of every run, events and attempts are coupled and claims are exclusive. */
  lemma {:induction false} OwnRun(states: seq<Sys>, labels: seq<Label>, i: nat)
    requires IsRun(states, labels) && i <= |labels|
    ensures OwnInv(states[i])
  {
    if i == 0 {
      OwnInit(states[0]);
    } else {
      OwnRun(states, labels, i - 1);
      assert StepAt(states, labels, i - 1);
      OwnStep(states[i - 1], labels[i - 1]);
    }
  }

  // ----- events that have left `scheduled`

  lemma StaysOut(s: Sys, l: Label, e: int)
    requires OwnInv(s) && Enabled(s, l) && e in s.db.events && s.db.events[e].row.status != Scheduled
    ensures e in Next(s, l).db.events && Next(s, l).db.events[e].row.status != Scheduled
  {
    NextDb(s, l);
    DbEffect(s, l);
  }

  /** An event that has left `scheduled` never comes back, so no later tick selects it. */
  lemma {:induction false} NeverScheduledAgain(states: seq<Sys>, labels: seq<Label>, i: nat, j: nat, e: int)
    requires IsRun(states, labels) && i <= j <= |labels|
    requires e in states[i].db.events && states[i].db.events[e].row.status != Scheduled
    ensures e in states[j].db.events && states[j].db.events[e].row.status != Scheduled
    ensures forall now, includeReal :: e !in DueIds(states[j].db, now, includeReal)
    decreases j
  {
    if i == j {
    } else {
      NeverScheduledAgain(states, labels, i, j - 1, e);
      OwnRun(states, labels, j - 1);
      assert StepAt(states, labels, j - 1);
      StaysOut(states[j - 1], labels[j - 1], e);
    }
  }

  lemma FrozenByEffect(x: Entry, y: Entry, ended: bool)
    requires Effect(x, y, ended) && x.row.status != Scheduled
    ensures Frozen(x.row, y.row)
  {
  }

  /** Once an event has left `scheduled` its user, phone, ZIP, time, channel and demo flag never
      change again, whatever became of the event. */
  lemma {:induction false} SnapshotIsFrozen(states: seq<Sys>, labels: seq<Label>, i: nat, j: nat, e: int)
    requires IsRun(states, labels) && i <= j <= |labels|
    requires e in states[i].db.events && states[i].db.events[e].row.status != Scheduled
    ensures e in states[j].db.events && Frozen(states[i].db.events[e].row, states[j].db.events[e].row)
    decreases j
  {
    if i == j {
    } else {
      SnapshotIsFrozen(states, labels, i, j - 1, e);
      NeverScheduledAgain(states, labels, i, j - 1, e);
      OwnRun(states, labels, j - 1);
      assert StepAt(states, labels, j - 1);
      var s, l := states[j - 1], labels[j - 1];
      NextDb(s, l);
      DbEffect(s, l);
      FrozenByEffect(s.db.events[e], DbAfter(s, l).events[e], EndedBy(s, l) == Some(e));
    }
  }

  /** A claim takes its event out of `scheduled`, and only a queued message may claim an event
      that is out already: one that waits for a retry. */
  lemma GrantLeavesScheduled(s: Sys, l: Label, k: nat)
    requires OwnInv(s) && Enabled(s, l) && Starts(l) && k < |GrantedBy(s, l)|
    ensures var e := GrantedBy(s, l)[k].event;
            && e in s.db.events && e in Next(s, l).db.events && Next(s, l).db.events[e].row.status != Scheduled
            && (s.db.events[e].row.status == Scheduled || (l.StartQueued? && Resumable(s.db.events[e])))
  {
    GrantEffect(s, l);
    NextDb(s, l);
    if l.StartBatch? {
      BatchHolds(s.db, l.locked, l.now, l.size, l.grace, l.includeReal);
    } else if l.StartDirect? {
      ClaimDirectStep(s.db, l.event, l.now);
    }
  }

  /** In any run, with any rows locked: an event that two claims were granted on was waiting for
      a retry when a queued message claimed it again. */
  lemma ClaimedAgainOnlyToRetry(states: seq<Sys>, labels: seq<Label>, i: nat, j: nat, a: nat, b: nat)
    requires IsRun(states, labels) && i < j < |labels| && Starts(labels[i]) && Starts(labels[j])
    requires Enabled(states[i], labels[i]) && Enabled(states[j], labels[j])
    requires a < |GrantedBy(states[i], labels[i])| && b < |GrantedBy(states[j], labels[j])|
    requires GrantedBy(states[i], labels[i])[a].event == GrantedBy(states[j], labels[j])[b].event
    ensures var e := GrantedBy(states[j], labels[j])[b].event;
            labels[j].StartQueued? && e in states[j].db.events && Resumable(states[j].db.events[e])
  {
    var e := GrantedBy(states[i], labels[i])[a].event;
    OwnRun(states, labels, i);
    OwnRun(states, labels, j);
    assert StepAt(states, labels, i);
    GrantLeavesScheduled(states[i], labels[i], a);
    GrantLeavesScheduled(states[j], labels[j], b);
    NeverScheduledAgain(states, labels, i + 1, j, e);
  }

  /** Two batches of a run, whatever ran between them and whatever rows each of them passed
      over, never claim the same event; nor do two claims of one batch. */
  lemma ConcurrentBatchesAreDisjoint(states: seq<Sys>, labels: seq<Label>, i: nat, j: nat, a: nat, b: nat)
    requires IsRun(states, labels) && i < |labels| && j < |labels|
    requires labels[i].StartBatch? && labels[j].StartBatch? && (i != j || a != b)
    requires Enabled(states[i], labels[i]) && Enabled(states[j], labels[j])
    requires a < |GrantedBy(states[i], labels[i])| && b < |GrantedBy(states[j], labels[j])|
    ensures GrantedBy(states[i], labels[i])[a].event != GrantedBy(states[j], labels[j])[b].event
  {
    if GrantedBy(states[i], labels[i])[a].event == GrantedBy(states[j], labels[j])[b].event {
      if i < j {
        ClaimedAgainOnlyToRetry(states, labels, i, j, a, b);
      } else if j < i {
        ClaimedAgainOnlyToRetry(states, labels, j, i, b, a);
      } else {
        OwnRun(states, labels, i);
        GrantEffect(states[i], labels[i]);
      }
    }
  }

  // ----- a holder that dies

  lemma SameDeliveryTransitive(x: Entry, y: Entry, z: Entry)
    requires SameDelivery(x, y) && SameDelivery(y, z)
    ensures SameDelivery(x, z)
  {
  }

  ghost predicate Abandoned(s: Sys, e: int) {
    && e in s.db.events && InFlight(s.db.events[e])
    && forall w: int, i: nat :: i < |ClaimsOf(s, w)| ==> ClaimsOf(s, w)[i].event != e
  }

  lemma AbandonedEntryStays(s: Sys, l: Label, e: int)
    requires OwnInv(s) && Enabled(s, l) && Abandoned(s, e)
    ensures e in DbAfter(s, l).events && InFlight(DbAfter(s, l).events[e])
            && SameDelivery(s.db.events[e], DbAfter(s, l).events[e])
  {
    DbEffect(s, l);
    if Finishes(l) {
      HeadIsHeld(s, l.w);
    }
    InFlightStays(s.db.events[e], DbAfter(s, l).events[e]);
  }

  /** A delivery that is under way changes by its holder's record only. */
  lemma InFlightStays(x: Entry, y: Entry)
    requires InFlight(x) && Effect(x, y, false)
    ensures InFlight(y) && SameDelivery(x, y)
  {
    if SameDelivery(x, y) {
      assert Core(Last(x)) == Core(Last(y));
    }
  }

  lemma AbandonedStep(s: Sys, l: Label, e: int)
    requires OwnInv(s) && Enabled(s, l) && Abandoned(s, e)
    ensures Abandoned(Next(s, l), e) && SameDelivery(s.db.events[e], Next(s, l).db.events[e])
  {
    AbandonedEntryStays(s, l, e);
    NextDb(s, l);
    forall w: int, i: nat | i < |ClaimsOf(Next(s, l), w)| ensures ClaimsOf(Next(s, l), w)[i].event != e {
      NextClaims(s, l, w);
      ClaimSource(s, l, w, i);
    }
  }

  lemma AbandonedNext(states: seq<Sys>, labels: seq<Label>, i: nat, e: int)
    requires IsRun(states, labels) && i < |labels| && Abandoned(states[i], e)
    ensures Abandoned(states[i + 1], e) && SameDelivery(states[i].db.events[e], states[i + 1].db.events[e])
  {
    OwnRun(states, labels, i);
    assert StepAt(states, labels, i);
    AbandonedStep(states[i], labels[i], e);
  }

  /** An event whose holder died stays quarantined: no step touches it, claims it, or ends
      it, in any continuation of the run. */
  lemma {:induction false} AbandonedForever(states: seq<Sys>, labels: seq<Label>, i: nat, j: nat, e: int)
    requires IsRun(states, labels) && i <= j <= |labels| && Abandoned(states[i], e)
    ensures Abandoned(states[j], e) && SameDelivery(states[i].db.events[e], states[j].db.events[e])
    decreases j
  {
    if i == j {
    } else {
      AbandonedForever(states, labels, i, j - 1, e);
      AbandonedNext(states, labels, j - 1, e);
      SameDeliveryTransitive(states[i].db.events[e], states[j - 1].db.events[e], states[j].db.events[e]);
    }
  }
}
