/** Provider SIDs stay unique in every run, so a callback is about one call. */
module ProviderSids {
  import opened Records
  import opened Tables
  import opened Claims
  import opened Coupling
  import opened Services
  import opened Protocol
  import opened Effects
  import opened Ownership
  import Delivery

  /** Every SID in `t` was there in `s`, on the same attempt. */
  ghost predicate NoNewSid(s: Store, t: Store) {
    forall e, k :: e in t.events && 0 <= k < |t.events[e].attempts| && t.events[e].attempts[k].sid.Some? ==>
      e in s.events && k < |s.events[e].attempts| && t.events[e].attempts[k].sid == s.events[e].attempts[k].sid
  }

  lemma NoNewSidKeepsUnique(s: Store, t: Store)
    requires UniqueSids(s) && NoNewSid(s, t)
    ensures UniqueSids(t)
  {
  }

  lemma EntryHasNoNewSid(x: Entry, y: Entry, k: nat)
    requires Effect(x, y, false) && Coupled(y) && k < |y.attempts| && y.attempts[k].sid.Some?
    ensures k < |x.attempts| && y.attempts[k].sid == x.attempts[k].sid
  {
    if SameDelivery(x, y) {
      assert Core(x.attempts[k]) == Core(y.attempts[k]);
    } else if ClaimStep(x, y) && k < |x.attempts| {
      assert y.attempts[..|x.attempts|][k] == x.attempts[k];
    }
  }

  lemma StepWithoutRecord(s: Store, t: Store)
    requires StoreEffect(s, t, None)
    ensures NoNewSid(s, t)
  {
    forall e, k | e in t.events && 0 <= k < |t.events[e].attempts| && t.events[e].attempts[k].sid.Some?
      ensures e in s.events && k < |s.events[e].attempts|
              && t.events[e].attempts[k].sid == s.events[e].attempts[k].sid
    {
      if e in s.events {
        EntryHasNoNewSid(s.events[e], t.events[e], k);
      }
    }
  }

  /** A recorded success adds one SID, which nobody else has. */
  lemma SuccessKeepsUnique(s: Store, id: int, k: nat, status: AttemptStatus, message: string, sid: Option<string>,
                           at: int)
    requires UniqueSids(s) && RecordSuccess(s, id, k, status, message, sid, at).Ok?
    ensures UniqueSids(RecordSuccess(s, id, k, status, message, sid, at).value)
  {
    var t := RecordSuccess(s, id, k, status, message, sid, at).value;
    forall e, j | e in t.events && 0 <= j < |t.events[e].attempts| && (e != id || j != k)
      ensures e in s.events && j < |s.events[e].attempts|
              && t.events[e].attempts[j].sid == s.events[e].attempts[j].sid
              && (sid.Some? ==> s.events[e].attempts[j].sid != sid)
    {
      if sid.Some? {
        assert !SidTaken(s, sid.value, id, k);
        assert !SidAmong(s.events[e].attempts, sid.value, if e == id then Some(k) else None);
      }
    }
  }

  lemma FailureKeepsSids(s: Store, id: int, k: nat, code: ErrorCode, exc: ClassName, at: int)
    ensures RecordFailure(s, id, k, code, at).Ok? ==> NoNewSid(s, RecordFailure(s, id, k, code, at).value)
    ensures RecordRetryable(s, id, k, exc, at).Ok? ==> NoNewSid(s, RecordRetryable(s, id, k, exc, at).value)
  {
  }

  lemma RecordKeepsUnique(s: Sys, l: Label)
    requires UniqueSids(s.db) && Finishes(l) && Enabled(s, l) && RecordOf(s, l).Ok?
    ensures UniqueSids(RecordOf(s, l).value)
  {
    var job := WorkerOf(s, l.w).job;
    var c := Head(job);
    match l
    case SenderReturns(_, sid, at) =>
      SuccessKeepsUnique(s.db, c.event, c.index, Delivery.TerminalStatus(c.row), job.phase.message, sid, at);
    case WeatherFails(_, exc, _, at) =>
      FailureKeepsSids(s.db, c.event, c.index, Plain(exc), exc, at);
      FailureKeepsSids(s.db, c.event, c.index, RetryExhausted(exc), exc, at);
      NoNewSidKeepsUnique(s.db, RecordOf(s, l).value);
    case SenderMissing(_, at) =>
      FailureKeepsSids(s.db, c.event, c.index, Plain(Delivery.NOT_CONFIGURED), "Error", at);
      NoNewSidKeepsUnique(s.db, RecordOf(s, l).value);
    case SenderFails(_, exc, at) =>
      FailureKeepsSids(s.db, c.event, c.index, Plain(exc), exc, at);
      NoNewSidKeepsUnique(s.db, RecordOf(s, l).value);
  }

  lemma SidStep(s: Sys, l: Label)
    requires OwnInv(s) && Enabled(s, l) && UniqueSids(s.db)
    ensures UniqueSids(Next(s, l).db)
  {
    NextDb(s, l);
    if Finishes(l) {
      if RecordOf(s, l).Ok? {
        RecordKeepsUnique(s, l);
      }
    } else {
      DbEffect(s, l);
      StepWithoutRecord(s.db, DbAfter(s, l));
      NoNewSidKeepsUnique(s.db, DbAfter(s, l));
    }
  }

  /** In every state of every run no two attempts hold the same provider SID. */
  lemma {:induction false} SidsAreUnique(states: seq<Sys>, labels: seq<Label>, n: nat)
    requires IsRun(states, labels) && n <= |labels|
    ensures UniqueSids(states[n].db)
  {
    if n == 0 {
      forall e | e in states[0].db.events ensures states[0].db.events[e].attempts == [] {
        assert Coupled(states[0].db.events[e]);
      }
    } else {
      SidsAreUnique(states, labels, n - 1);
      OwnRun(states, labels, n - 1);
      assert StepAt(states, labels, n - 1);
      SidStep(states[n - 1], labels[n - 1]);
    }
  }
}
