/** Voice status callbacks arrive late, twice and out of order: where an attempt ends up. */
module ProviderProgress {
  import opened Records
  import opened Tables
  import opened VoiceCallbacks

  datatype Progress = Progress(status: ProviderStatus, sequence: nat, at: int)

  /** The callback columns after a run of callbacks. */
  function Fold(c: Callbacks, calls: seq<Progress>): Callbacks {
    if calls == [] then c
    else
      var n := |calls| - 1;
      Advanced(Fold(c, calls[..n]), calls[n].status, calls[n].sequence, calls[n].at)
  }

  /** An update that is applied raises the sequence number; once the status is terminal no
      callback changes anything. */
  lemma {:induction false} SequenceRisesUntilTerminal(c: Callbacks, calls: seq<Progress>)
    ensures var d := Fold(c, calls);
            && (d.status != c.status || d.sequence != c.sequence || d.statusAt != c.statusAt ==>
                  d.sequence.Some? && (c.sequence.Some? ==> c.sequence.value < d.sequence.value))
            && (c.status.Some? && TerminalProviderStatus(c.status.value) ==> d == c)
            && d == c.(status := d.status, sequence := d.sequence, statusAt := d.statusAt)
  {
    if calls == [] {
    } else {
      SequenceRisesUntilTerminal(c, calls[..|calls| - 1]);
    }
  }

  // ----- convergence

  /** What a callback says, whenever it arrives. */
  datatype Kind = Kind(status: ProviderStatus, sequence: nat)

  function KindOf(p: Progress): Kind {
    Kind(p.status, p.sequence)
  }

  function Kinds(calls: seq<Progress>): set<Kind> {
    set p | p in calls :: KindOf(p)
  }

  /** Equal sequence numbers carry equal statuses. */
  ghost predicate Functional(calls: seq<Progress>) {
    forall i, j :: 0 <= i < |calls| && 0 <= j < |calls| && calls[i].sequence == calls[j].sequence
                   ==> calls[i].status == calls[j].status
  }

  function MaxSequence(calls: seq<Progress>): (m: nat)
    requires calls != []
    ensures forall i :: 0 <= i < |calls| ==> calls[i].sequence <= m
    ensures exists i :: 0 <= i < |calls| && calls[i].sequence == m
  {
    var n := |calls| - 1;
    if n == 0 then
      assert calls[0].sequence == calls[n].sequence;
      calls[n].sequence
    else
      var m := MaxSequence(calls[..n]);
      var i :| 0 <= i < n && calls[..n][i].sequence == m;
      assert calls[i].sequence == m;
      assert calls[n].sequence <= calls[n].sequence;
      if m < calls[n].sequence then calls[n].sequence else m
  }

  /** No terminal callback is older than the newest callback. */
  ghost predicate TerminalIsNewest(calls: seq<Progress>) {
    forall i, j :: 0 <= i < |calls| && 0 <= j < |calls| && TerminalProviderStatus(calls[i].status)
                   ==> calls[j].sequence <= calls[i].sequence
  }

  /** Whatever the order and however often repeated, the callbacks leave the same progress. */
  ghost predicate Converges(calls: seq<Progress>) {
    forall other: seq<Progress> :: Kinds(other) == Kinds(calls) ==> EndsLike(other, calls)
  }

  ghost predicate EndsLike(a: seq<Progress>, b: seq<Progress>) {
    var c, d := Fold(NO_CALLBACKS, a), Fold(NO_CALLBACKS, b);
    c.status == d.status && c.sequence == d.sequence
  }

  /** When no terminal callback is older than the newest one, the newest callback wins. */
  lemma {:induction false} NewestWins(calls: seq<Progress>)
    requires calls != [] && TerminalIsNewest(calls)
    ensures var c := Fold(NO_CALLBACKS, calls);
            && c.sequence == Some(MaxSequence(calls))
            && exists i ::
                 0 <= i < |calls| && c.status == Some(calls[i].status) && c.sequence == Some(calls[i].sequence)
  {
    var n := |calls| - 1;
    var before := Fold(NO_CALLBACKS, calls[..n]);
    if n > 0 {
      NewestWins(calls[..n]);
      var i :| 0 <= i < n && before.status == Some(calls[i].status) && before.sequence == Some(calls[i].sequence);
      var j :| 0 <= j < n && calls[..n][j].sequence == MaxSequence(calls[..n]);
      assert calls[j].sequence == MaxSequence(calls[..n]);
      var c := Fold(NO_CALLBACKS, calls);
      if c == before {
        assert c.status == Some(calls[i].status);
      } else {
        assert c.status == Some(calls[n].status);
      }
    } else {
      assert calls[..0] == [];
      assert Fold(NO_CALLBACKS, calls).status == Some(calls[0].status);
    }
  }

  /** A callback that came first with the newest number keeps its place. */
  lemma {:induction false} FirstStays(first: Progress, calls: seq<Progress>)
    requires TerminalProviderStatus(first.status) || forall i :: 0 <= i < |calls| ==>
               calls[i].sequence <= first.sequence
    ensures var c := Fold(NO_CALLBACKS, [first] + calls);
            c.status == Some(first.status) && c.sequence == Some(first.sequence)
  {
    if calls == [] {
      assert ([first] + calls)[..0] == [] && |[first] + calls| == 1;
    } else {
      var n := |calls| - 1;
      FirstStays(first, calls[..n]);
      assert ([first] + calls)[..|[first] + calls| - 1] == [first] + calls[..n];
    }
  }

  lemma AddingAKnownOne(first: Progress, calls: seq<Progress>)
    requires first in calls
    ensures Kinds([first] + calls) == Kinds(calls)
  {
    var more := [first] + calls;
    forall k ensures k in Kinds(more) <==> k in Kinds(calls) {
      if k in Kinds(more) {
        var p :| p in more && KindOf(p) == k;
        assert p in calls;
      }
      if k in Kinds(calls) {
        var p :| p in calls && KindOf(p) == k;
        assert p in more;
      }
    }
  }

  lemma SameNewest(a: seq<Progress>, b: seq<Progress>, i: nat)
    requires Kinds(a) == Kinds(b) && i < |a|
    ensures exists j :: 0 <= j < |b| && KindOf(b[j]) == KindOf(a[i])
  {
    assert a[i] in a && KindOf(a[i]) in Kinds(a);
    var p :| p in b && KindOf(p) == KindOf(a[i]);
    var j :| 0 <= j < |b| && b[j] == p;
    assert KindOf(b[j]) == KindOf(a[i]);
  }

  /** Convergence, exactly: the final progress depends on the set of callbacks alone if and
      only if none of the terminal ones is older than the newest. */
  lemma ConvergesExactlyWhen(calls: seq<Progress>)
    requires Functional(calls)
    ensures Converges(calls) <==> TerminalIsNewest(calls)
  {
    if TerminalIsNewest(calls) {
      forall other: seq<Progress> | Kinds(other) == Kinds(calls) ensures EndsLike(other, calls) {
        EndsTheSame(calls, other);
      }
    } else {
      var i, j :| 0 <= i < |calls| && 0 <= j < |calls| && TerminalProviderStatus(calls[i].status)
                  && calls[i].sequence < calls[j].sequence;
      var m := MaxSequence(calls);
      var k :| 0 <= k < |calls| && calls[k].sequence == m;
      FirstStays(calls[i], calls);
      FirstStays(calls[k], calls);
      AddingAKnownOne(calls[i], calls);
      AddingAKnownOne(calls[k], calls);
      assert !(EndsLike([calls[i]] + calls, calls) && EndsLike([calls[k]] + calls, calls));
    }
  }

  lemma EndsTheSame(calls: seq<Progress>, other: seq<Progress>)
    requires Functional(calls) && TerminalIsNewest(calls) && Kinds(other) == Kinds(calls)
    ensures EndsLike(other, calls)
  {
    if calls == [] {
      if other != [] {
        SameNewest(other, calls, 0);
      }
    } else {
      SameNewest(calls, other, 0);
      forall i, j | 0 <= i < |other| && 0 <= j < |other| && TerminalProviderStatus(other[i].status)
        ensures other[j].sequence <= other[i].sequence
      {
        SameNewest(other, calls, i);
        SameNewest(other, calls, j);
      }
      NewestWins(calls);
      NewestWins(other);
      var c, d := Fold(NO_CALLBACKS, calls), Fold(NO_CALLBACKS, other);
      var i :| 0 <= i < |calls| && c.status == Some(calls[i].status) && c.sequence == Some(calls[i].sequence);
      var j :| 0 <= j < |other| && d.status == Some(other[j].status) && d.sequence == Some(other[j].sequence);
      SameNewest(calls, other, i);
      SameNewest(other, calls, j);
      var i' :| 0 <= i' < |other| && KindOf(other[i']) == KindOf(calls[i]);
      var j' :| 0 <= j' < |calls| && KindOf(calls[j']) == KindOf(other[j]);
      assert calls[j'].sequence <= calls[i].sequence && other[i'].sequence <= other[j].sequence;
    }
  }

  /** The two cases a provider relies on: without a terminal callback the newest one stands,
      and a terminal callback that is the newest one stands. */
  lemma NewestStands(calls: seq<Progress>, k: nat)
    requires Functional(calls) && k < |calls|
    requires forall i :: 0 <= i < |calls| ==> calls[i].sequence <= calls[k].sequence
    requires forall i :: 0 <= i < |calls| && TerminalProviderStatus(calls[i].status) ==>
               calls[i].sequence == calls[k].sequence
    ensures var c := Fold(NO_CALLBACKS, calls);
            c.status == Some(calls[k].status) && c.sequence == Some(calls[k].sequence)
  {
    NewestWins(calls);
    var c := Fold(NO_CALLBACKS, calls);
    var i :| 0 <= i < |calls| && c.status == Some(calls[i].status) && c.sequence == Some(calls[i].sequence);
  }

  // ----- the callbacks of a call

  /** The store after status callbacks of one SID, one after the other. */
  function StatusRun(s: Store, sid: string, calls: seq<Progress>): Store {
    if calls == [] then s
    else
      var n := |calls| - 1;
      var before := StatusRun(s, sid, calls[..n]);
      var r := VoiceStatus(before, sid, Some(calls[n].status), calls[n].sequence, calls[n].at);
      if r.Ok? then r.value.store else before
  }

  lemma SameCallWithCallbacks(s: Store, sid: string, e: int, k: nat, c: Callbacks)
    requires UniqueSids(s) && TheCall(s, sid, e, k)
    ensures UniqueSids(WithCallbacks(s, e, k, c)) && TheCall(WithCallbacks(s, e, k, c), sid, e, k)
    ensures forall d :: WithCallbacks(WithCallbacks(s, e, k, c), e, k, d) == WithCallbacks(s, e, k, d)
  {
    var t := WithCallbacks(s, e, k, c);
    forall f, j | f in s.events && 0 <= j < |s.events[f].attempts|
      ensures f in t.events && |t.events[f].attempts| == |s.events[f].attempts|
              && t.events[f].attempts[j].sid == s.events[f].attempts[j].sid
    {
    }
    forall d ensures WithCallbacks(t, e, k, d) == WithCallbacks(s, e, k, d) {
      var xs := s.events[e].attempts;
      assert xs[k := xs[k].(callbacks := c)][k := xs[k].(callbacks := d)] == xs[k := xs[k].(callbacks := d)];
    }
  }

  /** Any status callbacks of a call leave the fold of them on its attempt, and nothing else changes. */
  lemma {:induction false} StatusRunIsFold(s: Store, sid: string, calls: seq<Progress>, e: int, k: nat)
    requires UniqueSids(s) && TheCall(s, sid, e, k) && "CA" <= sid
    ensures StatusRun(s, sid, calls) == WithCallbacks(s, e, k, Fold(s.events[e].attempts[k].callbacks, calls))
  {
    var c := s.events[e].attempts[k].callbacks;
    if calls == [] {
      assert s.events[e].attempts[k := s.events[e].attempts[k]] == s.events[e].attempts;
      assert s.events[e := s.events[e]] == s.events;
    } else {
      var n := |calls| - 1;
      var before := Fold(c, calls[..n]);
      StatusRunIsFold(s, sid, calls[..n], e, k);
      SameCallWithCallbacks(s, sid, e, k, before);
      StatusOfCall(WithCallbacks(s, e, k, before), sid, Some(calls[n].status), calls[n].sequence, calls[n].at, e, k);
    }
  }

  /** The call has no progress yet. */
  ghost predicate NoProgress(s: Store, e: int, k: nat) {
    && e in s.events && k < |s.events[e].attempts|
    && s.events[e].attempts[k].callbacks.status.None? && s.events[e].attempts[k].callbacks.sequence.None?
  }

  lemma {:induction false} FoldFromNothing(c: Callbacks, calls: seq<Progress>)
    requires c.status.None? && c.sequence.None?
    ensures Fold(c, calls).status == Fold(NO_CALLBACKS, calls).status
    ensures Fold(c, calls).sequence == Fold(NO_CALLBACKS, calls).sequence
  {
    if calls == [] {
    } else {
      FoldFromNothing(c, calls[..|calls| - 1]);
    }
  }

  /** The two stores agree on the progress of the call. */
  ghost predicate SameProgress(s: Store, t: Store, e: int, k: nat) {
    && e in s.events && k < |s.events[e].attempts| && e in t.events && k < |t.events[e].attempts|
    && s.events[e].attempts[k].callbacks.status == t.events[e].attempts[k].callbacks.status
    && s.events[e].attempts[k].callbacks.sequence == t.events[e].attempts[k].callbacks.sequence
  }

  ghost predicate AllOrdersAgree(s: Store, sid: string, calls: seq<Progress>, e: int, k: nat) {
    forall other: seq<Progress> :: Kinds(other) == Kinds(calls) ==>
      SameProgress(StatusRun(s, sid, other), StatusRun(s, sid, calls), e, k)
  }

  lemma ProgressIsFold(s: Store, sid: string, calls: seq<Progress>, e: int, k: nat)
    requires UniqueSids(s) && TheCall(s, sid, e, k) && "CA" <= sid && NoProgress(s, e, k)
    ensures var t := StatusRun(s, sid, calls);
            && e in t.events && k < |t.events[e].attempts|
            && t.events[e].attempts[k].callbacks.status == Fold(NO_CALLBACKS, calls).status
            && t.events[e].attempts[k].callbacks.sequence == Fold(NO_CALLBACKS, calls).sequence
  {
    StatusRunIsFold(s, sid, calls, e, k);
    FoldFromNothing(s.events[e].attempts[k].callbacks, calls);
  }

  /** The callbacks of a call leave the same progress in any order and however often repeated exactly
      when none of the terminal ones is older than the newest. */
  lemma CallConvergesExactlyWhen(s: Store, sid: string, calls: seq<Progress>, e: int, k: nat)
    requires UniqueSids(s) && TheCall(s, sid, e, k) && "CA" <= sid && NoProgress(s, e, k) && Functional(calls)
    ensures AllOrdersAgree(s, sid, calls, e, k) <==> TerminalIsNewest(calls)
  {
    ConvergesExactlyWhen(calls);
    ProgressIsFold(s, sid, calls, e, k);
    forall other: seq<Progress> | Kinds(other) == Kinds(calls)
      ensures EndsLike(other, calls) <==> SameProgress(StatusRun(s, sid, other), StatusRun(s, sid, calls), e, k)
    {
      ProgressIsFold(s, sid, other, e, k);
    }
  }
}
