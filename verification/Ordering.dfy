/** The order every event query uses: by scheduled time, then by id, bounded by a limit. */
module Ordering {
  import opened Records

  /** The ids of rows a query may read, each with its scheduled time. */
  predicate Before(events: map<int, Entry>, a: int, b: int)
    requires a in events && b in events
  {
    events[a].row.scheduledFor < events[b].row.scheduledFor
    || (events[a].row.scheduledFor == events[b].row.scheduledFor && a <= b)
  }

  /** Row `a` comes before row `b` by time, or at the same time by id. */
  ghost predicate Older(events: map<int, Entry>, a: int, b: int)
    requires a in events && b in events
  {
    var x, y := events[a].row.scheduledFor, events[b].row.scheduledFor;
    x < y || (x == y && a < b)
  }

  lemma AnElement(ids: set<int>) returns (x: int)
    requires ids != {}
    ensures x in ids
  {
    if forall y :: y !in ids {
      assert false;
    }
    x :| x in ids;
  }

  lemma {:induction false} FindOldest(events: map<int, Entry>, ids: set<int>) returns (r: int)
    requires ids != {} && ids <= events.Keys
    ensures r in ids && forall x :: x in ids ==> Before(events, r, x)
  {
    var a := AnElement(ids);
    var rest := ids - {a};
    r := a;
    if rest != {} {
      var other := FindOldest(events, rest);
      r := if Before(events, a, other) then a else other;
    }
    forall x | x in ids ensures Before(events, r, x) {
      if x != a {
        assert x in rest;
      }
    }
  }

  lemma OldestExists(events: map<int, Entry>, ids: set<int>)
    requires ids != {} && ids <= events.Keys
    ensures exists r :: r in ids && forall x :: x in ids ==> Before(events, r, x)
  {
    var r := FindOldest(events, ids);
  }

  /** `order_by("scheduled_for", "id").first()` over a non-empty set of rows. */
  function Oldest(events: map<int, Entry>, ids: set<int>): (r: int)
    requires ids != {} && ids <= events.Keys
    ensures r in ids && forall x :: x in ids ==> Before(events, r, x)
  {
    OldestExists(events, ids);
    var r :| r in ids && forall x :: x in ids ==> Before(events, r, x);
    r
  }

  /** `order_by("scheduled_for", "id")[:limit]`. */
  function OldestFirst(events: map<int, Entry>, ids: set<int>, limit: nat): (r: seq<int>)
    requires ids <= events.Keys
    ensures forall k :: 0 <= k < |r| ==> r[k] in ids
    decreases limit
  {
    if ids == {} || limit == 0 then []
    else
      var first := Oldest(events, ids);
      [first] + OldestFirst(events, ids - {first}, limit - 1)
  }

  function Elements(ids: seq<int>): set<int> {
    set x | x in ids
  }

  predicate Distinct<T(==)>(s: seq<T>) {
    forall i, j :: 0 <= i < j < |s| ==> s[i] != s[j]
  }

  lemma ElementsSize(ids: seq<int>)
    requires Distinct(ids)
    ensures |Elements(ids)| == |ids|
  {
    if ids == [] {
      assert Elements(ids) == {};
    } else {
      var n := |ids| - 1;
      ElementsSize(ids[..n]);
      assert Elements(ids) == Elements(ids[..n]) + {ids[n]};
      assert ids[n] !in Elements(ids[..n]);
    }
  }

  /** The bounded query returns, without repetition and in order, exactly the oldest rows:
      as many as the limit lets in, and none that is younger than a row left behind. */
  lemma {:induction false} OldestFirstIsPrefix(events: map<int, Entry>, ids: set<int>, limit: nat)
    requires ids <= events.Keys
    ensures var r := OldestFirst(events, ids, limit);
            && Elements(r) <= ids
            && Distinct(r)
            && |r| == (if |ids| <= limit then |ids| else limit)
            && (forall i, j :: 0 <= i < j < |r| ==> r[i] in events && r[j] in events && Older(events, r[i], r[j]))
            && (forall x, y :: x in r && y in ids && y !in r ==> x in events && Older(events, x, y))
    decreases limit
  {
    var r := OldestFirst(events, ids, limit);
    if ids == {} || limit == 0 {
      assert r == [];
    } else {
      var first := Oldest(events, ids);
      var rest := OldestFirst(events, ids - {first}, limit - 1);
      OldestFirstIsPrefix(events, ids - {first}, limit - 1);
      assert r == [first] + rest;
      assert forall x :: x in r <==> x == first || x in rest;
      assert first !in Elements(rest);
      forall x | x in Elements(r) ensures x in ids {
        if x != first {
          assert x in Elements(rest);
        }
      }
      assert first !in rest;
      forall i, j | 0 <= i < j < |r|
        ensures r[i] != r[j] && r[i] in events && r[j] in events && Older(events, r[i], r[j])
      {
        assert r[j] == rest[j - 1];
        assert r[j] in Elements(rest);
        if i > 0 {
          assert r[i] == rest[i - 1];
        }
      }
    }
  }

  // ----- the one row a callback is about

  lemma {:induction false} FindLeast(ids: set<int>) returns (r: int)
    requires ids != {}
    ensures r in ids && forall x :: x in ids ==> r <= x
  {
    var a := AnElement(ids);
    var rest := ids - {a};
    r := a;
    if rest != {} {
      var other := FindLeast(rest);
      r := if a <= other then a else other;
    }
    forall x | x in ids ensures r <= x {
      if x != a {
        assert x in rest;
      }
    }
  }

  lemma LeastExists(ids: set<int>)
    requires ids != {}
    ensures exists r :: r in ids && forall x :: x in ids ==> r <= x
  {
    var r := FindLeast(ids);
  }

  function Least(ids: set<int>): (r: int)
    requires ids != {}
    ensures r in ids && forall x :: x in ids ==> r <= x
  {
    LeastExists(ids);
    var r :| r in ids && forall x :: x in ids ==> r <= x;
    r
  }

  /** The pending events of a user. */
  function PendingOf(s: Store, user: int): set<int> {
    set id | id in s.events && s.events[id].row.user == user && s.events[id].row.status == Scheduled
  }

  /** `filter(user_id=..., status=SCHEDULED).order_by("scheduled_for", "id").first()`: the
      event a reply applies to. */
  function NextPending(s: Store, user: int): (r: Option<int>)
    ensures r.None? <==> PendingOf(s, user) == {}
    ensures r.Some? ==> r.value in PendingOf(s, user)
    ensures r.Some? ==> forall e :: e in PendingOf(s, user) ==> Before(s.events, r.value, e)
  {
    if PendingOf(s, user) == {} then None else Some(Oldest(s.events, PendingOf(s, user)))
  }

  /** The row is a pending one of the user, and no other one of them is older. */
  ghost predicate FirstPending(s: Store, user: int, id: int) {
    && id in s.events && s.events[id].row.user == user && s.events[id].row.status == Scheduled
    && forall e :: e in s.events && s.events[e].row.user == user && s.events[e].row.status == Scheduled && e != id ==>
         Older(s.events, id, e)
  }

  /** The user has no pending row. */
  ghost predicate NonePending(s: Store, user: int) {
    forall e :: e in s.events && s.events[e].row.user == user ==> s.events[e].row.status != Scheduled
  }

  /** A reply is about the one pending row of the user that is older than all others, and about
      none exactly when there is none. */
  lemma NextPendingIsFirst(s: Store, user: int)
    ensures NextPending(s, user).None? <==> NonePending(s, user)
    ensures forall id :: NextPending(s, user) == Some(id) <==> FirstPending(s, user, id)
  {
    if NextPending(s, user).None? {
      forall e | e in s.events && s.events[e].row.user == user ensures s.events[e].row.status != Scheduled {
        assert e !in PendingOf(s, user);
      }
    } else {
      var first := NextPending(s, user).value;
      forall e | e in s.events && s.events[e].row.user == user && s.events[e].row.status == Scheduled && e != first
        ensures Older(s.events, first, e)
      {
        assert e in PendingOf(s, user);
      }
    }
  }
}
