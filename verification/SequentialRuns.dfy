/** The services as they are called are runs of the protocol: a call that is not interrupted
    takes the steps of one worker, ends in the store the service leaves, and enters the
    senders with the requests the service makes. What holds of every run therefore holds of
    the services. */
module SequentialRuns {
  import opened Records
  import opened Claims
  import opened Delivery
  import opened Protocol

  /** The labels lead from `s` to `t`. */
  ghost predicate Follows(s: Sys, labels: seq<Label>, t: Sys)
    decreases |labels|
  {
    if labels == [] then s == t
    else Enabled(s, labels[0]) && Follows(Next(s, labels[0]), labels[1..], t)
  }

  lemma {:induction false} FollowsThen(s: Sys, a: seq<Label>, m: Sys, b: seq<Label>, t: Sys)
    requires Follows(s, a, m) && Follows(m, b, t)
    ensures Follows(s, a + b, t)
    decreases |a|
  {
    if a == [] {
      assert a + b == b;
    } else {
      FollowsThen(Next(s, a[0]), a[1..], m, b, t);
      assert (a + b)[1..] == a[1..] + b;
    }
  }

  /** Following labels from a state of a run continues the run. */
  lemma {:induction false} FollowsContinues(states: seq<Sys>, before: seq<Label>, labels: seq<Label>, t: Sys)
    returns (all: seq<Sys>)
    requires IsRun(states, before) && Follows(states[|before|], labels, t)
    ensures IsRun(all, before + labels) && all[|before| + |labels|] == t && states <= all
    decreases |labels|
  {
    if labels == [] {
      all := states;
      assert before + labels == before;
    } else {
      var next := Next(states[|before|], labels[0]);
      var longer, more := states + [next], before + [labels[0]];
      forall i | 0 <= i < |more| ensures StepAt(longer, more, i) {
        if i < |before| {
          assert StepAt(states, before, i);
        }
      }
      all := FollowsContinues(longer, more, labels[1..], t);
      assert more + labels[1..] == before + labels;
    }
  }

  // ----- one execution

  /** The steps of an execution after its claim. */
  function SendingLabels(w: int, c: Claim, message: string, senders: Senders, at: int): seq<Label> {
    match SendClaimed(c, senders, message)
    case NoSender => [SenderMissing(w, at)]
    case Called(_, SendError(exc)) => [SenderEntered(w), SenderFails(w, exc, at)]
    case Called(_, Accepted(sid)) => [SenderEntered(w), SenderReturns(w, sid, at)]
  }

  function ExecutionLabels(w: int, c: Claim, weather: WeatherProvider, senders: Senders, at: int): seq<Label> {
    match weather(LookupFor(c))
    case WeatherError(exc, retryable) => [WeatherFails(w, exc, retryable, at)]
    case Weather(message) => [WeatherArrives(w, message)] + SendingLabels(w, c, message, senders, at)
  }

  /** What the protocol records for the calls of one claim. */
  function SentFor(c: Claim, calls: Calls): seq<Sent> {
    if calls.message != [] then [Sent(calls.message[0], c.row.zip, true)]
    else if calls.demo != [] then [Sent(calls.demo[0], c.row.zip, false)]
    else []
  }

  /** The worker once its claim is on record; an exception of the recording transaction ends
      a queue worker, and a dispatcher goes on. */
  function DoneWith(s: Sys, w: int, recorded: bool, action: Action): Worker
    requires Delivering(WorkerOf(s, w).job)
  {
    var x := WorkerOf(s, w);
    if x.job.Direct? then x.(job := DirectJob(x.job.claims[1..]))
    else if recorded then x.(job := Settling(x.job.receipt, action))
    else FREE
  }

  lemma FollowsOne(s: Sys, l: Label)
    requires Enabled(s, l)
    ensures Follows(s, [l], Next(s, l))
  {
    assert [l][1..] == [];
  }

  /** A final record is the last step of a delivery. */
  lemma FinishIsRun(s: Sys, l: Label)
    requires Finishes(l) && Enabled(s, l) && !l.WeatherFails?
    ensures var t := Next(s, l);
            && Follows(s, [l], t)
            && t.db == (if RecordOf(s, l).Ok? then RecordOf(s, l).value else s.db)
            && t.queue == s.queue && t.burned == s.burned && t.maxReceives == s.maxReceives && t.sent == s.sent
            && WorkerOf(t, l.w) == DoneWith(s, l.w, RecordOf(s, l).Ok?, Acknowledge)
  {
    FollowsOne(s, l);
  }

  /** The sender is entered, and what it replies is recorded. */
  lemma EnteredIsRun(s: Sys, w: int, l: Label)
    requires Enabled(s, SenderEntered(w)) && (l.SenderFails? || l.SenderReturns?) && l.w == w
    ensures var m := Next(s, SenderEntered(w));
            var t := Next(m, l);
            && Enabled(m, l)
            && Follows(s, [SenderEntered(w), l], t)
            && t.db == (if RecordOf(m, l).Ok? then RecordOf(m, l).value else s.db)
            && t.queue == s.queue && t.burned == s.burned && t.maxReceives == s.maxReceives && t.sent == m.sent
            && WorkerOf(t, w) == DoneWith(s, w, RecordOf(m, l).Ok?, Acknowledge)
  {
    var m := Next(s, SenderEntered(w));
    FinishIsRun(m, l);
    FollowsOne(s, SenderEntered(w));
    FollowsThen(s, [SenderEntered(w)], m, [l], Next(m, l));
    assert [SenderEntered(w)] + [l] == [SenderEntered(w), l];
  }

  /** The worker went from `s` to `t` and left there what its execution leaves. */
  ghost predicate Ran(s: Sys, w: int, x: Execution, t: Sys)
    requires Delivering(WorkerOf(s, w).job)
  {
    && t.db == x.store && t.queue == s.queue && t.burned == s.burned && t.maxReceives == s.maxReceives
    && t.sent == s.sent + SentFor(Head(WorkerOf(s, w).job), x.calls)
    && WorkerOf(t, w) == DoneWith(s, w, x.result.Ok? || x.result.error.ProviderError?, Acknowledge)
  }

  lemma AcceptedIsRun(s: Sys, w: int, message: string, senders: Senders, at: int) returns (t: Sys)
    requires Delivering(WorkerOf(s, w).job) && WorkerOf(s, w).job.phase == Rendered(message)
    requires var sending := SendClaimed(Head(WorkerOf(s, w).job), senders, message);
             sending.Called? && sending.reply.Accepted?
    ensures Ran(s, w, AfterWeather(s.db, Head(WorkerOf(s, w).job), message, senders, at), t)
    ensures Follows(s, SendingLabels(w, Head(WorkerOf(s, w).job), message, senders, at), t)
  {
    var sid := SendClaimed(Head(WorkerOf(s, w).job), senders, message).reply.sid;
    EnteredIsRun(s, w, SenderReturns(w, sid, at));
    t := Next(Next(s, SenderEntered(w)), SenderReturns(w, sid, at));
  }

  /** The sending part, run by a worker that has rendered its announcement. */
  lemma SendingIsRun(s: Sys, w: int, message: string, senders: Senders, at: int) returns (t: Sys)
    requires Delivering(WorkerOf(s, w).job) && WorkerOf(s, w).job.phase == Rendered(message)
    ensures Ran(s, w, AfterWeather(s.db, Head(WorkerOf(s, w).job), message, senders, at), t)
    ensures Follows(s, SendingLabels(w, Head(WorkerOf(s, w).job), message, senders, at), t)
  {
    match SendClaimed(Head(WorkerOf(s, w).job), senders, message)
    case NoSender =>
      FinishIsRun(s, SenderMissing(w, at));
      t := Next(s, SenderMissing(w, at));
    case Called(_, SendError(exc)) =>
      EnteredIsRun(s, w, SenderFails(w, exc, at));
      t := Next(Next(s, SenderEntered(w)), SenderFails(w, exc, at));
    case Called(_, Accepted(_)) =>
      t := AcceptedIsRun(s, w, message, senders, at);
  }

  lemma DirectIsRun(s: Sys, w: int, weather: WeatherProvider, senders: Senders, at: int) returns (t: Sys)
    requires WorkerOf(s, w).job.Direct? && Delivering(WorkerOf(s, w).job) && WorkerOf(s, w).job.phase.Fetching?
    ensures var job := WorkerOf(s, w).job;
            var x := Execute(s.db, Head(job), weather, senders, at);
            && Follows(s, ExecutionLabels(w, Head(job), weather, senders, at), t)
            && t.db == x.store && t.sent == s.sent + SentFor(Head(job), x.calls)
            && WorkerOf(t, w).job == DirectJob(job.claims[1..])
            && t.queue == s.queue && t.burned == s.burned
  {
    var job := WorkerOf(s, w).job;
    var labels := ExecutionLabels(w, Head(job), weather, senders, at);
    var reply := weather(LookupFor(Head(job)));
    var first := Next(s, labels[0]);
    if reply.WeatherError? {
      t := first;
      assert labels[1..] == [];
      assert Follows(first, [], t);
    } else {
      t := SendingIsRun(first, w, reply.message, senders, at);
      assert labels[1..] == SendingLabels(w, Head(job), reply.message, senders, at);
    }
  }

  /** The settling of a queue worker after its call, or its death when the call raised. */
  function AfterCall(x: Worker, receipt: Receipt, result: Outcome<Action>): Worker {
    if result.Ok? then x.(job := Settling(receipt, result.value)) else FREE
  }

  lemma QueuedExecutionIsRun(s: Sys, w: int, weather: WeatherProvider, senders: Senders, at: int) returns (t: Sys)
    requires WorkerOf(s, w).job.Queued? && WorkerOf(s, w).job.phase.Fetching?
    ensures var job := WorkerOf(s, w).job;
            var q := ExecuteQueued(s.db, job.claim, job.receipt.count, s.maxReceives, weather, senders, at);
            && Follows(s, ExecutionLabels(w, job.claim, weather, senders, at), t)
            && t.db == q.store && t.sent == s.sent + SentFor(job.claim, q.calls)
            && WorkerOf(t, w) == AfterCall(WorkerOf(s, w), job.receipt, q.result)
            && t.queue == s.queue && t.maxReceives == s.maxReceives
  {
    var job := WorkerOf(s, w).job;
    var labels := ExecutionLabels(w, job.claim, weather, senders, at);
    var reply := weather(LookupFor(job.claim));
    var first := Next(s, labels[0]);
    if reply.WeatherError? {
      t := first;
      assert labels[1..] == [];
      assert Follows(first, [], t);
    } else {
      t := SendingIsRun(first, w, reply.message, senders, at);
      assert labels[1..] == SendingLabels(w, job.claim, reply.message, senders, at);
    }
  }

  // ----- the record of the calls

  /** Every call to a sender is recorded, in order within each of the two senders. */
  ghost predicate Logs(sent: seq<Sent>, calls: Calls) {
    && calls.message == SendsOf(sent, true)
    && calls.demo == SendsOf(sent, false)
  }

  function SendsOf(sent: seq<Sent>, toMessageSender: bool): seq<Send> {
    if sent == [] then []
    else
      var n := |sent| - 1;
      SendsOf(sent[..n], toMessageSender) + (if sent[n].toMessageSender == toMessageSender then [sent[n].send] else [])
  }

  lemma LogsMore(sent: seq<Sent>, calls: Calls, c: Claim, more: Calls)
    requires Logs(sent, calls) && |more.message| + |more.demo| <= 1
    ensures Logs(sent + SentFor(c, more), Joined(calls, more))
  {
    var all := sent + SentFor(c, more);
    if SentFor(c, more) == [] {
      assert all == sent && Joined(calls, more) == calls;
    } else {
      assert all[..|all| - 1] == sent;
      if more.message != [] {
        assert more.message == [more.message[0]] && more.demo == [];
      } else {
        assert more.demo == [more.demo[0]];
      }
    }
  }

  // ----- a queued message

  function QueuedLabels(s: Store, w: int, id: int, gate: Gate, weather: WeatherProvider, senders: Senders,
                        clock: Clock): seq<Label>
    requires gate.grace >= 0
  {
    [StartQueued(w, clock.now, gate.grace, gate.allowReal)]
    + match ClaimQueued(s, id, clock.now, gate.grace, gate.allowReal).value.decision
      case Decided(_) => []
      case Granted(c) => ExecutionLabels(w, c, weather, senders, clock.later)
  }

  lemma QueuedSends(t: Store, c: Claim, receiveCount: int, maxReceives: int, weather: WeatherProvider, senders: Senders,
                    at: int)
    ensures var calls := ExecuteQueued(t, c, receiveCount, maxReceives, weather, senders, at).calls;
            Logs(SentFor(c, calls), calls)
  {
    var calls := ExecuteQueued(t, c, receiveCount, maxReceives, weather, senders, at).calls;
    LogsMore([], NO_CALLS, c, calls);
    assert [] + SentFor(c, calls) == SentFor(c, calls);
    assert Joined(NO_CALLS, calls) == calls;
  }

  /** The first step of the call: the claim is decided, or granted. */
  lemma StartIsClaim(s: Sys, w: int, now: int, grace: nat, allowReal: bool)
    requires Enabled(s, StartQueued(w, now, grace, allowReal))
    ensures var x := WorkerOf(s, w);
            var claimed := ClaimQueued(s.db, s.queue[x.inbox[0].msg].event, now, grace, allowReal);
            var t := Next(s, StartQueued(w, now, grace, allowReal));
            && claimed.Ok?
            && t.db == claimed.value.store && t.queue == s.queue && t.sent == s.sent && t.maxReceives == s.maxReceives
            && WorkerOf(t, w).inbox == x.inbox[1..]
            && WorkerOf(t, w).job == match claimed.value.decision
                                     case Decided(action) => Settling(x.inbox[0], action)
                                     case Granted(c) => Job.Queued(x.inbox[0], c, Fetching)
  {
  }

  /** An uninterrupted `process_queued_delivery` is a run of its worker: it takes the first
      message of the inbox, and then settles it, or dies of the exception. */
  lemma QueuedCallIsRun(s: Sys, w: int, gate: Gate, weather: WeatherProvider, senders: Senders, clock: Clock)
    returns (t: Sys, sent: seq<Sent>)
    requires var x := WorkerOf(s, w); x.job.Idle? && x.inbox != [] && x.inbox[0].msg in s.queue && x.inbox[0].count >= 1
    requires gate.grace >= 0 && gate.maxReceives == s.maxReceives >= 1
    ensures var x := WorkerOf(s, w);
            var id := s.queue[x.inbox[0].msg].event;
            var q := ProcessQueued(s.db, id, x.inbox[0].count, gate, weather, senders, clock);
            && Follows(s, QueuedLabels(s.db, w, id, gate, weather, senders, clock), t)
            && t.db == q.store && t.queue == s.queue && t.maxReceives == s.maxReceives
            && t.sent == s.sent + sent && Logs(sent, q.calls)
            && WorkerOf(t, w) == AfterCall(Worker(x.inbox[1..], Idle), x.inbox[0], q.result)
  {
    var x := WorkerOf(s, w);
    var id := s.queue[x.inbox[0].msg].event;
    var start := StartQueued(w, clock.now, gate.grace, gate.allowReal);
    var first := Next(s, start);
    StartIsClaim(s, w, clock.now, gate.grace, gate.allowReal);
    FollowsOne(s, start);
    if WorkerOf(first, w).job.Settling? {
      t, sent := first, [];
      assert QueuedLabels(s.db, w, id, gate, weather, senders, clock) == [start];
    } else {
      var c := WorkerOf(first, w).job.claim;
      t := QueuedExecutionIsRun(first, w, weather, senders, clock.later);
      sent := SentFor(c, ExecuteQueued(first.db, c, x.inbox[0].count, s.maxReceives, weather, senders,
                                       clock.later).calls);
      QueuedSends(first.db, c, x.inbox[0].count, s.maxReceives, weather, senders, clock.later);
      FollowsThen(s, [start], first, ExecutionLabels(w, c, weather, senders, clock.later), t);
    }
  }

  // ----- a batch of the dispatcher

  function ClaimsLabels(w: int, claims: seq<Claim>, weather: WeatherProvider, senders: Senders, at: int): seq<Label> {
    if claims == [] then []
    else
      var n := |claims| - 1;
      ClaimsLabels(w, claims[..n], weather, senders, at) + ExecutionLabels(w, claims[n], weather, senders, at)
  }

  /** A dispatcher in state `t` has executed the claims `done` and has `left` to do. */
  ghost predicate DispatchedTo(s: Sys, w: int, done: seq<Claim>, left: seq<Claim>, t: Sys, sent: seq<Sent>,
                               weather: WeatherProvider, senders: Senders, at: int)
  {
    var d := ExecuteEach(s.db, done, weather, senders, at);
    && Follows(s, ClaimsLabels(w, done, weather, senders, at), t)
    && t.db == d.store && WorkerOf(t, w).job == DirectJob(left)
    && t.sent == s.sent + sent && Logs(sent, d.calls)
  }

  lemma OneMoreExecuted(db: Store, done: seq<Claim>, c: Claim, sent: seq<Sent>, weather: WeatherProvider,
                        senders: Senders, at: int)
    requires Logs(sent, ExecuteEach(db, done, weather, senders, at).calls)
    ensures var before := ExecuteEach(db, done, weather, senders, at);
            var d := ExecuteEach(db, done + [c], weather, senders, at);
            var x := Execute(before.store, c, weather, senders, at);
            d.store == x.store && Logs(sent + SentFor(c, x.calls), d.calls)
  {
    assert (done + [c])[..|done|] == done;
    var before := ExecuteEach(db, done, weather, senders, at);
    LogsMore(sent, before.calls, c, Execute(before.store, c, weather, senders, at).calls);
  }

  lemma OneMoreLabelled(s: Sys, w: int, done: seq<Claim>, c: Claim, m: Sys, t: Sys, weather: WeatherProvider,
                        senders: Senders, at: int)
    requires Follows(s, ClaimsLabels(w, done, weather, senders, at), m)
    requires Follows(m, ExecutionLabels(w, c, weather, senders, at), t)
    ensures Follows(s, ClaimsLabels(w, done + [c], weather, senders, at), t)
  {
    assert (done + [c])[..|done|] == done;
    FollowsThen(s, ClaimsLabels(w, done, weather, senders, at), m, ExecutionLabels(w, c, weather, senders, at), t);
  }

  lemma OneMoreClaim(s: Sys, w: int, done: seq<Claim>, left: seq<Claim>, m: Sys, sent: seq<Sent>,
                     weather: WeatherProvider, senders: Senders, at: int)
    returns (t: Sys, more: seq<Sent>)
    requires left != [] && DispatchedTo(s, w, done, left, m, sent, weather, senders, at)
    ensures DispatchedTo(s, w, done + [left[0]], left[1..], t, more, weather, senders, at)
  {
    var c := left[0];
    var x := Execute(m.db, c, weather, senders, at);
    t := DirectIsRun(m, w, weather, senders, at);
    more := sent + SentFor(c, x.calls);
    OneMoreExecuted(s.db, done, c, sent, weather, senders, at);
    OneMoreLabelled(s, w, done, c, m, t, weather, senders, at);
    assert s.sent + sent + SentFor(c, x.calls) == s.sent + more;
  }

  /** The first `n` claims of a dispatcher, one after the other. */
  lemma {:induction false} ClaimsAreRun(s: Sys, w: int, claims: seq<Claim>, n: nat, weather: WeatherProvider,
                                        senders: Senders, at: int)
    returns (t: Sys, sent: seq<Sent>)
    requires WorkerOf(s, w).job == DirectJob(claims) && n <= |claims|
    ensures DispatchedTo(s, w, claims[..n], claims[n..], t, sent, weather, senders, at)
    decreases n
  {
    if n == 0 {
      t, sent := s, [];
      assert claims[0..] == claims;
    } else {
      var m, before := ClaimsAreRun(s, w, claims, n - 1, weather, senders, at);
      assert claims[..n] == claims[..n - 1] + [claims[n - 1..][0]] && claims[n..] == claims[n - 1..][1..];
      t, sent := OneMoreClaim(s, w, claims[..n - 1], claims[n - 1..], m, before, weather, senders, at);
    }
  }

  /** An uninterrupted `dispatch_due_events` is a run of one dispatcher. */
  lemma DispatchIsRun(s: Sys, w: int, locked: set<int>, size: int, grace: nat, includeReal: bool,
                      weather: WeatherProvider, senders: Senders, clock: Clock)
    returns (t: Sys, labels: seq<Label>, sent: seq<Sent>)
    requires WorkerOf(s, w).job.Idle? && 1 <= size <= MAX_BATCH_SIZE
    ensures var b := ClaimBatch(s.db, locked, clock.now, size, grace, includeReal).value;
            var d := ExecuteEach(b.store, b.deliveries, weather, senders, clock.later);
            && Follows(s, labels, t)
            && t.db == d.store && WorkerOf(t, w).job.Idle?
            && t.sent == s.sent + sent && Logs(sent, d.calls)
  {
    var b := ClaimBatch(s.db, locked, clock.now, size, grace, includeReal).value;
    var start := StartBatch(w, locked, clock.now, size, grace, includeReal);
    var m := Next(s, start);
    var n := |b.deliveries|;
    assert b.deliveries[..n] == b.deliveries;
    t, sent := ClaimsAreRun(m, w, b.deliveries, n, weather, senders, clock.later);
    labels := [start] + ClaimsLabels(w, b.deliveries, weather, senders, clock.later);
    assert labels[1..] == ClaimsLabels(w, b.deliveries, weather, senders, clock.later);
  }

  /** An uninterrupted `deliver_scheduled_event` that is granted its claim is a run of one
      dispatcher with a single claim. */
  lemma DeliverIsRun(s: Sys, w: int, event: int, weather: WeatherProvider, senders: Senders, clock: Clock)
    returns (t: Sys)
    requires WorkerOf(s, w).job.Idle?
    requires ClaimDirect(s.db, event, clock.now).Ok? && ClaimDirect(s.db, event, clock.now).value.claim.Some?
    ensures var d := ClaimDirect(s.db, event, clock.now).value;
            var x := Execute(d.store, d.claim.value, weather, senders, clock.later);
            && Follows(s, [StartDirect(w, event, clock.now)]
                       + ExecutionLabels(w, d.claim.value, weather, senders, clock.later), t)
            && t.db == x.store && t.sent == s.sent + SentFor(d.claim.value, x.calls)
            && WorkerOf(t, w).job.Idle? && t.queue == s.queue
  {
    var start := StartDirect(w, event, clock.now);
    var c := ClaimDirect(s.db, event, clock.now).value.claim.value;
    var m := Next(s, start);
    FollowsOne(s, start);
    t := DirectIsRun(m, w, weather, senders, clock.later);
    FollowsThen(s, [start], m, ExecutionLabels(w, c, weather, senders, clock.later), t);
  }
}
