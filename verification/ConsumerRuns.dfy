/** Runs of the consumer: any interleaving of requests, fetch completions and fetch errors. */
module ConsumerRuns {
  import opened Options
  import opened Names
  import opened Consumer
  import opened AbeSupport
  import opened ByteStrings
  import opened Packets
  import ParamFetcher

  ghost predicate ValidRun(h: Host, s: State, events: seq<Event>)
    decreases |events|
  {
    events == [] || (Enabled(h, s, events[0]) && ValidRun(h, Step(h, s, events[0]), events[1..]))
  }

  ghost function Run(h: Host, s: State, events: seq<Event>): State
    requires ValidRun(h, s, events)
    decreases |events|
  {
    if events == [] then s else Run(h, Step(h, s, events[0]), events[1..])
  }

  lemma {:induction false} RunsCompose(h: Host, s: State, a: seq<Event>, b: seq<Event>)
    requires ValidRun(h, s, a) && ValidRun(h, Run(h, s, a), b)
    ensures ValidRun(h, s, a + b) && Run(h, s, a + b) == Run(h, Run(h, s, a), b)
    decreases |a|
  {
    hide Step, Enabled;
    if a == [] {
      assert a + b == b;
    } else {
      assert (a + b)[1..] == a[1..] + b;
      RunsCompose(h, Step(h, s, a[0]), a[1..], b);
    }
  }

  /** Every lemma below about runs from a state with the invariants applies to runs from the start. */
  lemma InitialState()
    ensures EngineInv(INITIAL) && ParamsBeforeUse(INITIAL) && RequestsAccounted(INITIAL)
    ensures forall ck :: BalancedFor(INITIAL, ck)
  {
    assert INITIAL.ckFetches == multiset(INITIAL.inFlight);
    forall ck
      ensures BalancedFor(INITIAL, ck)
    {
      assert Reqs(Queue(INITIAL, ck)) == [];
    }
  }

  lemma {:induction false} RunKeepsInv(h: Host, s: State, events: seq<Event>)
    requires EngineInv(s) && ValidRun(h, s, events)
    ensures EngineInv(Run(h, s, events))
    decreases |events|
  {
    if events != [] {
      StepKeepsInv(h, s, events[0]);
      RunKeepsInv(h, Step(h, s, events[0]), events[1..]);
    }
  }

  // ---------- Each CK is fetched successfully at most once ----------

  function Completes(e: Event, ck: Name): nat {
    if e.CkArrived? && e.ck == ck then 1 else 0
  }

  function Completions(events: seq<Event>, ck: Name): nat {
    if events == [] then 0 else Completes(events[0], ck) + Completions(events[1..], ck)
  }

  function Cached(s: State, ck: Name): nat {
    if ck in s.encAes then 1 else 0
  }

  lemma StepCaches(h: Host, s: State, e: Event, ck: Name)
    requires EngineInv(s) && Enabled(h, s, e)
    ensures Cached(Step(h, s, e), ck) == Cached(s, ck) + Completes(e, ck)
  {
    if e.CkArrived? {
      assert e.ck in s.inFlight;
    }
  }

  /** A name is cached after exactly one completed fetch, and a cached name is never fetched again. */
  lemma {:induction false} FetchedAtMostOnce(h: Host, s: State, events: seq<Event>, ck: Name)
    requires EngineInv(s) && ValidRun(h, s, events)
    ensures Cached(s, ck) + Completions(events, ck) == Cached(Run(h, s, events), ck) <= 1
    decreases |events|
  {
    if events != [] {
      StepCaches(h, s, events[0], ck);
      StepKeepsInv(h, s, events[0]);
      FetchedAtMostOnce(h, Step(h, s, events[0]), events[1..], ck);
    }
  }

  // ---------- Ready implies supported ----------

  /** Some fetch is outstanding or has filled the cache. */
  predicate Started(s: State) {
    s.dataFetches != multiset{} || s.inFlight != {} || s.encAes != map[]
  }

  predicate ParamsBeforeUse(s: State) {
    Started(s) ==> s.params.pub != []
  }

  lemma StepKeepsParams(h: Host, s: State, e: Event)
    requires EngineInv(s) && Enabled(h, s, e) && ParamsBeforeUse(s)
    ensures ParamsBeforeUse(Step(h, s, e))
  {
    hide ParseDataContent, ParseCk, FanOut, RunTask;
    if e.CkArrived? || e.CkFailed? {
      assert e.ck in s.inFlight;
    }
  }

  /** In every reachable state where the consumer is ready, or has anything to decrypt, the ABE type
      is CP-ABE or KP-ABE: no decryption ends in the unsupported branch. */
  lemma {:induction false} ReadyIsSupported(h: Host, s: State, events: seq<Event>)
    requires EngineInv(s) && ParamsBeforeUse(s) && ValidRun(h, s, events)
    ensures var s' := Run(h, s, events);
            Ready(s') || Started(s') ==> ParamFetcher.SchemaOf(s'.params.abeType).Some?
    decreases |events|
  {
    if events != [] {
      StepKeepsInv(h, s, events[0]);
      StepKeepsParams(h, s, events[0]);
      ReadyIsSupported(h, Step(h, s, events[0]), events[1..]);
    }
  }

  // ---------- Exactly-once delivery, in arrival order ----------

  function Reqs(ts: seq<Task>): seq<Request> {
    seq(|ts|, i requires 0 <= i < |ts| => ts[i].req)
  }

  /** The requests of a log, and those called back while waiting for a given CK (None: before their
      packet arrived), in order. */
  function LogReqs(log: seq<Delivery>): seq<Request> {
    seq(|log|, i requires 0 <= i < |log| => log[i].req)
  }

  function CalledBack(log: seq<Delivery>, ck: Option<Name>): seq<Request> {
    if log == [] then []
    else
      var n := |log| - 1;
      CalledBack(log[..n], ck) + (if log[n].ck == ck then [log[n].req] else [])
  }

  /** The requests whose packets named a given CK, in order of arrival. */
  function Arrived(arrivals: seq<Task>, ck: Name): seq<Request> {
    if arrivals == [] then []
    else
      var n := |arrivals| - 1;
      Arrived(arrivals[..n], ck) + (if arrivals[n].ck == ck then [arrivals[n].req] else [])
  }

  /** The books balance for one CK: those called back, then those queued, are those that arrived,
      in that order. So nobody is lost, duplicated or overtaken. */
  predicate BalancedFor(s: State, ck: Name) {
    CalledBack(s.book.log, Some(ck)) + Reqs(Queue(s, ck)) == Arrived(s.arrivals, ck)
  }

  /** Every accepted request awaits its packet, was refused or failed before it, or has arrived. */
  predicate RequestsAccounted(s: State) {
    AllBut(s, multiset{})
  }

  predicate AllBut(s: State, missing: multiset<Request>) {
    multiset(s.requested)
    == s.dataFetches + multiset(CalledBack(s.book.log, None)) + multiset(Reqs(s.arrivals)) + missing
  }

  lemma CalledBackSnoc(log: seq<Delivery>, d: Delivery, ck: Option<Name>)
    ensures CalledBack(log + [d], ck) == CalledBack(log, ck) + (if d.ck == ck then [d.req] else [])
  {
    assert (log + [d])[..|log|] == log;
  }

  lemma ArrivedSnoc(arrivals: seq<Task>, t: Task, ck: Name)
    ensures Arrived(arrivals + [t], ck) == Arrived(arrivals, ck) + (if t.ck == ck then [t.req] else [])
    ensures Reqs(arrivals + [t]) == Reqs(arrivals) + [t.req]
  {
    assert (arrivals + [t])[..|arrivals|] == arrivals;
  }

  lemma RunTaskLog(d: Decryptor, b: Book, enc: Bytes, t: Task)
    ensures exists outcome :: RunTask(d, b, enc, t).log == b.log + [Delivery(t.req, Some(t.ck), outcome)]
  {
    var log := RunTask(d, b, enc, t).log;
    assert log == b.log + [Delivery(t.req, Some(t.ck), log[|b.log|].outcome)];
  }

  function WhenFor(ts: seq<Task>, ck: Name, key: Option<Name>): seq<Request> {
    if key == Some(ck) then Reqs(ts) else []
  }

  /** One more callback of a waiter of ck, in the words of `WhenFor`. */
  lemma OneMoreCalledBack(log: seq<Delivery>, before: seq<Delivery>, d: Delivery, ts: seq<Task>, ck: Name, key: Option<Name>)
    requires WaitersFor(ts, ck) && ts != []
    requires d.req == ts[|ts| - 1].req && d.ck == Some(ck)
    requires CalledBack(before, key) == CalledBack(log, key) + WhenFor(ts[..|ts| - 1], ck, key)
    ensures CalledBack(before + [d], key) == CalledBack(log, key) + WhenFor(ts, ck, key)
  {
    WaitersPrefix(ts, ck);
    CalledBackSnoc(before, d, key);
    hide CalledBack, Reqs;
  }

  lemma {:induction false} FanOutCallsBack(d: Decryptor, b: Book, enc: Bytes, ts: seq<Task>, ck: Name, key: Option<Name>)
    requires WaitersFor(ts, ck)
    ensures CalledBack(FanOut(d, b, enc, ts).log, key) == CalledBack(b.log, key) + WhenFor(ts, ck, key)
  {
    hide CalledBack, WhenFor, RunTask;
    if ts == [] {
      assert CalledBack(b.log, key) + WhenFor([], ck, key) == CalledBack(b.log, key) by {
        NobodyYet(ck, key);
      }
    } else {
      var n := |ts| - 1;
      WaitersPrefix(ts, ck);
      FanOutCallsBack(d, b, enc, ts[..n], ck, key);
      var b' := FanOut(d, b, enc, ts[..n]);
      RunTaskLog(d, b', enc, ts[n]);
      var outcome :| RunTask(d, b', enc, ts[n]).log == b'.log + [Delivery(ts[n].req, Some(ts[n].ck), outcome)];
      OneMoreCalledBack(b.log, b'.log, Delivery(ts[n].req, Some(ts[n].ck), outcome), ts, ck, key);
    }
  }

  lemma NobodyYet(ck: Name, key: Option<Name>)
    ensures WhenFor([], ck, key) == []
  {
    assert Reqs([]) == [];
  }

  lemma WaitersPrefix(ts: seq<Task>, ck: Name)
    requires WaitersFor(ts, ck) && ts != []
    ensures WaitersFor(ts[..|ts| - 1], ck) && TaskWaitsFor(ts[|ts| - 1], ck)
    ensures Reqs(ts) == Reqs(ts[..|ts| - 1]) + [ts[|ts| - 1].req]
  {
    assert forall i :: 0 <= i < |ts| ==> TaskWaitsFor(ts[i], ck);
  }

  lemma {:induction false} ErrorsCallBack(log: seq<Delivery>, ts: seq<Task>, message: string, ck: Name, key: Option<Name>)
    requires WaitersFor(ts, ck)
    ensures CalledBack(log + ErrorsFor(ts, message), key) == CalledBack(log, key) + WhenFor(ts, ck, key)
  {
    hide CalledBack, WhenFor;
    if ts == [] {
      assert log + ErrorsFor(ts, message) == log;
      NobodyYet(ck, key);
    } else {
      var n := |ts| - 1;
      WaitersPrefix(ts, ck);
      ErrorsCallBack(log, ts[..n], message, ck, key);
      var before, d := log + ErrorsFor(ts[..n], message), Delivery(ts[n].req, Some(ts[n].ck), Failure(message));
      assert log + ErrorsFor(ts, message) == before + [d];
      OneMoreCalledBack(log, before, d, ts, ck, key);
    }
  }

  lemma CachedArrival(h: Host, s: State, t: Task, key: Option<Name>)
    requires t.ck in s.encAes
    ensures CalledBack(DecryptContent(h, s, t).book.log, key)
         == CalledBack(s.book.log, key) + (if key == Some(t.ck) then [t.req] else [])
  {
    RunTaskLog(DecryptorOf(h, s), s.book, s.encAes[t.ck], t);
    var outcome :| DecryptContent(h, s, t).book.log == s.book.log + [Delivery(t.req, Some(t.ck), outcome)];
    CalledBackSnoc(s.book.log, Delivery(t.req, Some(t.ck), outcome), key);
  }

  lemma CachedArrivalBalances(h: Host, s: State, t: Task, ck: Name)
    requires t.ck in s.encAes && BalancedFor(s, ck) && Queue(s, t.ck) == []
    ensures BalancedFor(DecryptContent(h, s, t), ck)
  {
    ArrivedSnoc(s.arrivals, t, ck);
    CachedArrival(h, s, t, Some(ck));
    if t.ck == ck {
      assert Reqs(Queue(s, ck)) == [];
    }
  }

  lemma WaitingArrivalBalances(h: Host, s: State, t: Task, ck: Name)
    requires t.ck !in s.encAes && BalancedFor(s, ck)
    ensures BalancedFor(DecryptContent(h, s, t), ck)
  {
    ArrivedSnoc(s.arrivals, t, ck);
    var s' := DecryptContent(h, s, t);
    if t.ck == ck {
      assert Queue(s', ck) == Queue(s, ck) + [t];
      assert Reqs(Queue(s', ck)) == Reqs(Queue(s, ck)) + [t.req];
    } else {
      assert Queue(s', ck) == Queue(s, ck);
    }
  }

  lemma ArrivalBalances(h: Host, s: State, t: Task, ck: Name)
    requires EngineInv(s) && BalancedFor(s, ck)
    ensures BalancedFor(DecryptContent(h, s, t), ck)
  {
    if t.ck in s.encAes {
      CachedArrivalBalances(h, s, t, ck);
    } else {
      WaitingArrivalBalances(h, s, t, ck);
    }
  }

  lemma ArrivalAccounts(h: Host, s: State, t: Task)
    requires AllBut(s, multiset{t.req})
    ensures RequestsAccounted(DecryptContent(h, s, t))
  {
    ArrivedSnoc(s.arrivals, t, []);
    if t.ck in s.encAes {
      CachedArrival(h, s, t, None);
    }
  }

  lemma AcceptAccounts(s: State, req: Request)
    requires RequestsAccounted(s)
    ensures AllBut(Accept(s, req), multiset{req})
  {
  }

  lemma PacketAccounts(s: State, req: Request)
    requires RequestsAccounted(s) && req in s.dataFetches
    ensures AllBut(s.(dataFetches := s.dataFetches - multiset{req}), multiset{req})
  {
  }

  lemma QueueWaits(s: State, ck: Name)
    requires EngineInv(s)
    ensures WaitersFor(Queue(s, ck), ck)
  {
  }

  lemma CompletionCallsBack(h: Host, s: State, name: Name, enc: Bytes, key: Option<Name>)
    requires EngineInv(s)
    ensures CalledBack(OnCkComplete(h, s, name, enc).book.log, key)
         == CalledBack(s.book.log, key) + WhenFor(Queue(s, name), name, key)
  {
    QueueWaits(s, name);
    FanOutCallsBack(DecryptorOf(h, s), s.book, enc, Queue(s, name), name, key);
  }

  lemma ErrorCallsBack(s: State, name: Name, message: string, key: Option<Name>)
    requires EngineInv(s)
    ensures CalledBack(OnCkError(s, name, message).book.log, key)
         == CalledBack(s.book.log, key) + WhenFor(Queue(s, name), name, key)
  {
    QueueWaits(s, name);
    ErrorsCallBack(s.book.log, Queue(s, name), message, name, key);
  }

  lemma EndOfFetchAccounts(s: State, s': State, ts: seq<Task>, name: Name)
    requires RequestsAccounted(s)
    requires s'.requested == s.requested && s'.dataFetches == s.dataFetches && s'.arrivals == s.arrivals
    requires CalledBack(s'.book.log, None) == CalledBack(s.book.log, None) + WhenFor(ts, name, None)
    ensures RequestsAccounted(s')
  {
    assert CalledBack(s'.book.log, None) == CalledBack(s.book.log, None);
  }

  /** A finished fetch moves its whole queue behind those already called back. */
  lemma EndOfFetchBalances(s: State, s': State, name: Name, ck: Name)
    requires BalancedFor(s, ck) && s'.pending == s.pending - {name} && s'.arrivals == s.arrivals
    requires CalledBack(s'.book.log, Some(ck)) == CalledBack(s.book.log, Some(ck)) + WhenFor(Queue(s, name), name, Some(ck))
    ensures BalancedFor(s', ck)
  {
    if name == ck {
      assert Queue(s', ck) == [];
    } else {
      assert Queue(s', ck) == Queue(s, ck);
    }
  }

  lemma EarlyBalances(s: State, req: Request, message: string, ck: Name)
    requires BalancedFor(s, ck)
    ensures BalancedFor(Early(s, req, message), ck)
  {
    CalledBackSnoc(s.book.log, Delivery(req, None, Failure(message)), Some(ck));
  }

  lemma EarlyAccounts(s: State, req: Request, message: string)
    requires AllBut(s, multiset{req})
    ensures RequestsAccounted(Early(s, req, message))
  {
    CalledBackSnoc(s.book.log, Delivery(req, None, Failure(message)), None);
  }

  /** Every step keeps the books balanced for every CK. */
  lemma StepKeepsBalance(h: Host, s: State, e: Event, ck: Name)
    requires EngineInv(s) && Enabled(h, s, e) && BalancedFor(s, ck)
    ensures BalancedFor(Step(h, s, e), ck)
  {
    match e
    case Consume(req) => EarlyBalances(Accept(s, req), req, NOT_READY, ck);
    case ConsumeBlock(req, wire) =>
      if Ready(s) {
        ArrivalBalances(h, Accept(s, req), TaskOf(req, wire), ck);
      } else {
        EarlyBalances(Accept(s, req), req, NOT_READY, ck);
      }
    case DataArrived(req, wire) =>
      ArrivalBalances(h, s.(dataFetches := s.dataFetches - multiset{req}), TaskOf(req, wire), ck);
    case DataFailed(req, message) =>
      EarlyBalances(s.(dataFetches := s.dataFetches - multiset{req}), req, DATA_FAILED + message, ck);
    case CkArrived(name, wire) =>
      var enc := ParseCk(wire).value;
      CompletionCallsBack(h, s, name, enc, Some(ck));
      EndOfFetchBalances(s, OnCkComplete(h, s, name, enc), name, ck);
    case CkFailed(name, message) =>
      ErrorCallsBack(s, name, message, Some(ck));
      EndOfFetchBalances(s, OnCkError(s, name, message), name, ck);
    case _ =>
  }

  lemma FetchEndAccounts(h: Host, s: State, e: Event)
    requires EngineInv(s) && Enabled(h, s, e) && RequestsAccounted(s) && (e.CkArrived? || e.CkFailed?)
    ensures RequestsAccounted(Step(h, s, e))
  {
    hide ParseCk, RequestsAccounted, FanOut, CalledBack;
    match e
    case CkArrived(name, wire) =>
      var enc := ParseCk(wire).value;
      CompletionCallsBack(h, s, name, enc, None);
      EndOfFetchAccounts(s, OnCkComplete(h, s, name, enc), Queue(s, name), name);
    case CkFailed(name, message) =>
      ErrorCallsBack(s, name, message, None);
      EndOfFetchAccounts(s, OnCkError(s, name, message), Queue(s, name), name);
  }

  lemma StepKeepsAccounts(h: Host, s: State, e: Event)
    requires EngineInv(s) && Enabled(h, s, e) && RequestsAccounted(s)
    ensures RequestsAccounted(Step(h, s, e))
  {
    hide ParseDataContent, ParseCk, EngineInv, CalledBack, DecryptContent, OnCkComplete, OnCkError;
    match e
    case Consume(req) =>
      AcceptAccounts(s, req);
      EarlyAccounts(Accept(s, req), req, NOT_READY);
    case ConsumeBlock(req, wire) =>
      AcceptAccounts(s, req);
      if Ready(s) {
        ArrivalAccounts(h, Accept(s, req), TaskOf(req, wire));
      } else {
        EarlyAccounts(Accept(s, req), req, NOT_READY);
      }
    case DataArrived(req, wire) =>
      PacketAccounts(s, req);
      ArrivalAccounts(h, s.(dataFetches := s.dataFetches - multiset{req}), TaskOf(req, wire));
    case DataFailed(req, message) =>
      PacketAccounts(s, req);
      EarlyAccounts(s.(dataFetches := s.dataFetches - multiset{req}), req, DATA_FAILED + message);
    case CkArrived(_, _) => FetchEndAccounts(h, s, e);
    case CkFailed(_, _) => FetchEndAccounts(h, s, e);
    case _ =>
  }

  /** In every reachable state every accepted request is in exactly one place, and the waiters of
      each CK are called back in the order in which they arrived. */
  lemma {:induction false} RunKeepsBooks(h: Host, s: State, events: seq<Event>)
    requires EngineInv(s) && ValidRun(h, s, events)
    requires RequestsAccounted(s) && forall ck :: BalancedFor(s, ck)
    ensures EngineInv(Run(h, s, events)) && RequestsAccounted(Run(h, s, events))
    ensures forall ck :: BalancedFor(Run(h, s, events), ck)
    decreases |events|
  {
    if events != [] {
      StepKeepsInv(h, s, events[0]);
      StepKeepsAccounts(h, s, events[0]);
      forall ck
        ensures BalancedFor(Step(h, s, events[0]), ck)
      {
        StepKeepsBalance(h, s, events[0], ck);
      }
      RunKeepsBooks(h, Step(h, s, events[0]), events[1..]);
    }
  }

  // ---------- From per-name books to one total ----------

  function Tagged(log: seq<Delivery>): seq<(Name, Request)> {
    if log == [] then []
    else
      var n := |log| - 1;
      Tagged(log[..n]) + (if log[n].ck.Some? then [(log[n].ck.value, log[n].req)] else [])
  }

  function TaggedTasks(ts: seq<Task>): seq<(Name, Request)> {
    seq(|ts|, i requires 0 <= i < |ts| => (ts[i].ck, ts[i].req))
  }

  function Untag(ps: seq<(Name, Request)>): seq<Request> {
    seq(|ps|, i requires 0 <= i < |ps| => ps[i].1)
  }

  lemma {:induction false} TaggedCounts(log: seq<Delivery>, ck: Name, req: Request)
    ensures multiset(Tagged(log))[(ck, req)] == multiset(CalledBack(log, Some(ck)))[req]
  {
    if log != [] {
      TaggedCounts(log[..|log| - 1], ck, req);
    }
  }

  lemma {:induction false} EarlyOrTagged(log: seq<Delivery>)
    ensures multiset(LogReqs(log)) == multiset(CalledBack(log, None)) + multiset(Untag(Tagged(log)))
  {
    if log != [] {
      var n := |log| - 1;
      EarlyOrTagged(log[..n]);
      assert LogReqs(log) == LogReqs(log[..n]) + [log[n].req];
      if log[n].ck.Some? {
        assert Untag(Tagged(log)) == Untag(Tagged(log[..n])) + [log[n].req];
      } else {
        assert Tagged(log) == Tagged(log[..n]);
      }
    }
  }

  lemma {:induction false} TaskCounts(ts: seq<Task>, ck: Name, req: Request)
    ensures multiset(TaggedTasks(ts))[(ck, req)] == multiset(Arrived(ts, ck))[req]
  {
    if ts != [] {
      var n := |ts| - 1;
      TaskCounts(ts[..n], ck, req);
      assert TaggedTasks(ts) == TaggedTasks(ts[..n]) + [(ts[n].ck, ts[n].req)];
    }
  }

  lemma UntagWithout(b: seq<(Name, Request)>, i: nat)
    requires i < |b|
    ensures multiset(b) == multiset(b[..i] + b[i + 1..]) + multiset{b[i]}
    ensures multiset(Untag(b)) == multiset(Untag(b[..i] + b[i + 1..])) + multiset{b[i].1}
  {
    var u := Untag(b);
    assert b == b[..i] + [b[i]] + b[i + 1..];
    assert u == u[..i] + [u[i]] + u[i + 1..];
    assert Untag(b[..i] + b[i + 1..]) == u[..i] + u[i + 1..];
  }

  lemma {:induction false} UntagMultiset(a: seq<(Name, Request)>, b: seq<(Name, Request)>)
    requires multiset(a) == multiset(b)
    ensures multiset(Untag(a)) == multiset(Untag(b))
  {
    if a == [] {
      assert |b| == |multiset(b)| == 0;
    } else {
      assert a[0] in multiset(b);
      var i :| 0 <= i < |b| && b[i] == a[0];
      UntagWithout(a, 0);
      UntagWithout(b, i);
      var a', b' := a[..0] + a[0 + 1..], b[..i] + b[i + 1..];
      assert multiset(a') == multiset(a) - multiset{a[0]} && multiset(b') == multiset(b) - multiset{b[i]};
      UntagMultiset(a', b');
    }
  }

  predicate Quiescent(s: State) {
    s.dataFetches == multiset{} && s.ckFetches == multiset{}
  }

  lemma NothingQueued(s: State)
    requires EngineInv(s) && Quiescent(s)
    ensures forall ck :: Queue(s, ck) == []
  {
    forall ck
      ensures Queue(s, ck) == []
    {
      assert ck in s.inFlight ==> ck in s.ckFetches;
    }
  }

  lemma SameTags(s: State)
    requires forall ck :: BalancedFor(s, ck) && Queue(s, ck) == []
    ensures multiset(Tagged(s.book.log)) == multiset(TaggedTasks(s.arrivals))
  {
    forall p: (Name, Request)
      ensures multiset(Tagged(s.book.log))[p] == multiset(TaggedTasks(s.arrivals))[p]
    {
      TaggedCounts(s.book.log, p.0, p.1);
      TaskCounts(s.arrivals, p.0, p.1);
      assert BalancedFor(s, p.0) && Reqs(Queue(s, p.0)) == [];
    }
  }

  /** The calls of `consume` in a run. */
  function RequestsIn(events: seq<Event>): seq<Request> {
    if events == [] then []
    else RequestsOf(events[0]) + RequestsIn(events[1..])
  }

  function RequestsOf(e: Event): seq<Request> {
    if e.Consume? || e.ConsumeBlock? then [e.req] else []
  }

  lemma NoRequests()
    ensures RequestsIn([]) == []
  {
  }

  lemma FirstRequests(events: seq<Event>)
    requires events != []
    ensures RequestsIn(events) == RequestsOf(events[0]) + RequestsIn(events[1..])
  {
  }

  lemma StepRequests(h: Host, s: State, e: Event)
    requires Enabled(h, s, e)
    ensures Step(h, s, e).requested == s.requested + RequestsOf(e)
  {
  }

  lemma {:induction false} RunRequests(h: Host, s: State, events: seq<Event>)
    requires ValidRun(h, s, events)
    ensures Run(h, s, events).requested == s.requested + RequestsIn(events)
    decreases |events|
  {
    hide Step, Enabled, RequestsIn;
    if events == [] {
      assert RequestsIn([]) == [] by { NoRequests(); }
    } else {
      StepRequests(h, s, events[0]);
      FirstRequests(events);
      RunRequests(h, Step(h, s, events[0]), events[1..]);
      var s' := Step(h, s, events[0]);
      assert s'.requested + RequestsIn(events[1..]) == s.requested + (RequestsOf(events[0]) + RequestsIn(events[1..]));
    }
  }

  /** When no fetch is outstanding every call of `consume` has been called back exactly once. */
  lemma ExactlyOnce(h: Host, events: seq<Event>)
    requires ValidRun(h, INITIAL, events)
    ensures var s := Run(h, INITIAL, events);
            && s.requested == RequestsIn(events)
            && (Quiescent(s) ==> multiset(LogReqs(s.book.log)) == multiset(RequestsIn(events)))
  {
    RunRequests(h, INITIAL, events);
    InitialState();
    RunKeepsBooks(h, INITIAL, events);
    var s := Run(h, INITIAL, events);
    if Quiescent(s) {
      NothingQueued(s);
      SameTags(s);
      UntagMultiset(Tagged(s.book.log), TaggedTasks(s.arrivals));
      assert Untag(TaggedTasks(s.arrivals)) == Reqs(s.arrivals);
      EarlyOrTagged(s.book.log);
    }
  }
}
