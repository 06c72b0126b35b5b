/** The four roles together: what a producer encrypts for a rule is what a decryptor whose key came
    from the authority consumes, exactly when its grant satisfies the rule. */
module EndToEnd {
  import opened Options
  import opened ByteStrings
  import opened Tlv
  import opened Names
  import opened Crypto
  import opened AbeSupport
  import opened Packets
  import opened Producer
  import opened Consumer
  import opened ConsumerRuns
  import opened ConsumerRefinement
  import Attributes
  import ParamFetcher
  import Authority
  import CacheProducer

  // ---------- Where every outcome comes from ----------

  /** A run's record of what happened so far contains the event. */
  predicate Delivered(past: seq<Event>, t: Task) {
    exists i :: 0 <= i < |past| && Delivers(past[i], t)
  }

  predicate Delivers(e: Event, t: Task) {
    match e
    case ConsumeBlock(req, wire) => WellFormedContent(wire) && t == TaskOf(req, wire)
    case DataArrived(req, wire) => WellFormedContent(wire) && t == TaskOf(req, wire)
    case _ => false
  }

  /** The outcome of decrypting under the CK the packet names, with nothing remembered. */
  predicate OwnOutcome(w: World, s: State, t: Task, d: Delivery) {
    WellFormedCk(w.ckWire(t.ck)) && d == Answer(DecryptorOf(w.host, s), EncAt(w, t.ck), t)
  }

  /** Callback k is what an error of the fetch of a CK makes of the waiter whose turn it is. */
  predicate MadeByError(before: State, ck: Name, message: string, k: nat, d: Delivery) {
    var i := k - |before.book.log|;
    && ck in before.inFlight && 0 <= i < |Queue(before, ck)|
    && d == Delivery(Queue(before, ck)[i].req, Some(ck), Failure(message))
  }

  /** Event j is the error of the very fetch that the request of callback k was queued on. */
  ghost predicate FailedAt(h: Host, past: seq<Event>, j: nat, k: nat, d: Delivery) {
    && j < |past| && past[j].CkFailed? && ValidRun(h, INITIAL, past[..j])
    && MadeByError(Run(h, INITIAL, past[..j]), past[j].ck, past[j].message, k, d)
  }

  ghost predicate ReportedError(h: Host, past: seq<Event>, k: nat, d: Delivery) {
    exists j :: 0 <= j < |past| && FailedAt(h, past, j, k, d)
  }

  ghost predicate Explained(w: World, past: seq<Event>, s: State, k: nat, d: Delivery) {
    d.ck.Some? ==>
      Ready(s) && exists i :: 0 <= i < |s.arrivals| && IsFor(s.arrivals[i], d)
                             && (OwnOutcome(w, s, s.arrivals[i], d) || ReportedError(w.host, past, k, d))
  }

  predicate IsFor(t: Task, d: Delivery) {
    d.req == t.req && d.ck == Some(t.ck)
  }

  /** The callbacks of a log that starts at position `from` of the whole log. */
  ghost predicate AllExplained(w: World, past: seq<Event>, s: State, from: nat, log: seq<Delivery>) {
    forall i :: 0 <= i < |log| ==> Explained(w, past, s, from + i, log[i])
  }

  ghost predicate QueuesArrived(s: State) {
    forall ck, i :: 0 <= i < |Queue(s, ck)| ==> Queue(s, ck)[i] in s.arrivals
  }

  predicate ArrivalsDelivered(past: seq<Event>, s: State) {
    forall i :: 0 <= i < |s.arrivals| ==> Delivered(past, s.arrivals[i])
  }

  ghost predicate Told(w: World, past: seq<Event>, s: State) {
    AllExplained(w, past, s, 0, s.book.log) && QueuesArrived(s) && ArrivalsDelivered(past, s)
  }

  lemma ReportedKept(h: Host, past: seq<Event>, past': seq<Event>, k: nat, d: Delivery)
    requires past <= past' && ReportedError(h, past, k, d)
    ensures ReportedError(h, past', k, d)
  {
    var j :| 0 <= j < |past| && FailedAt(h, past, j, k, d);
    assert past'[..j] == past[..j] && past'[j] == past[j];
    assert FailedAt(h, past', j, k, d);
  }

  lemma ExplainedKept(w: World, past: seq<Event>, past': seq<Event>, s: State, s': State, from: nat, log: seq<Delivery>)
    requires AllExplained(w, past, s, from, log) && past <= past' && s.arrivals <= s'.arrivals
    requires Ready(s) ==> Ready(s') && DecryptorOf(w.host, s') == DecryptorOf(w.host, s)
    ensures AllExplained(w, past', s', from, log)
  {
    hide ReportedError;
    forall i | 0 <= i < |log| && log[i].ck.Some?
      ensures Explained(w, past', s', from + i, log[i])
    {
      assert Explained(w, past, s, from + i, log[i]);
      var j :| 0 <= j < |s.arrivals| && IsFor(s.arrivals[j], log[i])
               && (OwnOutcome(w, s, s.arrivals[j], log[i]) || ReportedError(w.host, past, from + i, log[i]));
      assert s'.arrivals[j] == s.arrivals[j];
      if ReportedError(w.host, past, from + i, log[i]) {
        ReportedKept(w.host, past, past', from + i, log[i]);
      }
    }
  }

  lemma AnswersExplained(w: World, past: seq<Event>, s: State, ck: Name, from: nat, ts: seq<Task>)
    requires Ready(s) && WaitersFor(ts, ck) && (forall i :: 0 <= i < |ts| ==> ts[i] in s.arrivals)
    requires WellFormedCk(w.ckWire(ck))
    ensures AllExplained(w, past, s, from, Answers(DecryptorOf(w.host, s), EncAt(w, ck), ts))
  {
    hide ReportedError, WellFormedCk, EncAt;
    var log := Answers(DecryptorOf(w.host, s), EncAt(w, ck), ts);
    forall i | 0 <= i < |log|
      ensures Explained(w, past, s, from + i, log[i])
    {
      assert ts[i] in s.arrivals && TaskWaitsFor(ts[i], ck);
      var j :| 0 <= j < |s.arrivals| && s.arrivals[j] == ts[i];
      assert IsFor(s.arrivals[j], log[i]) && OwnOutcome(w, s, s.arrivals[j], log[i]);
    }
  }

  /** An error that has just been reported to one of the waiters of its fetch. */
  lemma ErrorIsReported(h: Host, past: seq<Event>, s: State, ck: Name, message: string, i: nat)
    requires ValidRun(h, INITIAL, past) && s == Run(h, INITIAL, past) && ck in s.inFlight
    requires i < |Queue(s, ck)|
    ensures ReportedError(h, past + [CkFailed(ck, message)], |s.book.log| + i,
                          Delivery(Queue(s, ck)[i].req, Some(ck), Failure(message)))
  {
    var past' := past + [CkFailed(ck, message)];
    var d := Delivery(Queue(s, ck)[i].req, Some(ck), Failure(message));
    hide Run, ValidRun;
    assert past'[..|past|] == past;
    assert MadeByError(s, ck, message, |s.book.log| + i, d);
    hide MadeByError;
    assert FailedAt(h, past', |past|, |s.book.log| + i, d);
  }

  lemma ErrorsExplained(w: World, past: seq<Event>, s: State, s': State, ck: Name, message: string)
    requires ValidRun(w.host, INITIAL, past) && s == Run(w.host, INITIAL, past) && ck in s.inFlight
    requires Ready(s') && s'.arrivals == s.arrivals
    requires WaitersFor(Queue(s, ck), ck) && QueuesArrived(s)
    ensures AllExplained(w, past + [CkFailed(ck, message)], s', |s.book.log|, ErrorsFor(Queue(s, ck), message))
  {
    hide Run, ValidRun, ReportedError;
    var ts, log := Queue(s, ck), ErrorsFor(Queue(s, ck), message);
    forall i | 0 <= i < |log|
      ensures Explained(w, past + [CkFailed(ck, message)], s', |s.book.log| + i, log[i])
    {
      ErrorIsReported(w.host, past, s, ck, message, i);
      assert ts[i] in s.arrivals && TaskWaitsFor(ts[i], ck);
      var j :| 0 <= j < |s.arrivals| && s.arrivals[j] == ts[i];
      assert IsFor(s'.arrivals[j], log[i]);
    }
  }

  lemma AppendExplained(w: World, past: seq<Event>, s: State, a: seq<Delivery>, b: seq<Delivery>)
    requires AllExplained(w, past, s, 0, a) && AllExplained(w, past, s, |a|, b)
    ensures AllExplained(w, past, s, 0, a + b)
  {
    hide Explained;
    forall i | 0 <= i < |a + b|
      ensures Explained(w, past, s, i, (a + b)[i])
    {
      assert i < |a| ==> Explained(w, past, s, 0 + i, a[i]);
      assert i >= |a| ==> Explained(w, past, s, |a| + (i - |a|), b[i - |a|]);
    }
  }

  /** What an arrival logs: its own answer if the CK is cached, else nothing yet. */
  function ArrivalLog(w: World, s: State, t: Task): seq<Delivery> {
    if t.ck in s.encAes then Answers(DecryptorOf(w.host, s), EncAt(w, t.ck), [t]) else []
  }

  lemma ArriveLog(w: World, s: State, n: Naive, t: Task)
    requires Sim(w, s, n)
    ensures DecryptContent(w.host, s, t).book.log == s.book.log + ArrivalLog(w, s, t)
    ensures DecryptContent(w.host, s, t).arrivals == s.arrivals + [t]
    ensures Ready(s) ==> Ready(DecryptContent(w.host, s, t))
    ensures DecryptorOf(w.host, DecryptContent(w.host, s, t)) == DecryptorOf(w.host, s)
  {
    hide EngineInv, SameQueues, KeyMapTrue, RunTask;
    if t.ck in s.encAes {
      RunTaskIsNaive(DecryptorOf(w.host, s), s.book, s.encAes[t.ck], t);
      assert ArrivalLog(w, s, t) == [Answer(DecryptorOf(w.host, s), EncAt(w, t.ck), t)];
    }
  }

  lemma ArrivalExplained(w: World, past: seq<Event>, s: State, s': State, t: Task)
    requires CachedTruly(w, s)
    requires Ready(s') && 0 in t.cipher && t in s'.arrivals && DecryptorOf(w.host, s') == DecryptorOf(w.host, s)
    ensures AllExplained(w, past, s', |s.book.log|, ArrivalLog(w, s, t))
  {
    if t.ck in s.encAes {
      var ts := [t];
      assert TaskWaitsFor(ts[0], t.ck);
      AnswersExplained(w, past, s', t.ck, |s.book.log|, ts);
    }
  }

  lemma ArriveTold(w: World, past: seq<Event>, s: State, n: Naive, t: Task)
    requires Sim(w, s, n) && Ready(s) && 0 in t.cipher && Told(w, past, s) && Delivered(past, t)
    ensures Told(w, past, DecryptContent(w.host, s, t))
  {
    var s' := DecryptContent(w.host, s, t);
    ArriveLog(w, s, n, t);
    ArriveQueues(w, s, t);
    assert CachedTruly(w, s);
    hide Sim, DecryptContent, Explained, ArrivalLog, QueuesArrived, Delivered, CachedTruly;
    assert s'.arrivals[|s.arrivals|] == t;
    ExplainedKept(w, past, past, s, s', 0, s.book.log);
    ArrivalExplained(w, past, s, s', t);
    AppendExplained(w, past, s', s.book.log, ArrivalLog(w, s, t));
  }

  lemma ArriveQueues(w: World, s: State, t: Task)
    requires QueuesArrived(s)
    ensures QueuesArrived(DecryptContent(w.host, s, t))
  {
    var s' := DecryptContent(w.host, s, t);
    forall ck, i | 0 <= i < |Queue(s', ck)|
      ensures Queue(s', ck)[i] in s'.arrivals
    {
      if i < |Queue(s, ck)| {
        assert Queue(s', ck)[i] == Queue(s, ck)[i];
      } else {
        assert Queue(s', ck)[i] == t == s'.arrivals[|s.arrivals|];
      }
    }
  }

  lemma EndOfFetchQueues(s: State, s': State, name: Name)
    requires QueuesArrived(s) && s'.arrivals == s.arrivals && s'.pending == s.pending - {name}
    ensures QueuesArrived(s')
  {
    forall ck, i | 0 <= i < |Queue(s', ck)|
      ensures Queue(s', ck)[i] in s'.arrivals
    {
      assert Queue(s', ck) == Queue(s, ck);
    }
  }

  lemma DeliveriesKept(past: seq<Event>, past': seq<Event>, s: State, s': State)
    requires ArrivalsDelivered(past, s) && past <= past' && s'.arrivals == s.arrivals
    ensures ArrivalsDelivered(past', s')
  {
    forall i | 0 <= i < |s'.arrivals|
      ensures Delivered(past', s'.arrivals[i])
    {
      assert Delivered(past, s.arrivals[i]);
      var j :| 0 <= j < |past| && Delivers(past[j], s.arrivals[i]);
      assert past'[j] == past[j];
    }
  }

  lemma CompleteTold(w: World, past: seq<Event>, s: State, n: Naive, name: Name, wire: Bytes)
    requires Sim(w, s, n) && name in s.ckFetches && Told(w, past, s) && wire == w.ckWire(name) && WellFormedCk(wire)
    ensures Told(w, past + [CkArrived(name, wire)], OnCkComplete(w.host, s, name, EncAt(w, name)))
  {
    var s', past' := OnCkComplete(w.host, s, name, EncAt(w, name)), past + [CkArrived(name, wire)];
    InFlightWaits(w, s, n, name);
    CompletionAnswers(w, s, n, name);
    QueueWaits(s, name);
    hide Explained, WellFormedCk, EncAt, EngineInv, SameQueues, KeyMapTrue, CachedTruly, FanOut, Delivered;
    ExplainedKept(w, past, past', s, s', 0, s.book.log);
    AnswersExplained(w, past', s', name, |s.book.log|, Queue(s, name));
    AppendExplained(w, past', s', s.book.log, Answers(DecryptorOf(w.host, s'), EncAt(w, name), Queue(s, name)));
    EndOfFetchQueues(s, s', name);
    DeliveriesKept(past, past', s, s');
  }

  lemma FailTold(w: World, past: seq<Event>, s: State, n: Naive, name: Name, message: string)
    requires Sim(w, s, n) && name in s.ckFetches && Told(w, past, s)
    requires ValidRun(w.host, INITIAL, past) && s == Run(w.host, INITIAL, past)
    ensures Told(w, past + [CkFailed(name, message)], OnCkError(s, name, message))
  {
    var s', past' := OnCkError(s, name, message), past + [CkFailed(name, message)];
    InFlightWaits(w, s, n, name);
    QueueWaits(s, name);
    assert name in s.inFlight;
    hide Explained, Sim, Run, ValidRun, Delivered;
    ExplainedKept(w, past, past', s, s', 0, s.book.log);
    ErrorsExplained(w, past, s, s', name, message);
    AppendExplained(w, past', s', s.book.log, ErrorsFor(Queue(s, name), message));
    EndOfFetchQueues(s, s', name);
    DeliveriesKept(past, past', s, s');
  }

  /** A step that adds at most a callback made before any packet arrived. */
  lemma QuietTold(w: World, past: seq<Event>, past': seq<Event>, s: State, s': State, early: seq<Delivery>)
    requires Told(w, past, s) && past <= past' && s'.arrivals == s.arrivals && s'.pending == s.pending
    requires s'.book.log == s.book.log + early && forall i :: 0 <= i < |early| ==> early[i].ck == None
    requires Ready(s) ==> Ready(s') && DecryptorOf(w.host, s') == DecryptorOf(w.host, s)
    ensures Told(w, past', s')
  {
    ExplainedKept(w, past, past', s, s', 0, s.book.log);
    DeliveriesKept(past, past', s, s');
    assert AllExplained(w, past', s', |s.book.log|, early);
    AppendExplained(w, past', s', s.book.log, early);
    assert forall ck :: Queue(s', ck) == Queue(s, ck);
  }

  lemma PacketTold(w: World, past: seq<Event>, s: State, n: Naive, req: Request, wire: Bytes)
    requires Sim(w, s, n) && req in s.dataFetches && WellFormedContent(wire) && Told(w, past, s)
    ensures Told(w, past + [DataArrived(req, wire)], Step(w.host, s, DataArrived(req, wire)))
  {
    var past' := past + [DataArrived(req, wire)];
    var s1, n1 := s.(dataFetches := s.dataFetches - multiset{req}), n.(dataFetches := n.dataFetches - multiset{req});
    SimPacket(w, s, n, req);
    assert s.book.log + [] == s.book.log;
    hide Told, Sim;
    QuietTold(w, past, past', s, s1, []);
    DeliveredBy(past', DataArrived(req, wire), TaskOf(req, wire));
    ArriveTold(w, past', s1, n1, TaskOf(req, wire));
  }

  lemma BlockTold(w: World, past: seq<Event>, s: State, n: Naive, req: Request, wire: Bytes)
    requires Sim(w, s, n) && Ready(s) && WellFormedContent(wire) && Told(w, past, s)
    ensures Told(w, past + [ConsumeBlock(req, wire)], Step(w.host, s, ConsumeBlock(req, wire)))
  {
    var past' := past + [ConsumeBlock(req, wire)];
    SimAccept(w, s, n, req);
    assert s.book.log + [] == s.book.log;
    hide Told, Sim;
    QuietTold(w, past, past', s, Accept(s, req), []);
    DeliveredBy(past', ConsumeBlock(req, wire), TaskOf(req, wire));
    ArriveTold(w, past', Accept(s, req), n, TaskOf(req, wire));
  }

  /** What the callbacks before a packet's arrival log. */
  function EarlyLog(s: State, e: Event): seq<Delivery> {
    match e
    case Consume(req) => if Ready(s) then [] else [Delivery(req, None, Failure(NOT_READY))]
    case ConsumeBlock(req, _) => [Delivery(req, None, Failure(NOT_READY))]
    case DataFailed(req, message) => [Delivery(req, None, Failure(DATA_FAILED + message))]
    case _ => []
  }

  lemma QuietStepTold(w: World, past: seq<Event>, s: State, n: Naive, e: Event)
    requires Sim(w, s, n) && Enabled(w.host, s, e) && InWorld(w, e) && Told(w, past, s) && Quiet(s, e)
    ensures Told(w, past + [e], Step(w.host, s, e))
  {
    hide Told;
    if Ready(s) {
      ReadyFreezes(w, s, e);
    }
    assert s.book.log + [] == s.book.log;
    QuietTold(w, past, past + [e], s, Step(w.host, s, e), EarlyLog(s, e));
  }

  lemma StepTold(w: World, past: seq<Event>, s: State, n: Naive, e: Event)
    requires Sim(w, s, n) && Enabled(w.host, s, e) && InWorld(w, e) && Told(w, past, s)
    requires ValidRun(w.host, INITIAL, past) && s == Run(w.host, INITIAL, past)
    ensures Told(w, past + [e], Step(w.host, s, e))
  {
    hide Told, Sim, Run, ValidRun;
    match e
    case ConsumeBlock(req, wire) =>
      if Ready(s) {
        BlockTold(w, past, s, n, req, wire);
      } else {
        QuietStepTold(w, past, s, n, e);
      }
    case DataArrived(req, wire) => PacketTold(w, past, s, n, req, wire);
    case CkArrived(name, wire) => CompleteTold(w, past, s, n, name, wire);
    case CkFailed(name, message) => FailTold(w, past, s, n, name, message);
    case _ => QuietStepTold(w, past, s, n, e);
  }

  lemma DeliveredBy(past: seq<Event>, e: Event, t: Task)
    requires e in past && Delivers(e, t)
    ensures Delivered(past, t)
  {
  }

  lemma {:induction false} RunTold(w: World, past: seq<Event>, s: State, n: Naive, events: seq<Event>)
    requires ValidRun(w.host, INITIAL, past) && s == Run(w.host, INITIAL, past)
    requires Sim(w, s, n) && ValidRun(w.host, s, events) && AllInWorld(w, events) && Told(w, past, s)
    ensures Told(w, past + events, Run(w.host, s, events))
    decreases |events|
  {
    hide Told, Enabled, Step, Sim, InWorld, NaiveAfter, SameEnabled;
    if events == [] {
      assert past + events == past;
    } else {
      var e := events[0];
      assert InWorld(w, e);
      SimStep(w, s, n, e);
      StepTold(w, past, s, n, e);
      OneMore(w.host, past, s, e);
      assert past + [e] + events[1..] == past + events;
      RunTold(w, past + [e], Step(w.host, s, e), NaiveAfter(w, s, n, e), events[1..]);
    }
  }

  lemma OneMore(h: Host, past: seq<Event>, s: State, e: Event)
    requires ValidRun(h, INITIAL, past) && s == Run(h, INITIAL, past) && Enabled(h, s, e)
    ensures ValidRun(h, INITIAL, past + [e]) && Run(h, INITIAL, past + [e]) == Step(h, s, e)
  {
    hide Step, Enabled;
    assert [e][1..] == [];
    assert ValidRun(h, Step(h, s, e), []) && Run(h, Step(h, s, e), []) == Step(h, s, e);
    assert ValidRun(h, s, [e]) && Run(h, s, [e]) == Step(h, s, e);
    RunsCompose(h, INITIAL, past, [e]);
  }

  /** In every reachable state every callback made for a CK is the outcome of that request's own
      uncached decryption, or the error with which the fetch it was queued on ended. */
  lemma EveryOutcomeExplained(w: World, events: seq<Event>)
    requires ValidRun(w.host, INITIAL, events) && AllInWorld(w, events)
    ensures var s := Run(w.host, INITIAL, events);
            AllExplained(w, events, s, 0, s.book.log) && ArrivalsDelivered(events, s)
  {
    InitialSim(w);
    assert [] + events == events;
    RunTold(w, [], INITIAL, NAIVE_INITIAL, events);
  }

  /** Every packet the run hands over for this request is the given one. */
  predicate OnlyPacket(events: seq<Event>, req: Request, wire: Bytes) {
    forall i :: 0 <= i < |events| ==>
      match events[i]
      case ConsumeBlock(r, w) => r == req ==> w == wire
      case DataArrived(r, w) => r == req ==> w == wire
      case _ => true
  }

  lemma SamePacket(events: seq<Event>, wire: Bytes, t: Task)
    requires OnlyPacket(events, t.req, wire) && Delivered(events, t)
    ensures WellFormedContent(wire) && t == TaskOf(t.req, wire)
  {
  }

  /** In every reachable state, whatever a request is called back with for a CK depends on its own
      packet and the content of the CK that packet names, and on no other request: it is the uncached
      decryption of the one under the other, or the error of the fetch it was queued on. */
  lemma OutcomeOfPacket(w: World, events: seq<Event>, req: Request, wire: Bytes)
    requires ValidRun(w.host, INITIAL, events) && AllInWorld(w, events) && OnlyPacket(events, req, wire)
    ensures var s := Run(w.host, INITIAL, events);
            forall i :: 0 <= i < |s.book.log| && s.book.log[i].req == req && s.book.log[i].ck.Some? ==>
              && WellFormedContent(wire) && Ready(s) && s.prv == w.prv
              && s.book.log[i].ck == Some(TaskOf(req, wire).ck)
              && (OwnOutcome(w, s, TaskOf(req, wire), s.book.log[i]) || ReportedError(w.host, events, i, s.book.log[i]))
  {
    var s := Run(w.host, INITIAL, events);
    EveryOutcomeExplained(w, events);
    InitialSim(w);
    SimRun(w, INITIAL, NAIVE_INITIAL, events);
    hide ReportedError, OwnOutcome, ParseDataContent, EngineInv, SameQueues, KeyMapTrue, CachedTruly, Schedule, NaiveRun;
    forall i | 0 <= i < |s.book.log| && s.book.log[i].req == req && s.book.log[i].ck.Some?
      ensures WellFormedContent(wire) && Ready(s) && s.prv == w.prv
      ensures s.book.log[i].ck == Some(TaskOf(req, wire).ck)
      ensures OwnOutcome(w, s, TaskOf(req, wire), s.book.log[i]) || ReportedError(w.host, events, i, s.book.log[i])
    {
      var d := s.book.log[i];
      assert Explained(w, events, s, 0 + i, d);
      var j :| 0 <= j < |s.arrivals| && IsFor(s.arrivals[j], d)
               && (OwnOutcome(w, s, s.arrivals[j], d) || ReportedError(w.host, events, i, d));
      assert Delivered(events, s.arrivals[j]);
      SamePacket(events, wire, s.arrivals[j]);
    }
  }

  // ---------- From producer to consumer ----------

  /** One production: the packets of `Produce(s, rule, suffix, plain, coins, max)`. */
  datatype Publication = Publication(s: Settings, rule: Rule, suffix: Name, plain: Bytes, coins: Coins, max: nat) {
    predicate Usable() {
      rule.Usable() && max > 0
    }

    function Out(): Produced
      requires Usable()
    {
      Produce(s, rule, suffix, plain, coins, max)
    }

    ghost predicate Done() {
      && Usable() && Out().Packets? && |Reassemble(Out().data)| < LIMIT && |Reassemble(Out().ck)| < LIMIT
      && AllFit(s.identity) && Ideal(s.lib)
    }

    /** The sealed plaintext and the wrapped key, each with its NUL, fit the 32-bit sizes with which
        they are copied; without their NUL no consumer can read them. */
    predicate SealedFits() {
      |s.lib.seal(coins.symKey, Take32(plain), coins.sealing)| + 1 < UINT32
    }

    predicate WrappedFits()
      requires Usable()
    {
      var wrapped := WrapFor(s.lib, s.pub, rule, coins.symKey, coins.wrapping);
      wrapped.Some? && |wrapped.value| + 1 < UINT32
    }

    /** The CK object, and what fetching the two objects yields. */
    function CkName(): Name {
      CkObject(s.identity, rule, coins.word)
    }

    function DataWire(): Bytes
      requires Usable() && Out().Packets?
    {
      Reassemble(Out().data)
    }

    function CkWire(): Bytes
      requires Usable() && Out().Packets?
    {
      Reassemble(Out().ck)
    }

    function Abe(): Deployment {
      DeploymentFor(rule, s.pub)
    }

    /** Whether keys generated for d may read it: they satisfy the policy, or the attributes, joined by
        bars, satisfy them. */
    predicate Readable(d: Bytes)
      requires Usable()
    {
      match rule
      case ByPolicy(policy) => s.lib.satisfies(CpAbe, policy, d)
      case ByAttributes(list) => s.lib.satisfies(KpAbe, Attributes.JoinAttributes(list), d)
    }
  }

  /** The plaintext exactly for those who may read it and if it is shorter than 4 GiB; of a longer one
      they get the bytes that a 32-bit size counts. An error for the others. */
  predicate Correct(p: Publication, d: Bytes, outcome: Outcome)
    requires p.Usable()
  {
    && (outcome == Success(p.plain) <==> p.Readable(d) && |p.plain| < UINT32)
    && (if p.Readable(d) then outcome == Success(Take32(p.plain)) else outcome.Failure?)
  }

  /** At exactly 4 GiB the empty string is handed over as the plaintext. */
  lemma FourGibPublication(p: Publication, d: Bytes, outcome: Outcome)
    requires p.Usable() && |p.plain| == UINT32 && p.Readable(d) && Correct(p, d, outcome)
    ensures outcome == Success([]) != Success(p.plain)
  {
    assert Take32(p.plain) == [];
  }

  /** What the caching producer returns in a reachable ready state is such a production too, for a
      rule with the same ABE input: readable by exactly the same keys. */
  lemma CachedIsPublication(s: Settings, events: seq<CacheProducer.Event>, rule: Rule, suffix: Name, plain: Bytes, coins: Coins)
    requires CacheProducer.Valid(events) && rule.Usable() && CacheProducer.Run(s, events).ready
    ensures var out := CacheProducer.CachedProduce(s, CacheProducer.Run(s, events).caches, rule, suffix, plain, coins).1;
            exists p: Publication ::
              && p.Usable() && p.s == s && p.suffix == suffix && p.plain == plain && p.Out() == out
              && SameInput(rule, p.rule) && forall d :: p.Readable(d) <==> MayRead(s.lib, rule, d)
  {
    CacheProducer.CachedOutputIsFreshOutput(s, events, rule, suffix, plain, coins);
    var out := CacheProducer.CachedProduce(s, CacheProducer.Run(s, events).caches, rule, suffix, plain, coins).1;
    var rule', coins' :| CacheProducer.Possible(s, rule, suffix, plain, coins.sealing, rule', coins', out);
    var p := Publication(s, rule', suffix, plain, coins', DEFAULT_SEGMENT);
    assert p.Out() == out;
  }

  /** What a consumer makes of the two fetched objects. */
  lemma PublicationOpens(p: Publication, holder: Holder, req: Request)
    requires p.Done() && Holds(p.s.lib, p.Abe(), holder)
    ensures WellFormedContent(p.DataWire()) <==> p.SealedFits()
    ensures WellFormedCk(p.CkWire()) <==> p.WrappedFits()
    ensures ParamFetcher.SchemaOf(p.s.abeType) == Some(p.Abe().schema) && p.s.pub != []
    ensures ParseDataContent(p.DataWire()).Some? && ParseDataContent(p.DataWire()).value.plainSize == |p.plain| % UINT32
    ensures p.SealedFits() && p.WrappedFits() ==>
              && TaskOf(req, p.DataWire()).ck == p.CkName()
              && Correct(p, holder.d, Uncached(Decryptor(p.s.lib, p.s.abeType, p.s.pub, PrvOf(p.s.lib, p.Abe(), holder)),
                                               ParseCk(p.CkWire()).value, TaskOf(req, p.DataWire()).cipher))
    ensures p.SealedFits() ==> TaskOf(req, p.DataWire()).ck == p.CkName()
  {
    var pair := CkDataGen(p.s, p.rule, p.coins, p.max).pair;
    assert p.Out() == Publish(p.s, pair, p.suffix, p.plain, p.coins.sealing, p.max);
    assert p.Out().ck == pair.segments;
    PublishedOpens(p.s, p.rule, p.coins, p.suffix, p.plain, p.coins.sealing, p.max, p.max, holder);
  }

  /** A run in a world that serves the publication's CK, where the request is handed the publication's
      packet and no other, by a consumer with the producer's parameters. */
  ghost predicate Consumption(w: World, p: Publication, events: seq<Event>, req: Request) {
    && p.Done() && w.host.lib == p.s.lib && w.ckWire(p.CkName()) == p.CkWire()
    && ValidRun(w.host, INITIAL, events) && AllInWorld(w, events) && OnlyPacket(events, req, p.DataWire())
    && (var params := Run(w.host, INITIAL, events).params;
        params.pub != [] ==> params.abeType == p.s.abeType && params.pub == p.s.pub)
  }

  lemma OutcomeCorrect(w: World, p: Publication, holder: Holder, s: State, all: seq<Event>, req: Request, k: nat, d: Delivery)
    requires p.Done() && w.host.lib == p.s.lib && w.ckWire(p.CkName()) == p.CkWire()
    requires Holds(p.s.lib, p.Abe(), holder) && s.prv == PrvOf(p.s.lib, p.Abe(), holder)
    requires s.params.abeType == p.s.abeType && s.params.pub == p.s.pub
    requires WellFormedContent(p.DataWire()) && d.ck == Some(TaskOf(req, p.DataWire()).ck)
    requires OwnOutcome(w, s, TaskOf(req, p.DataWire()), d) || ReportedError(w.host, all, k, d)
    ensures d.ck == Some(p.CkName()) && (Correct(p, holder.d, d.outcome) || ReportedError(w.host, all, k, d))
  {
    hide PrvOf, FullPath, ParseDataContent, ReportedError, Correct, Publication.SealedFits, Publication.WrappedFits;
    PublicationOpens(p, holder, req);
  }

  /** Each callback made for a CK is correct, or the error of the fetch that the request was queued on. */
  ghost predicate Answered(h: Host, p: Publication, d: Bytes, events: seq<Event>, req: Request, log: seq<Delivery>)
    requires p.Usable()
  {
    forall i :: 0 <= i < |log| && log[i].req == req && log[i].ck.Some? ==>
      log[i].ck == Some(p.CkName()) && (Correct(p, d, log[i].outcome) || ReportedError(h, events, i, log[i]))
  }

  lemma AllCorrect(w: World, p: Publication, holder: Holder, s: State, events: seq<Event>, req: Request)
    requires p.Done() && w.host.lib == p.s.lib && w.ckWire(p.CkName()) == p.CkWire()
    requires Holds(p.s.lib, p.Abe(), holder) && s.prv == PrvOf(p.s.lib, p.Abe(), holder)
    requires s.params.abeType == p.s.abeType && s.params.pub == p.s.pub
    requires forall i :: 0 <= i < |s.book.log| && s.book.log[i].req == req && s.book.log[i].ck.Some? ==>
               && WellFormedContent(p.DataWire())
               && s.book.log[i].ck == Some(TaskOf(req, p.DataWire()).ck)
               && (OwnOutcome(w, s, TaskOf(req, p.DataWire()), s.book.log[i]) || ReportedError(w.host, events, i, s.book.log[i]))
    ensures Answered(w.host, p, holder.d, events, req, s.book.log)
  {
    assert p.Usable();
    hide Publication.Done, Publication.DataWire, Publication.Out, Publication.CkWire, Publication.CkName,
         WellFormedContent, TaskOf, OwnOutcome, ReportedError, Correct;
    forall i | 0 <= i < |s.book.log| && s.book.log[i].req == req && s.book.log[i].ck.Some?
      ensures s.book.log[i].ck == Some(p.CkName())
      ensures Correct(p, holder.d, s.book.log[i].outcome) || ReportedError(w.host, events, i, s.book.log[i])
    {
      OutcomeCorrect(w, p, holder, s, events, req, i, s.book.log[i]);
    }
  }

  /** End to end, over every interleaving with any other requests: whatever a request for produced
      content is called back with once its packet has arrived is correct for the key: exactly the
      plaintext if and only if the key satisfies the rule and the plaintext is shorter than 4 GiB, an
      error if the key does not satisfy the rule; or it is the error of the CK fetch it was queued on. */
  lemma ConsumedExactly(w: World, p: Publication, holder: Holder, events: seq<Event>, req: Request)
    requires Consumption(w, p, events, req)
    requires Holds(p.s.lib, p.Abe(), holder) && w.prv == PrvOf(p.s.lib, p.Abe(), holder)
    ensures Answered(w.host, p, holder.d, events, req, Run(w.host, INITIAL, events).book.log)
  {
    var s := Run(w.host, INITIAL, events);
    OutcomeOfPacket(w, events, req, p.DataWire());
    hide Publication.Done, Publication.DataWire, Publication.Out, Publication.CkWire, Publication.CkName,
         Run, WellFormedContent, TaskOf, OwnOutcome, ReportedError, Correct;
    if Ready(s) && s.prv == w.prv {
      AllCorrect(w, p, holder, s, events, req);
    }
  }

  /** And once nothing is outstanding it has been called back as often as it was made. */
  lemma EveryRequestAnswered(h: Host, events: seq<Event>, req: Request)
    requires ValidRun(h, INITIAL, events) && Quiescent(Run(h, INITIAL, events))
    ensures var s := Run(h, INITIAL, events);
            multiset(LogReqs(s.book.log))[req] == multiset(RequestsIn(events))[req]
  {
    ExactlyOnce(h, events);
  }

  /** The packet of a first request arrives: it waits alone, and its CK is being fetched. */
  lemma FirstWaits(h: Host, s: State, t: Task)
    requires t.ck !in s.encAes && t.ck !in s.inFlight && Queue(s, t.ck) == []
    ensures var s' := DecryptContent(h, s, t);
            Queue(s', t.ck) == [t] && t.ck in s'.ckFetches && s'.book == s.book && DecryptorOf(h, s') == DecryptorOf(h, s)
  {
  }

  lemma OneAnswer(h: Host, s: State, t: Task, enc: Bytes)
    requires Queue(s, t.ck) == [t] && KeyMapTrue(DecryptorOf(h, s), s.book.keyMap)
    ensures OnCkComplete(h, s, t.ck, enc).book.log
         == s.book.log + [Delivery(t.req, Some(t.ck), Uncached(DecryptorOf(h, s), enc, t.cipher))]
  {
    FanOutIsNaive(DecryptorOf(h, s), s.book, enc, [t]);
    assert Answers(DecryptorOf(h, s), enc, [t]) == [Answer(DecryptorOf(h, s), enc, t)];
  }

  lemma FirstRequest(h: Host, s: State, req: Request, dataWire: Bytes, ckWire: Bytes)
    requires WellFormedContent(dataWire)
    requires Ready(s) && KeyMapTrue(DecryptorOf(h, s), s.book.keyMap) && Queue(s, TaskOf(req, dataWire).ck) == []
    requires WellFormedCk(ckWire)
    requires TaskOf(req, dataWire).ck !in s.encAes && TaskOf(req, dataWire).ck !in s.inFlight
    ensures var t := TaskOf(req, dataWire);
            var events := [Consume(req), DataArrived(req, dataWire), CkArrived(t.ck, ckWire)];
            && ValidRun(h, s, events)
            && Run(h, s, events).book.log
               == s.book.log + [Delivery(req, Some(t.ck), Uncached(DecryptorOf(h, s), ParseCk(ckWire).value, t.cipher))]
  {
    hide ParseDataContent, ParseCk, KeyMapTrue, DecryptContent, OnCkComplete, Uncached;
    var t := TaskOf(req, dataWire);
    var events := [Consume(req), DataArrived(req, dataWire), CkArrived(t.ck, ckWire)];
    var s1 := Step(h, s, events[0]);
    var s1' := s1.(dataFetches := s1.dataFetches - multiset{req});
    FirstWaits(h, s1', t);
    var s2 := Step(h, s1, events[1]);
    assert s2 == DecryptContent(h, s1', t);
    OneAnswer(h, s2, t, ParseCk(ckWire).value);
    ThreeSteps(h, s, events, s1, s2, Step(h, s2, events[2]));
  }

  lemma ThreeSteps(h: Host, s: State, events: seq<Event>, s1: State, s2: State, s3: State)
    requires |events| == 3
    requires Enabled(h, s, events[0]) && s1 == Step(h, s, events[0])
    requires Enabled(h, s1, events[1]) && s2 == Step(h, s1, events[1])
    requires Enabled(h, s2, events[2]) && s3 == Step(h, s2, events[2])
    ensures ValidRun(h, s, events) && Run(h, s, events) == s3
  {
    hide Step, Enabled;
    assert ValidRun(h, s3, events[1..][1..][1..]) && Run(h, s3, events[1..][1..][1..]) == s3;
    assert ValidRun(h, s2, events[1..][1..]) && Run(h, s2, events[1..][1..]) == s3;
    assert ValidRun(h, s1, events[1..]) && Run(h, s1, events[1..]) == s3;
  }

  /** The parameters are fetched and validated and the private key arrives. */
  lemma Bootstrap(h: Host, params: Data, dkWire: Bytes) returns (s: State)
    requires ParamFetcher.WellFormed(h.prefixSize, params)
    requires ParamFetcher.SchemaOf(params.name[h.prefixSize + 1].value).Some? && KeyOf(h, dkWire).Some?
    ensures var events := [Param(ParamFetcher.Received(params)), Param(ParamFetcher.Validated(params)), KeyArrived(dkWire)];
            ValidRun(h, INITIAL, events) && s == Run(h, INITIAL, events)
    ensures s.params.abeType == params.name[h.prefixSize + 1].value && s.params.pub == CString(params.content)
    ensures s == INITIAL.(prv := KeyOf(h, dkWire).value, params := s.params)
  {
    hide KeyOf, CString, ParamFetcher.SchemaOf;
    var events := [Param(ParamFetcher.Received(params)), Param(ParamFetcher.Validated(params)), KeyArrived(dkWire)];
    var s1 := Step(h, INITIAL, events[0]);
    var s2 := Step(h, s1, events[1]);
    s := Step(h, s2, events[2]);
    ThreeSteps(h, INITIAL, events, s1, s2, s);
  }

  /** The run of a consumer that is set up, makes one request and fetches its two objects. */
  function OneRequest(params: Data, dkWire: Bytes, req: Request, dataWire: Bytes, ck: Name, ckWire: Bytes): seq<Event> {
    [Param(ParamFetcher.Received(params)), Param(ParamFetcher.Validated(params)), KeyArrived(dkWire)]
    + [Consume(req), DataArrived(req, dataWire), CkArrived(ck, ckWire)]
  }

  lemma OneRequestRun(h: Host, params: Data, dkWire: Bytes, req: Request, dataWire: Bytes, ckWire: Bytes)
    requires ParamFetcher.WellFormed(h.prefixSize, params)
    requires ParamFetcher.SchemaOf(params.name[h.prefixSize + 1].value).Some? && CString(params.content) != []
    requires KeyOf(h, dkWire).Some? && KeyOf(h, dkWire).value != []
    requires WellFormedContent(dataWire) && WellFormedCk(ckWire)
    ensures ValidRun(h, INITIAL, OneRequest(params, dkWire, req, dataWire, TaskOf(req, dataWire).ck, ckWire))
    ensures var t := TaskOf(req, dataWire);
            var dec := Decryptor(h.lib, params.name[h.prefixSize + 1].value, CString(params.content), KeyOf(h, dkWire).value);
            Run(h, INITIAL, OneRequest(params, dkWire, req, dataWire, TaskOf(req, dataWire).ck, ckWire)).book.log
              == [Delivery(req, Some(t.ck), Uncached(dec, ParseCk(ckWire).value, t.cipher))]
  {
    hide ParseDataContent, ParseCk, KeyOf, CString, Uncached, TaskOf;
    var s := Bootstrap(h, params, dkWire);
    FirstRequest(h, s, req, dataWire, ckWire);
    RunsCompose(h, INITIAL, [Param(ParamFetcher.Received(params)), Param(ParamFetcher.Validated(params)), KeyArrived(dkWire)],
                [Consume(req), DataArrived(req, dataWire), CkArrived(TaskOf(req, dataWire).ck, ckWire)]);
  }

  /** The two packets bring the producer's parameters and the given private key. */
  predicate Brings(h: Host, p: Publication, prv: Bytes, params: Data, dkWire: Bytes) {
    && prv != [] && KeyOf(h, dkWire) == Some(prv)
    && |params.name| > h.prefixSize + 1 && params.name[h.prefixSize + 1].value == p.s.abeType
    && params.content == Terminate(p.s.pub) && NulFree(p.s.pub)
  }

  lemma BringsParams(h: Host, p: Publication, prv: Bytes, params: Data, dkWire: Bytes)
    requires Brings(h, p, prv, params, dkWire)
    ensures ParamFetcher.WellFormed(h.prefixSize, params) && CString(params.content) == p.s.pub
    ensures params.name[h.prefixSize + 1].value == p.s.abeType && KeyOf(h, dkWire) == Some(prv) && prv != []
  {
    assert params.content[|p.s.pub|] == 0;
    TerminatedRoundTrip(p.s.pub);
  }

  lemma BroughtRun(h: Host, p: Publication, prv: Bytes, params: Data, dkWire: Bytes, req: Request, dataWire: Bytes, ckWire: Bytes)
    requires Brings(h, p, prv, params, dkWire)
    requires ParamFetcher.SchemaOf(p.s.abeType).Some? && p.s.pub != []
    requires WellFormedContent(dataWire) && WellFormedCk(ckWire)
    ensures var t := TaskOf(req, dataWire);
            var run := OneRequest(params, dkWire, req, dataWire, t.ck, ckWire);
            && ValidRun(h, INITIAL, run)
            && Run(h, INITIAL, run).book.log
               == [Delivery(req, Some(t.ck),
                            Uncached(Decryptor(h.lib, p.s.abeType, p.s.pub, prv), ParseCk(ckWire).value, t.cipher))]
  {
    BringsParams(h, p, prv, params, dkWire);
    hide *;
    OneRequestRun(h, params, dkWire, req, dataWire, ckWire);
  }

  /** From construction with empty caches: parameters, private key, one request for produced content,
      its packet and its CK. If the two buffers of the publication fit their sizes, the run is possible
      and its only callback is correct: the exact plaintext if and only if the key satisfies the rule
      and the plaintext is shorter than 4 GiB. */
  lemma FromConstruction(h: Host, p: Publication, holder: Holder, params: Data, dkWire: Bytes, req: Request)
    requires p.Done() && Holds(p.s.lib, p.Abe(), holder) && h.lib == p.s.lib
    ensures var run := OneRequest(params, dkWire, req, p.DataWire(), p.CkName(), p.CkWire());
            Brings(h, p, PrvOf(p.s.lib, p.Abe(), holder), params, dkWire) && p.SealedFits() && p.WrappedFits() ==>
              && ValidRun(h, INITIAL, run)
              && exists outcome :: Correct(p, holder.d, outcome)
                   && Run(h, INITIAL, run).book.log == [Delivery(req, Some(p.CkName()), outcome)]
  {
    PublicationOpens(p, holder, req);
    hide Correct, Uncached, WellFormedContent, WellFormedCk, TaskOf, ParseCk, ParamFetcher.SchemaOf, PrvOf, CkObject, Produce,
         Brings, ValidRun, Run, OneRequest;
    if Brings(h, p, PrvOf(p.s.lib, p.Abe(), holder), params, dkWire) && p.SealedFits() && p.WrappedFits() {
      BroughtRun(h, p, PrvOf(p.s.lib, p.Abe(), holder), params, dkWire, req, p.DataWire(), p.CkWire());
    }
  }

  /** With the authority: when the consumer's key is the one an issued object delivers, what decides is
      the grant with which the identity behind its key was registered first. */
  lemma GrantDecides(cfg: Authority.Config, requests: seq<Authority.Event>, obj: Name,
                     w: World, p: Publication, events: seq<Event>, req: Request)
    requires Authority.ValidRun(cfg, Authority.INITIAL, requests) && cfg.max > 0
    requires obj in Authority.Run(cfg, Authority.INITIAL, requests).store
    requires Ideal(cfg.lib) && cfg.lib.mates(cfg.schema, cfg.pub, cfg.msk)
    requires var issued := Authority.Run(cfg, Authority.INITIAL, requests).issued;
             obj in issued && |issued[obj].wire| < LIMIT
             && w.host.lib == cfg.lib && issued[obj].rsaKey == cfg.lib.rsaPublic(w.host.rsaKey)
    ensures var aa := Authority.Run(cfg, Authority.INITIAL, requests);
            var keyName := aa.issued[obj].keyName;
            && |keyName| >= 2 && keyName[..|keyName| - 2] in Authority.GrantsOf(requests)
            && (Consumption(w, p, events, req) && p.Abe() == Deployment(cfg.schema, cfg.pub)
                && KeyOf(w.host, Reassemble(aa.store[obj])) == Some(w.prv) ==>
                  forall d :: Authority.GrantGives(cfg.schema, Authority.GrantsOf(requests)[keyName[..|keyName| - 2]], d) ==>
                    Answered(w.host, p, d, events, req, Run(w.host, INITIAL, events).book.log))
  {
    Authority.KeyDelivered(cfg, requests, obj, w.host);
    var aa := Authority.Run(cfg, Authority.INITIAL, requests);
    hide PrvOf, KeyOf, ParseDataContent, FullPath, CkObject, Produce, Answered, Authority.Genuine, Authority.GrantsOf;
    if Consumption(w, p, events, req) && p.Abe() == Deployment(cfg.schema, cfg.pub)
       && KeyOf(w.host, Reassemble(aa.store[obj])) == Some(w.prv) {
      ConsumedExactly(w, p, Authority.HolderOf(cfg, aa.issued[obj]), events, req);
    }
  }
}
