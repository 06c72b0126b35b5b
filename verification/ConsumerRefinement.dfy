/** The consumer against a naive one that fetches the CK afresh for every request and caches nothing. */
module ConsumerRefinement {
  import opened Options
  import opened ByteStrings
  import opened Names
  import opened Crypto
  import opened AbeSupport
  import opened Packets
  import opened Consumer
  import opened ConsumerRuns
  import ParamFetcher

  /** One fixed private key, and the content of each CK name, which never changes. */
  datatype World = World(host: Host, prv: Bytes, ckWire: Name -> Bytes)

  predicate InWorld(w: World, e: Event) {
    match e
    case KeyArrived(wire) => KeyOf(w.host, wire) == Some(w.prv)
    case CkArrived(ck, wire) => wire == w.ckWire(ck)
    case _ => true
  }

  predicate AllInWorld(w: World, events: seq<Event>) {
    forall i :: 0 <= i < |events| ==> InWorld(w, events[i])
  }

  // ---------- The naive consumer ----------

  /** A consumer without caches: each waiting task has a CK fetch of its own. */
  datatype Naive = Naive(
    prv: Bytes,
    params: ParamFetcher.Fetcher,
    dataFetches: multiset<Request>,
    waiting: seq<Task>,
    log: seq<Delivery>)

  const NAIVE_INITIAL := Naive([], ParamFetcher.Fetch(ParamFetcher.INITIAL), multiset{}, [], [])

  /** How a CK fetch ends. */
  datatype End = Delivered(wire: Bytes) | Lost(message: string)

  /** The end of the fetch of one waiting task, or an event that both consumers see. */
  datatype NaiveEvent = Same(e: Event) | OwnEnded(i: nat, end: End)

  /** The wrapped key in CK content; the content in question has one. */
  function EncIn(wire: Bytes): Bytes {
    var enc := ParseCk(wire);
    if enc.Some? then enc.value else []
  }

  function EncAt(w: World, ck: Name): Bytes {
    EncIn(w.ckWire(ck))
  }

  /** Decryption under a freshly fetched CK, with nothing remembered. */
  function Uncached(d: Decryptor, enc: Bytes, cipher: Bytes): Outcome {
    match ParamFetcher.SchemaOf(d.abeType)
    case None => Failure(UNSUPPORTED)
    case Some(schema) => FullPath(d.lib, Deployment(schema, d.pub), d.prv, enc, cipher)
  }

  function NaiveDecryptor(w: World, n: Naive): Decryptor {
    Decryptor(w.host.lib, n.params.abeType, n.params.pub, n.prv)
  }

  function Answer(d: Decryptor, enc: Bytes, t: Task): Delivery {
    Delivery(t.req, Some(t.ck), Uncached(d, enc, t.cipher))
  }

  function Answers(d: Decryptor, enc: Bytes, ts: seq<Task>): seq<Delivery> {
    seq(|ts|, i requires 0 <= i < |ts| => Answer(d, enc, ts[i]))
  }

  /** The callback of a task whose own fetch has ended. */
  function OwnCallback(d: Decryptor, end: End, t: Task): Delivery {
    match end
    case Delivered(wire) => Answer(d, EncIn(wire), t)
    case Lost(message) => Delivery(t.req, Some(t.ck), Failure(message))
  }

  function Without(ts: seq<Task>, i: nat): seq<Task>
    requires i < |ts|
  {
    ts[..i] + ts[i + 1..]
  }

  predicate NaiveReady(n: Naive) {
    n.params.pub != [] && n.prv != []
  }

  predicate SameEnabled(w: World, n: Naive, e: Event) {
    match e
    case Param(event) => !event.Fetching? && ParamFetcher.Enabled(w.host.prefixSize, n.params, event)
    case KeyArrived(wire) => KeyOf(w.host, wire) == Some(w.prv)
    case Consume(_) => true
    case ConsumeBlock(_, wire) => NaiveReady(n) ==> WellFormedContent(wire)
    case DataArrived(req, wire) => req in n.dataFetches && WellFormedContent(wire)
    case DataFailed(req, _) => req in n.dataFetches
    case CkArrived(_, _) => false
    case CkFailed(_, _) => false
    case KeysCleared => true
  }

  predicate EndOf(w: World, ck: Name, end: End) {
    end.Delivered? ==> end.wire == w.ckWire(ck) && WellFormedCk(end.wire)
  }

  predicate NaiveEnabled(w: World, n: Naive, e: NaiveEvent) {
    match e
    case Same(e) => SameEnabled(w, n, e)
    case OwnEnded(i, end) => i < |n.waiting| && EndOf(w, n.waiting[i].ck, end)
  }

  function StartFetch(n: Naive, t: Task): Naive {
    n.(waiting := n.waiting + [t])
  }

  function NaiveEarly(n: Naive, req: Request, message: string): Naive {
    n.(log := n.log + [Delivery(req, None, Failure(message))])
  }

  function SameStep(w: World, n: Naive, e: Event): Naive
    requires SameEnabled(w, n, e)
  {
    match e
    case Param(event) => n.(params := ParamFetcher.Step(w.host.prefixSize, n.params, event))
    case KeyArrived(_) => n.(prv := w.prv)
    case Consume(req) =>
      if NaiveReady(n) then n.(dataFetches := n.dataFetches + multiset{req}) else NaiveEarly(n, req, NOT_READY)
    case ConsumeBlock(req, wire) =>
      if NaiveReady(n) then StartFetch(n, TaskOf(req, wire)) else NaiveEarly(n, req, NOT_READY)
    case DataArrived(req, wire) =>
      StartFetch(n.(dataFetches := n.dataFetches - multiset{req}), TaskOf(req, wire))
    case DataFailed(req, message) =>
      NaiveEarly(n.(dataFetches := n.dataFetches - multiset{req}), req, DATA_FAILED + message)
    case KeysCleared => n
  }

  function NaiveStep(w: World, n: Naive, e: NaiveEvent): Naive
    requires NaiveEnabled(w, n, e)
  {
    match e
    case Same(e) => SameStep(w, n, e)
    case OwnEnded(i, end) =>
      n.(waiting := Without(n.waiting, i), log := n.log + [OwnCallback(NaiveDecryptor(w, n), end, n.waiting[i])])
  }

  ghost predicate NaiveValidRun(w: World, n: Naive, events: seq<NaiveEvent>)
    decreases |events|
  {
    events == [] || (NaiveEnabled(w, n, events[0]) && NaiveValidRun(w, NaiveStep(w, n, events[0]), events[1..]))
  }

  ghost function NaiveRun(w: World, n: Naive, events: seq<NaiveEvent>): Naive
    requires NaiveValidRun(w, n, events)
    decreases |events|
  {
    if events == [] then n else NaiveRun(w, NaiveStep(w, n, events[0]), events[1..])
  }

  // ---------- The schedule that gives every request its own fetch ----------

  /** One end for each waiting task of a CK, from position i on, first come first served. */
  function Drain(ts: seq<Task>, i: nat, ck: Name, end: End): seq<NaiveEvent>
    decreases |ts| - i
  {
    if i >= |ts| then []
    else if ts[i].ck == ck then [OwnEnded(i, end)] + Drain(Without(ts, i), i, ck, end)
    else Drain(ts, i + 1, ck, end)
  }

  /** Where the engine answers from its cache, the fetch just started is answered next. */
  function AtOnce(w: World, s: State, n: Naive, t: Task): seq<NaiveEvent> {
    if t.ck in s.encAes then [OwnEnded(|n.waiting|, Delivered(w.ckWire(t.ck)))] else []
  }

  /** What an engine event becomes when each request fetches its CK itself. */
  function Afresh(w: World, s: State, n: Naive, e: Event): seq<NaiveEvent>
    requires Enabled(w.host, s, e)
  {
    match e
    case CkArrived(ck, wire) => Drain(n.waiting, 0, ck, Delivered(wire))
    case CkFailed(ck, message) => Drain(n.waiting, 0, ck, Lost(message))
    case DataArrived(req, wire) => [Same(e)] + AtOnce(w, s, n, TaskOf(req, wire))
    case ConsumeBlock(req, wire) => [Same(e)] + if Ready(s) then AtOnce(w, s, n, TaskOf(req, wire)) else []
    case _ => [Same(e)]
  }

  function ForCk(ts: seq<Task>, ck: Name): seq<Task> {
    if ts == [] then [] else (if ts[0].ck == ck then [ts[0]] else []) + ForCk(ts[1..], ck)
  }

  function NotForCk(ts: seq<Task>, ck: Name): seq<Task> {
    if ts == [] then [] else (if ts[0].ck == ck then [] else [ts[0]]) + NotForCk(ts[1..], ck)
  }

  function OwnCallbacks(d: Decryptor, end: End, ts: seq<Task>): seq<Delivery> {
    match end
    case Delivered(wire) => Answers(d, EncIn(wire), ts)
    case Lost(message) => ErrorsFor(ts, message)
  }

  /** What these schedules come to. */
  function NaiveEnd(w: World, n: Naive, ck: Name, end: End): Naive {
    n.(waiting := NotForCk(n.waiting, ck), log := n.log + OwnCallbacks(NaiveDecryptor(w, n), end, ForCk(n.waiting, ck)))
  }

  function NaiveArrive(w: World, s: State, n: Naive, t: Task): Naive {
    if t.ck in s.encAes then n.(log := n.log + [Answer(NaiveDecryptor(w, n), EncAt(w, t.ck), t)]) else StartFetch(n, t)
  }

  function NaiveAfter(w: World, s: State, n: Naive, e: Event): Naive
    requires Enabled(w.host, s, e) && (e.CkArrived? || e.CkFailed? || SameEnabled(w, n, e))
  {
    match e
    case CkArrived(ck, wire) => NaiveEnd(w, n, ck, Delivered(wire))
    case CkFailed(ck, message) => NaiveEnd(w, n, ck, Lost(message))
    case DataArrived(req, wire) => NaiveArrive(w, s, n.(dataFetches := n.dataFetches - multiset{req}), TaskOf(req, wire))
    case ConsumeBlock(req, wire) =>
      if Ready(s) then NaiveArrive(w, s, n, TaskOf(req, wire)) else NaiveEarly(n, req, NOT_READY)
    case _ => SameStep(w, n, e)
  }

  lemma OwnCallbacksFirst(d: Decryptor, end: End, t: Task, ts: seq<Task>)
    ensures OwnCallbacks(d, end, [t] + ts) == [OwnCallback(d, end, t)] + OwnCallbacks(d, end, ts)
  {
  }

  /** What ending the own fetches of a CK from position i on comes to. */
  function Drained(w: World, n: Naive, i: nat, ck: Name, end: End): Naive
    requires i <= |n.waiting|
  {
    n.(waiting := n.waiting[..i] + NotForCk(n.waiting[i..], ck),
       log := n.log + OwnCallbacks(NaiveDecryptor(w, n), end, ForCk(n.waiting[i..], ck)))
  }

  lemma DrainedSkips(w: World, n: Naive, i: nat, ck: Name, end: End)
    requires i < |n.waiting| && n.waiting[i].ck != ck
    ensures Drained(w, n, i + 1, ck, end) == Drained(w, n, i, ck, end)
  {
    var ts := n.waiting;
    assert ts[i..][1..] == ts[i + 1..] && ts[..i + 1] == ts[..i] + [ts[i]];
    assert ForCk(ts[i..], ck) == ForCk(ts[i + 1..], ck);
    assert NotForCk(ts[i..], ck) == [ts[i]] + NotForCk(ts[i + 1..], ck);
  }

  lemma DrainedEnds(w: World, n: Naive, i: nat, ck: Name, end: End)
    requires i < |n.waiting| && n.waiting[i].ck == ck && EndOf(w, ck, end)
    ensures var n' := NaiveStep(w, n, OwnEnded(i, end));
            n'.waiting == Without(n.waiting, i) && Drained(w, n', i, ck, end) == Drained(w, n, i, ck, end)
  {
    var ts, d := n.waiting, NaiveDecryptor(w, n);
    var n' := NaiveStep(w, n, OwnEnded(i, end));
    assert n'.waiting[i..] == ts[i..][1..] && n'.waiting[..i] == ts[..i];
    OwnCallbacksFirst(d, end, ts[i], ForCk(ts[i..][1..], ck));
    assert ForCk(ts[i..], ck) == [ts[i]] + ForCk(ts[i..][1..], ck);
  }

  /** Ending the own fetches of a CK one by one. */
  lemma {:induction false} DrainEnds(w: World, n: Naive, i: nat, ck: Name, end: End)
    requires i <= |n.waiting| && EndOf(w, ck, end)
    ensures NaiveValidRun(w, n, Drain(n.waiting, i, ck, end))
    ensures NaiveRun(w, n, Drain(n.waiting, i, ck, end)) == Drained(w, n, i, ck, end)
    decreases |n.waiting| - i
  {
    if i == |n.waiting| {
      assert n.waiting[..i] == n.waiting && n.log + OwnCallbacks(NaiveDecryptor(w, n), end, []) == n.log;
    } else if n.waiting[i].ck == ck {
      var n' := NaiveStep(w, n, OwnEnded(i, end));
      DrainedEnds(w, n, i, ck, end);
      hide EndOf, NaiveStep, Drained;
      DrainEnds(w, n', i, ck, end);
      assert Drain(n.waiting, i, ck, end)[1..] == Drain(n'.waiting, i, ck, end);
    } else {
      DrainedSkips(w, n, i, ck, end);
      DrainEnds(w, n, i + 1, ck, end);
    }
  }

  lemma {:induction false} NaiveRunsCompose(w: World, n: Naive, a: seq<NaiveEvent>, b: seq<NaiveEvent>)
    requires NaiveValidRun(w, n, a) && NaiveValidRun(w, NaiveRun(w, n, a), b)
    ensures NaiveValidRun(w, n, a + b) && NaiveRun(w, n, a + b) == NaiveRun(w, NaiveRun(w, n, a), b)
    decreases |a|
  {
    hide NaiveStep, NaiveEnabled;
    if a == [] {
      assert a + b == b;
    } else {
      assert (a + b)[1..] == a[1..] + b;
      NaiveRunsCompose(w, NaiveStep(w, n, a[0]), a[1..], b);
    }
  }

  lemma OneEvent(w: World, n: Naive, e: NaiveEvent)
    requires NaiveEnabled(w, n, e)
    ensures NaiveValidRun(w, n, [e]) && NaiveRun(w, n, [e]) == NaiveStep(w, n, e)
  {
    assert [e][1..] == [];
    assert NaiveRun(w, NaiveStep(w, n, e), []) == NaiveStep(w, n, e);
  }

  /** A fetch started where the engine has the CK cached, and answered next. */
  lemma AtOnceEnds(w: World, s: State, n: Naive, t: Task)
    requires CachedTruly(w, s)
    ensures NaiveValidRun(w, StartFetch(n, t), AtOnce(w, s, n, t))
    ensures NaiveRun(w, StartFetch(n, t), AtOnce(w, s, n, t)) == NaiveArrive(w, s, n, t)
  {
    if t.ck in s.encAes {
      var n' := StartFetch(n, t);
      assert n'.waiting[|n.waiting|] == t && Without(n'.waiting, |n.waiting|) == n.waiting;
      OneEvent(w, n', OwnEnded(|n.waiting|, Delivered(w.ckWire(t.ck))));
    }
  }

  lemma ArrivalAfresh(w: World, s: State, n: Naive, e: Event, n': Naive, t: Task)
    requires SameEnabled(w, n, e) && SameStep(w, n, e) == StartFetch(n', t) && n'.waiting == n.waiting && CachedTruly(w, s)
    ensures NaiveValidRun(w, n, [Same(e)] + AtOnce(w, s, n, t))
    ensures NaiveRun(w, n, [Same(e)] + AtOnce(w, s, n, t)) == NaiveArrive(w, s, n', t)
  {
    OneEvent(w, n, Same(e));
    AtOnceEnds(w, s, n', t);
    hide SameEnabled, SameStep, CachedTruly, NaiveArrive;
    NaiveRunsCompose(w, n, [Same(e)], AtOnce(w, s, n, t));
  }

  // ---------- The simulation ----------

  /** Every remembered key is what the decryptor would unwrap. */
  ghost predicate KeyMapTrue(d: Decryptor, cache: KeyCache) {
    match ParamFetcher.SchemaOf(d.abeType)
    case None => cache == map[]
    case Some(schema) => forall e <- cache :: d.lib.unwrap(schema, d.pub, d.prv, e) == Unwrapped(cache[e])
  }

  predicate Active(s: State) {
    s.book.keyMap != map[] || s.dataFetches != multiset{} || s.inFlight != {} || s.encAes != map[]
  }

  ghost predicate SameQueues(s: State, n: Naive) {
    forall ck :: Queue(s, ck) == ForCk(n.waiting, ck)
  }

  /** The CK cache holds what a fetch would bring. */
  predicate CachedTruly(w: World, s: State) {
    forall ck <- s.encAes :: WellFormedCk(w.ckWire(ck)) && EncAt(w, ck) == s.encAes[ck]
  }

  ghost predicate Sim(w: World, s: State, n: Naive) {
    && EngineInv(s)
    && n.prv == s.prv && n.params == s.params && n.dataFetches == s.dataFetches && n.log == s.book.log
    && SameQueues(s, n)
    && CachedTruly(w, s)
    && KeyMapTrue(DecryptorOf(w.host, s), s.book.keyMap)
    && (s.prv == [] || s.prv == w.prv)
    && (Active(s) ==> Ready(s))
  }

  /** A decryption through a true cache does what the full path does, and leaves the cache true. */
  lemma RunTaskIsNaive(d: Decryptor, b: Book, enc: Bytes, t: Task)
    requires KeyMapTrue(d, b.keyMap)
    ensures RunTask(d, b, enc, t).log == b.log + [Answer(d, enc, t)]
    ensures KeyMapTrue(d, RunTask(d, b, enc, t).keyMap)
  {
  }

  lemma {:induction false} FanOutIsNaive(d: Decryptor, b: Book, enc: Bytes, ts: seq<Task>)
    requires KeyMapTrue(d, b.keyMap)
    ensures FanOut(d, b, enc, ts).log == b.log + Answers(d, enc, ts)
    ensures KeyMapTrue(d, FanOut(d, b, enc, ts).keyMap)
  {
    if ts != [] {
      var n := |ts| - 1;
      FanOutIsNaive(d, b, enc, ts[..n]);
      RunTaskIsNaive(d, FanOut(d, b, enc, ts[..n]), enc, ts[n]);
      assert Answers(d, enc, ts) == Answers(d, enc, ts[..n]) + [Answer(d, enc, ts[n])];
    }
  }

  lemma {:induction false} ForCkSnoc(ts: seq<Task>, t: Task, ck: Name)
    ensures ForCk(ts + [t], ck) == ForCk(ts, ck) + (if t.ck == ck then [t] else [])
  {
    if ts == [] {
      assert [t][1..] == [];
    } else {
      ForCkSnoc(ts[1..], t, ck);
      assert (ts + [t])[1..] == ts[1..] + [t];
    }
  }

  lemma {:induction false} ForCkAfterRemoval(ts: seq<Task>, gone: Name, ck: Name)
    ensures ForCk(NotForCk(ts, gone), ck) == if ck == gone then [] else ForCk(ts, ck)
  {
    if ts != [] {
      ForCkAfterRemoval(ts[1..], gone, ck);
      if ts[0].ck != gone {
        assert NotForCk(ts, gone)[1..] == NotForCk(ts[1..], gone);
      } else {
        assert NotForCk(ts, gone) == NotForCk(ts[1..], gone);
      }
    }
  }

  /** Once ready, neither the parameters nor the private key change any more. */
  lemma ReadyFreezes(w: World, s: State, e: Event)
    requires EngineInv(s) && Enabled(w.host, s, e) && InWorld(w, e) && Ready(s) && s.prv == w.prv
    ensures DecryptorOf(w.host, Step(w.host, s, e)) == DecryptorOf(w.host, s)
  {
  }

  lemma SimWaiting(w: World, s: State, n: Naive, t: Task)
    requires SameQueues(s, n) && t.ck !in s.encAes
    ensures SameQueues(DecryptContent(w.host, s, t), NaiveArrive(w, s, n, t))
  {
    var s', n' := DecryptContent(w.host, s, t), NaiveArrive(w, s, n, t);
    forall ck
      ensures Queue(s', ck) == ForCk(n'.waiting, ck)
    {
      ForCkSnoc(n.waiting, t, ck);
      assert Queue(s, ck) == ForCk(n.waiting, ck);
    }
  }

  lemma SimArrive(w: World, s: State, n: Naive, t: Task)
    requires Sim(w, s, n) && Ready(s) && 0 in t.cipher
    ensures Sim(w, DecryptContent(w.host, s, t), NaiveArrive(w, s, n, t))
  {
    var d := DecryptorOf(w.host, s);
    DecryptContentKeepsInv(w.host, s, t);
    if t.ck in s.encAes {
      RunTaskIsNaive(d, s.book, s.encAes[t.ck], t);
      assert SameQueues(DecryptContent(w.host, s, t), NaiveArrive(w, s, n, t)) by {
        assert forall ck :: Queue(DecryptContent(w.host, s, t), ck) == Queue(s, ck);
      }
    } else {
      SimWaiting(w, s, n, t);
    }
  }

  lemma SimRemoval(s: State, n: Naive, s': State, n': Naive, name: Name)
    requires SameQueues(s, n) && s'.pending == s.pending - {name} && n'.waiting == NotForCk(n.waiting, name)
    ensures SameQueues(s', n')
  {
    forall ck
      ensures Queue(s', ck) == ForCk(n'.waiting, ck)
    {
      ForCkAfterRemoval(n.waiting, name, ck);
      assert Queue(s, ck) == ForCk(n.waiting, ck);
      assert ck != name ==> Queue(s', ck) == Queue(s, ck);
    }
  }

  lemma InFlightWaits(w: World, s: State, n: Naive, name: Name)
    requires Sim(w, s, n) && name in s.ckFetches
    ensures ForCk(n.waiting, name) == Queue(s, name) != [] && Ready(s)
  {
    assert name in s.inFlight && name in s.pending;
  }

  /** What a completion logs and remembers, on both sides. */
  lemma CompletionAnswers(w: World, s: State, n: Naive, name: Name)
    requires Sim(w, s, n) && name in s.ckFetches
    ensures var b := OnCkComplete(w.host, s, name, EncAt(w, name)).book;
            && b.log == NaiveEnd(w, n, name, Delivered(w.ckWire(name))).log
            && KeyMapTrue(DecryptorOf(w.host, s), b.keyMap)
  {
    InFlightWaits(w, s, n, name);
    FanOutIsNaive(DecryptorOf(w.host, s), s.book, EncAt(w, name), Queue(s, name));
  }

  /** The parts a finished fetch may change, put together again. */
  lemma SimAssemble(w: World, s: State, n: Naive, s': State, n': Naive)
    requires Sim(w, s, n) && Ready(s)
    requires s'.prv == s.prv && s'.params == s.params && s'.dataFetches == s.dataFetches
    requires n'.prv == n.prv && n'.params == n.params && n'.dataFetches == n.dataFetches
    requires EngineInv(s') && SameQueues(s', n') && n'.log == s'.book.log
    requires CachedTruly(w, s')
    requires KeyMapTrue(DecryptorOf(w.host, s), s'.book.keyMap)
    ensures Sim(w, s', n')
  {
  }

  lemma SimCompletion(w: World, s: State, n: Naive, name: Name, wire: Bytes)
    requires Sim(w, s, n) && Enabled(w.host, s, CkArrived(name, wire)) && wire == w.ckWire(name)
    ensures Sim(w, Step(w.host, s, CkArrived(name, wire)), NaiveEnd(w, n, name, Delivered(wire)))
  {
    InFlightWaits(w, s, n, name);
    var s', n' := OnCkComplete(w.host, s, name, EncAt(w, name)), NaiveEnd(w, n, name, Delivered(wire));
    StepKeepsInv(w.host, s, CkArrived(name, wire));
    CompletionAnswers(w, s, n, name);
    SimRemoval(s, n, s', n', name);
    SimAssemble(w, s, n, s', n');
  }

  lemma SimError(w: World, s: State, n: Naive, name: Name, message: string)
    requires Sim(w, s, n) && Enabled(w.host, s, CkFailed(name, message))
    ensures Sim(w, Step(w.host, s, CkFailed(name, message)), NaiveEnd(w, n, name, Lost(message)))
  {
    InFlightWaits(w, s, n, name);
    var s', n' := OnCkError(s, name, message), NaiveEnd(w, n, name, Lost(message));
    StepKeepsInv(w.host, s, CkFailed(name, message));
    SimRemoval(s, n, s', n', name);
    SimAssemble(w, s, n, s', n');
  }

  /** Events that touch neither the waiters nor the CK cache. */
  lemma SimSameQueues(s: State, n: Naive, s': State, n': Naive)
    requires SameQueues(s, n) && s'.pending == s.pending && n'.waiting == n.waiting
    ensures SameQueues(s', n')
  {
    forall ck
      ensures Queue(s', ck) == ForCk(n'.waiting, ck)
    {
      assert Queue(s, ck) == ForCk(n.waiting, ck);
    }
  }

  predicate Quiet(s: State, e: Event) {
    e.Param? || e.KeyArrived? || e.Consume? || e.DataFailed? || e.KeysCleared? || (e.ConsumeBlock? && !Ready(s))
  }

  lemma SimQuiet(w: World, s: State, n: Naive, e: Event)
    requires Sim(w, s, n) && Enabled(w.host, s, e) && InWorld(w, e) && Quiet(s, e)
    ensures SameEnabled(w, n, e) && Sim(w, Step(w.host, s, e), SameStep(w, n, e))
  {
    StepKeepsInv(w.host, s, e);
    SimSameQueues(s, n, Step(w.host, s, e), SameStep(w, n, e));
    if Ready(s) {
      ReadyFreezes(w, s, e);
    }
  }

  lemma SimEnables(w: World, s: State, n: Naive, e: Event)
    requires Sim(w, s, n) && Enabled(w.host, s, e) && InWorld(w, e)
    ensures e.CkArrived? || e.CkFailed? || SameEnabled(w, n, e)
  {
  }

  lemma SimBlock(w: World, s: State, n: Naive, req: Request, wire: Bytes)
    requires Sim(w, s, n) && Ready(s) && WellFormedContent(wire)
    ensures Sim(w, Step(w.host, s, ConsumeBlock(req, wire)), NaiveArrive(w, s, n, TaskOf(req, wire)))
  {
    SimAccept(w, s, n, req);
    SimArrive(w, Accept(s, req), n, TaskOf(req, wire));
    hide Sim;
    assert NaiveArrive(w, Accept(s, req), n, TaskOf(req, wire)) == NaiveArrive(w, s, n, TaskOf(req, wire));
  }

  lemma SimData(w: World, s: State, n: Naive, req: Request, wire: Bytes)
    requires Sim(w, s, n) && req in s.dataFetches && WellFormedContent(wire)
    ensures var n' := n.(dataFetches := n.dataFetches - multiset{req});
            Sim(w, Step(w.host, s, DataArrived(req, wire)), NaiveArrive(w, s, n', TaskOf(req, wire)))
  {
    var s', n' := s.(dataFetches := s.dataFetches - multiset{req}), n.(dataFetches := n.dataFetches - multiset{req});
    SimPacket(w, s, n, req);
    SimArrive(w, s', n', TaskOf(req, wire));
    hide Sim;
    assert NaiveArrive(w, s', n', TaskOf(req, wire)) == NaiveArrive(w, s, n', TaskOf(req, wire));
  }

  lemma SimStep(w: World, s: State, n: Naive, e: Event)
    requires Sim(w, s, n) && Enabled(w.host, s, e) && InWorld(w, e)
    ensures e.CkArrived? || e.CkFailed? || SameEnabled(w, n, e)
    ensures Sim(w, Step(w.host, s, e), NaiveAfter(w, s, n, e))
  {
    SimEnables(w, s, n, e);
    hide Sim, Step;
    match e
    case ConsumeBlock(req, wire) =>
      if Ready(s) {
        SimBlock(w, s, n, req, wire);
      } else {
        SimQuiet(w, s, n, e);
      }
    case DataArrived(req, wire) => SimData(w, s, n, req, wire);
    case CkArrived(name, wire) => SimCompletion(w, s, n, name, wire);
    case CkFailed(name, message) => SimError(w, s, n, name, message);
    case _ => SimQuiet(w, s, n, e);
  }

  /** Each engine event is matched by possible events of the naive consumer. */
  lemma AfreshRuns(w: World, s: State, n: Naive, e: Event)
    requires Sim(w, s, n) && Enabled(w.host, s, e) && InWorld(w, e)
    ensures e.CkArrived? || e.CkFailed? || SameEnabled(w, n, e)
    ensures NaiveValidRun(w, n, Afresh(w, s, n, e))
    ensures NaiveRun(w, n, Afresh(w, s, n, e)) == NaiveAfter(w, s, n, e)
  {
    SimEnables(w, s, n, e);
    assert n.waiting[..0] == [] && n.waiting[0..] == n.waiting;
    match e
    case ConsumeBlock(req, wire) =>
      if Ready(s) {
        ArrivalAfresh(w, s, n, e, n, TaskOf(req, wire));
      } else {
        OneEvent(w, n, Same(e));
      }
    case DataArrived(req, wire) =>
      ArrivalAfresh(w, s, n, e, n.(dataFetches := n.dataFetches - multiset{req}), TaskOf(req, wire));
    case CkArrived(name, wire) => DrainEnds(w, n, 0, name, Delivered(wire));
    case CkFailed(name, message) => DrainEnds(w, n, 0, name, Lost(message));
    case _ => OneEvent(w, n, Same(e));
  }

  lemma SimAccept(w: World, s: State, n: Naive, req: Request)
    requires Sim(w, s, n)
    ensures Sim(w, Accept(s, req), n)
  {
    SimSameQueues(s, n, Accept(s, req), n);
  }

  lemma SimPacket(w: World, s: State, n: Naive, req: Request)
    requires Sim(w, s, n) && req in s.dataFetches
    ensures Ready(s)
    ensures Sim(w, s.(dataFetches := s.dataFetches - multiset{req}), n.(dataFetches := n.dataFetches - multiset{req}))
  {
    SimSameQueues(s, n, s.(dataFetches := s.dataFetches - multiset{req}), n.(dataFetches := n.dataFetches - multiset{req}));
  }

  /** The schedule of a whole run. */
  ghost function Schedule(w: World, s: State, n: Naive, events: seq<Event>): seq<NaiveEvent>
    requires Sim(w, s, n) && ValidRun(w.host, s, events) && AllInWorld(w, events)
    decreases |events|
  {
    if events == [] then []
    else
      assert InWorld(w, events[0]);
      SimStep(w, s, n, events[0]);
      Afresh(w, s, n, events[0]) + Schedule(w, Step(w.host, s, events[0]), NaiveAfter(w, s, n, events[0]), events[1..])
  }

  lemma {:induction false} SimRun(w: World, s: State, n: Naive, events: seq<Event>)
    requires Sim(w, s, n) && ValidRun(w.host, s, events) && AllInWorld(w, events)
    ensures NaiveValidRun(w, n, Schedule(w, s, n, events))
    ensures Sim(w, Run(w.host, s, events), NaiveRun(w, n, Schedule(w, s, n, events)))
    decreases |events|
  {
    if events != [] {
      hide Sim, Enabled, Step, NaiveEnabled, NaiveStep, Afresh, NaiveAfter, SameEnabled;
      var e := events[0];
      assert InWorld(w, e);
      AfreshRuns(w, s, n, e);
      SimStep(w, s, n, e);
      var s', n' := Step(w.host, s, e), NaiveAfter(w, s, n, e);
      SimRun(w, s', n', events[1..]);
      NaiveRunsCompose(w, n, Afresh(w, s, n, e), Schedule(w, s', n', events[1..]));
    }
  }

  /** The events of a schedule that are not the end of a CK fetch, and the same of an engine run. */
  function SharedOf(schedule: seq<NaiveEvent>): seq<Event> {
    if schedule == [] then []
    else (if schedule[0].Same? then [schedule[0].e] else []) + SharedOf(schedule[1..])
  }

  function OtherThanCk(events: seq<Event>): seq<Event> {
    if events == [] then []
    else (if events[0].CkArrived? || events[0].CkFailed? then [] else [events[0]]) + OtherThanCk(events[1..])
  }

  lemma {:induction false} SharedAppend(a: seq<NaiveEvent>, b: seq<NaiveEvent>)
    ensures SharedOf(a + b) == SharedOf(a) + SharedOf(b)
  {
    if a == [] {
      assert a + b == b;
    } else {
      SharedAppend(a[1..], b);
      assert (a + b)[1..] == a[1..] + b;
      var first := if a[0].Same? then [a[0].e] else [];
      assert SharedOf(a + b) == first + (SharedOf(a[1..]) + SharedOf(b));
    }
  }

  lemma {:induction false} DrainShares(ts: seq<Task>, i: nat, ck: Name, end: End)
    ensures SharedOf(Drain(ts, i, ck, end)) == []
    decreases |ts| - i
  {
    if i < |ts| {
      if ts[i].ck == ck {
        DrainShares(Without(ts, i), i, ck, end);
        assert Drain(ts, i, ck, end)[1..] == Drain(Without(ts, i), i, ck, end);
      } else {
        DrainShares(ts, i + 1, ck, end);
      }
    }
  }

  lemma AfreshShares(w: World, s: State, n: Naive, e: Event)
    requires Enabled(w.host, s, e)
    ensures SharedOf(Afresh(w, s, n, e)) == if e.CkArrived? || e.CkFailed? then [] else [e]
  {
    if e.CkArrived? || e.CkFailed? {
      DrainShares(n.waiting, 0, e.ck, if e.CkArrived? then Delivered(e.wire) else Lost(e.message));
    } else {
      var schedule := Afresh(w, s, n, e);
      assert SharedOf(schedule) == [e] + SharedOf(schedule[1..]);
      if e.DataArrived? || (e.ConsumeBlock? && Ready(s)) {
        var own := AtOnce(w, s, n, TaskOf(e.req, e.wire));
        assert schedule[1..] == own;
        assert own != [] ==> SharedOf(own) == SharedOf(own[1..]);
      }
    }
  }

  /** The schedule leaves every event but the ends of CK fetches as it is, in its order. */
  lemma {:induction false} ScheduleShares(w: World, s: State, n: Naive, events: seq<Event>)
    requires Sim(w, s, n) && ValidRun(w.host, s, events) && AllInWorld(w, events)
    ensures SharedOf(Schedule(w, s, n, events)) == OtherThanCk(events)
    decreases |events|
  {
    if events != [] {
      hide Sim, Enabled, Step, Afresh, NaiveAfter;
      assert InWorld(w, events[0]);
      SimStep(w, s, n, events[0]);
      var s', n' := Step(w.host, s, events[0]), NaiveAfter(w, s, n, events[0]);
      ScheduleShares(w, s', n', events[1..]);
      AfreshShares(w, s, n, events[0]);
      SharedAppend(Afresh(w, s, n, events[0]), Schedule(w, s', n', events[1..]));
    }
  }

  /** For every interleaving of requests, fetch completions and fetch errors the callbacks are, in
      order and in outcome, those of the naive consumer on the schedule in which each request's own
      fetch ends separately, with what the shared fetch brought: the de-duplication of CK fetches and
      both caches cannot be observed. */
  lemma EngineRefinesNaive(w: World, events: seq<Event>)
    requires ValidRun(w.host, INITIAL, events) && AllInWorld(w, events)
    ensures Sim(w, INITIAL, NAIVE_INITIAL)
    ensures var schedule := Schedule(w, INITIAL, NAIVE_INITIAL, events);
            && NaiveValidRun(w, NAIVE_INITIAL, schedule) && SharedOf(schedule) == OtherThanCk(events)
            && Run(w.host, INITIAL, events).book.log == NaiveRun(w, NAIVE_INITIAL, schedule).log
  {
    InitialSim(w);
    SimRun(w, INITIAL, NAIVE_INITIAL, events);
    ScheduleShares(w, INITIAL, NAIVE_INITIAL, events);
  }

  lemma InitialSim(w: World)
    ensures Sim(w, INITIAL, NAIVE_INITIAL)
  {
    assert forall ck :: Queue(INITIAL, ck) == ForCk(NAIVE_INITIAL.waiting, ck);
    assert INITIAL.ckFetches == multiset(INITIAL.inFlight);
  }
}
