/** src/consumer.cpp: the content-key engine of a consumer. */
module Consumer {
  import opened Options
  import opened ByteStrings
  import opened Names
  import opened Crypto
  import opened AbeSupport
  import opened Packets
  import ParamFetcher

  const NOT_READY := "Public params or private decryption key doesn't exist"
  const UNSUPPORTED := "Unsupported ABE type"
  const DATA_FAILED := "Data fetch failed: "

  /** A request stands for the two callbacks it came with. */
  datatype Request = Request(id: nat, name: Name)

  /** A request whose content packet is at hand: what it waits for is the content key `ck`. */
  datatype Task = Task(req: Request, ck: Name, cipher: Bytes, plainSize: nat)

  /** One callback: the request, the CK it was waiting for (None before its packet arrived), the outcome. */
  datatype Delivery = Delivery(req: Request, ck: Option<Name>, outcome: Outcome)

  /** What a decryption changes: the shared cache of unwrapped keys, and the callbacks made. */
  datatype Book = Book(keyMap: KeyCache, log: seq<Delivery>)

  /** What a decryption reads. */
  datatype Decryptor = Decryptor(lib: Library, abeType: Bytes, pub: Bytes, prv: Bytes)

  /** The consumer's fixed surroundings: the libraries, the RSA key behind its certificate and the
      length of the authority's prefix. */
  datatype Host = Host(lib: Library, rsaKey: Bytes, prefixSize: nat)

  /** The fields of the consumer and of the shared ABE support, the fetches the network owes it,
      the callbacks made, and two histories: requests accepted and tasks that reached `decryptContent`. */
  datatype State = State(
    prv: Bytes,
    params: ParamFetcher.Fetcher,
    inFlight: set<Name>,
    pending: map<Name, seq<Task>>,
    encAes: map<Name, Bytes>,
    book: Book,
    dataFetches: multiset<Request>,
    ckFetches: multiset<Name>,
    requested: seq<Request>,
    arrivals: seq<Task>)

  const INITIAL := State([], ParamFetcher.Fetch(ParamFetcher.INITIAL), {}, map[], map[], Book(map[], []),
                         multiset{}, multiset{}, [], [])

  datatype Event =
    | Param(event: ParamFetcher.Event)
    | KeyArrived(wire: Bytes)
    | Consume(req: Request)
    | ConsumeBlock(req: Request, wire: Bytes)
    | DataArrived(req: Request, wire: Bytes)
    | DataFailed(req: Request, message: string)
    | CkArrived(ck: Name, wire: Bytes)
    | CkFailed(ck: Name, message: string)
    | KeysCleared

  // ---------- Specification ----------

  function NormalizeCkKey(ckName: Name): Name {
    if EndsInSegment(ckName) then Parent(ckName) else ckName
  }

  predicate Ready(s: State) {
    s.params.pub != [] && s.prv != []
  }

  function Queue(s: State, ck: Name): seq<Task> {
    if ck in s.pending then s.pending[ck] else []
  }

  /** Every buffer that is read as a C string holds a NUL. */
  predicate WellFormedContent(wire: Bytes) {
    ParseDataContent(wire).Some? && 0 in ParseDataContent(wire).value.cipher
  }

  predicate WellFormedCk(wire: Bytes) {
    ParseCk(wire).Some? && 0 in ParseCk(wire).value
  }

  /** The private key in a DKEY packet. */
  function KeyOf(h: Host, wire: Bytes): Option<Bytes> {
    var payload :- DecryptDataContent(h.lib, wire, h.rsaKey);
    if 0 in payload then Some(CString(payload)) else None
  }

  function TaskOf(req: Request, wire: Bytes): Task
    requires WellFormedContent(wire)
  {
    var content := ParseDataContent(wire).value;
    Task(req, NormalizeCkKey(content.ckName), content.cipher, content.plainSize)
  }

  function DecryptorOf(h: Host, s: State): Decryptor {
    Decryptor(h.lib, s.params.abeType, s.params.pub, s.prv)
  }

  /** A decryption attempt and its callback. */
  function RunTask(d: Decryptor, b: Book, enc: Bytes, t: Task): Book {
    match ParamFetcher.SchemaOf(d.abeType)
    case None => b.(log := b.log + [Delivery(t.req, Some(t.ck), Failure(UNSUPPORTED))])
    case Some(schema) =>
      var abe := Deployment(schema, d.pub);
      Book(CacheAfter(d.lib, abe, d.prv, b.keyMap, enc),
           b.log + [Delivery(t.req, Some(t.ck), CachedPath(d.lib, abe, d.prv, b.keyMap, enc, t.cipher))])
  }

  /** All waiters in arrival order. */
  function FanOut(d: Decryptor, b: Book, enc: Bytes, ts: seq<Task>): Book {
    if ts == [] then b
    else
      var n := |ts| - 1;
      RunTask(d, FanOut(d, b, enc, ts[..n]), enc, ts[n])
  }

  function ErrorsFor(ts: seq<Task>, message: string): seq<Delivery> {
    seq(|ts|, i requires 0 <= i < |ts| => Delivery(ts[i].req, Some(ts[i].ck), Failure(message)))
  }

  function DecryptContent(h: Host, s: State, t: Task): State {
    var s' := s.(arrivals := s.arrivals + [t]);
    if t.ck in s.encAes then s'.(book := RunTask(DecryptorOf(h, s), s.book, s.encAes[t.ck], t))
    else if t.ck in s.inFlight then s'.(pending := s.pending[t.ck := Queue(s, t.ck) + [t]])
    else s'.(inFlight := s.inFlight + {t.ck},
             pending := s.pending[t.ck := Queue(s, t.ck) + [t]],
             ckFetches := s.ckFetches + multiset{t.ck})
  }

  function OnCkComplete(h: Host, s: State, ck: Name, enc: Bytes): State {
    s.(ckFetches := s.ckFetches - multiset{ck},
       encAes := s.encAes[ck := enc],
       book := FanOut(DecryptorOf(h, s), s.book, enc, Queue(s, ck)),
       pending := s.pending - {ck},
       inFlight := s.inFlight - {ck})
  }

  function OnCkError(s: State, ck: Name, message: string): State {
    s.(ckFetches := s.ckFetches - multiset{ck},
       book := s.book.(log := s.book.log + ErrorsFor(Queue(s, ck), message)),
       pending := s.pending - {ck},
       inFlight := s.inFlight - {ck})
  }

  function Early(s: State, req: Request, message: string): State {
    s.(book := s.book.(log := s.book.log + [Delivery(req, None, Failure(message))]))
  }

  predicate Enabled(h: Host, s: State, e: Event) {
    match e
    case Param(event) => !event.Fetching? && ParamFetcher.Enabled(h.prefixSize, s.params, event)
    case KeyArrived(wire) => KeyOf(h, wire).Some?
    case Consume(_) => true
    case ConsumeBlock(_, wire) => Ready(s) ==> WellFormedContent(wire)
    case DataArrived(req, wire) => req in s.dataFetches && WellFormedContent(wire)
    case DataFailed(req, _) => req in s.dataFetches
    case CkArrived(ck, wire) => ck in s.ckFetches && WellFormedCk(wire)
    case CkFailed(ck, _) => ck in s.ckFetches
    case KeysCleared => true
  }

  function Accept(s: State, req: Request): State {
    s.(requested := s.requested + [req])
  }

  function Step(h: Host, s: State, e: Event): State
    requires Enabled(h, s, e)
  {
    match e
    case Param(event) => s.(params := ParamFetcher.Step(h.prefixSize, s.params, event))
    case KeyArrived(wire) => s.(prv := KeyOf(h, wire).value)
    case Consume(req) =>
      var s' := Accept(s, req);
      if Ready(s) then s'.(dataFetches := s.dataFetches + multiset{req}) else Early(s', req, NOT_READY)
    case ConsumeBlock(req, wire) =>
      var s' := Accept(s, req);
      if Ready(s) then DecryptContent(h, s', TaskOf(req, wire)) else Early(s', req, NOT_READY)
    case DataArrived(req, wire) =>
      DecryptContent(h, s.(dataFetches := s.dataFetches - multiset{req}), TaskOf(req, wire))
    case DataFailed(req, message) =>
      Early(s.(dataFetches := s.dataFetches - multiset{req}), req, DATA_FAILED + message)
    case CkArrived(ck, wire) => OnCkComplete(h, s, ck, ParseCk(wire).value)
    case CkFailed(ck, message) => OnCkError(s, ck, message)
    case KeysCleared => s.(book := s.book.(keyMap := map[]))
  }

  /** The names that share a queue, a fetch and a cache entry with an object name are that name and
      the names of its segments, and no others. */
  lemma SharedCkKey(obj: Name, ckName: Name)
    requires !EndsInSegment(obj)
    ensures NormalizeCkKey(ckName) == obj <==>
              ckName == obj || (EndsInSegment(ckName) && ckName == obj + [ckName[|ckName| - 1]])
  {
    if EndsInSegment(ckName) {
      assert ckName == Parent(ckName) + [ckName[|ckName| - 1]];
    }
  }

  /** The name of any segment stands for its object; a name that ends in anything else stands for itself. */
  lemma SegmentsStandForObject(obj: Name, i: nat, ckName: Name)
    ensures NormalizeCkKey(obj + [SegmentNumber(i)]) == obj
    ensures ckName == [] || ckName[|ckName| - 1].typ != 50 ==> NormalizeCkKey(ckName) == ckName
  {
    var name := obj + [SegmentNumber(i)];
    assert name[..|name| - 1] == obj && name[|name| - 1] == SegmentNumber(i);
  }

  /** The callbacks made before a packet arrives: a refusal when there are no parameters or no private
      key, and the prefixed error of the data fetch. */
  lemma EarlyCallbacks(h: Host, s: State, e: Event)
    requires Enabled(h, s, e) && (e.Consume? || e.ConsumeBlock? || e.DataFailed?)
    ensures var log := Step(h, s, e).book.log;
            match e
            case DataFailed(req, message) => log == s.book.log + [Delivery(req, None, Failure("Data fetch failed: " + message))]
            case _ =>
              s.params.pub == [] || s.prv == [] ==>
                log == s.book.log + [Delivery(e.req, None, Failure("Public params or private decryption key doesn't exist"))]
  {
  }

  /** A packet that names a CK object or any of its segments waits for the object, with the cipher text
      and the plaintext size it carries. */
  lemma PacketWaitsForObject(req: Request, wire: Bytes, obj: Name, i: nat)
    requires WellFormedContent(wire) && !EndsInSegment(obj)
    requires ParseDataContent(wire).value.ckName in {obj, obj + [SegmentNumber(i)]}
    ensures var content := ParseDataContent(wire).value;
            TaskOf(req, wire) == Task(req, obj, content.cipher, content.plainSize)
  {
    hide ParseDataContent;
    SegmentsStandForObject(obj, i, obj);
  }

  // ---------- The engine invariant ----------

  predicate TaskWaitsFor(t: Task, ck: Name) {
    t.ck == ck && 0 in t.cipher
  }

  predicate WaitersFor(ts: seq<Task>, ck: Name) {
    forall i :: 0 <= i < |ts| ==> TaskWaitsFor(ts[i], ck)
  }

  /** The in-flight set is the domain of the waiter table, no waiter queue is empty, each in-flight
      name has exactly one outstanding fetch, and no in-flight name is cached. */
  predicate EngineInv(s: State) {
    && s.inFlight == s.pending.Keys
    && (forall ck <- s.pending :: s.pending[ck] != [] && WaitersFor(s.pending[ck], ck))
    && s.ckFetches == multiset(s.inFlight)
    && s.inFlight !! s.encAes.Keys
    && (forall ck <- s.encAes :: 0 in s.encAes[ck])
    && ParamFetcher.SingleFetch(s.params)
  }

  lemma DecryptContentKeepsInv(h: Host, s: State, t: Task)
    requires EngineInv(s) && 0 in t.cipher
    ensures EngineInv(DecryptContent(h, s, t))
  {
    if t.ck !in s.encAes {
      var s' := DecryptContent(h, s, t);
      var queue := Queue(s, t.ck) + [t];
      assert WaitersFor(queue, t.ck);
      assert s'.inFlight == s'.pending.Keys;
      assert s'.ckFetches == multiset(s'.inFlight);
      forall ck <- s'.pending
        ensures s'.pending[ck] != [] && WaitersFor(s'.pending[ck], ck)
      {
        assert ck != t.ck ==> s'.pending[ck] == s.pending[ck];
      }
    }
  }

  /** One CK fetch ends, by completion or by error, and takes its waiters with it. */
  lemma EndOfFetchKeepsInv(s: State, s': State, ck: Name)
    requires EngineInv(s) && ck in s.ckFetches
    requires s'.pending == s.pending - {ck} && s'.inFlight == s.inFlight - {ck}
    requires s'.ckFetches == s.ckFetches - multiset{ck} && s'.params == s.params
    requires s'.encAes == s.encAes || (ck in s'.encAes && 0 in s'.encAes[ck] && s'.encAes == s.encAes[ck := s'.encAes[ck]])
    ensures EngineInv(s')
  {
    assert s'.ckFetches == multiset(s'.inFlight);
  }

  /** Every step keeps the engine invariant. */
  lemma StepKeepsInv(h: Host, s: State, e: Event)
    requires EngineInv(s) && Enabled(h, s, e)
    ensures EngineInv(Step(h, s, e))
  {
    match e
    case Param(event) => ParamFetcher.SingleFetchStep(h.prefixSize, s.params, event);
    case ConsumeBlock(req, wire) =>
      if Ready(s) {
        DecryptContentKeepsInv(h, Accept(s, req), TaskOf(req, wire));
      }
    case DataArrived(req, wire) =>
      DecryptContentKeepsInv(h, s.(dataFetches := s.dataFetches - multiset{req}), TaskOf(req, wire));
    case CkArrived(ck, wire) =>
      EndOfFetchKeepsInv(s, Step(h, s, e), ck);
    case CkFailed(ck, message) => EndOfFetchKeepsInv(s, Step(h, s, e), ck);
    case _ =>
  }

  // ---------- Implementation ----------

  class ConsumerNode {
    const rsaKey: Bytes
    const params: ParamFetcher.Client
    const abe: ABESupport
    var keyCache: Bytes
    var ckInterestsSent: set<Name>
    var pendingCallbacks: map<Name, seq<Task>>
    var ckEncAesCache: map<Name, Bytes>
    // the network's side, and the callbacks made
    var dataFetches: multiset<Request>
    var ckFetches: multiset<Name>
    var log: seq<Delivery>
    ghost var requested: seq<Request>
    ghost var arrivals: seq<Task>

    function TheHost(): Host {
      Host(abe.lib, rsaKey, params.prefixSize)
    }

    ghost function BookView(): Book
      reads this, abe
    {
      Book(abe.decryptedContentKeyMap, log)
    }

    function TheDecryptor(): Decryptor
      reads this, params
    {
      Decryptor(abe.lib, params.abeType, params.pub, keyCache)
    }

    ghost function View(): State
      reads this, params, abe
    {
      State(keyCache, params.View(), ckInterestsSent, pendingCallbacks, ckEncAesCache, BookView(),
            dataFetches, ckFetches, requested, arrivals)
    }

    function Waiters(ckKey: Name): seq<Task>
      reads this`pendingCallbacks
    {
      if ckKey in pendingCallbacks then pendingCallbacks[ckKey] else []
    }

    ghost predicate Valid()
      reads this, params, abe
    {
      EngineInv(View())
    }

    constructor (rsaKey: Bytes, prefixSize: nat, abe: ABESupport)
      ensures this.rsaKey == rsaKey && this.abe == abe && fresh(params) && params.prefixSize == prefixSize
      ensures View() == INITIAL.(book := Book(abe.decryptedContentKeyMap, [])) && Valid()
    {
      this.rsaKey, this.abe := rsaKey, abe;
      params := new ParamFetcher.Client(prefixSize);
      keyCache, ckInterestsSent, pendingCallbacks, ckEncAesCache := [], {}, map[], map[];
      dataFetches, ckFetches, log, requested, arrivals := multiset{}, multiset{}, [], [], [];
      new;
      params.FetchPublicParams();
    }

    method ReadyForDecryption() returns (ready: bool)
      ensures ready == Ready(View())
    {
      if params.pub == [] {
        return false;
      } else if keyCache == [] {
        return false;
      }
      return true;
    }

    /** The completion handler of `obtainDecryptionKey`. */
    method OnKeyComplete(wire: Bytes)
      requires Valid() && Enabled(TheHost(), View(), KeyArrived(wire))
      modifies this
      ensures View() == Step(TheHost(), old(View()), KeyArrived(wire)) && Valid()
    {
      var payload := DecryptDataContent(abe.lib, wire, rsaKey);
      var prv := new PrivateKey([]);
      prv.FromBuffer(payload.value);
      keyCache := prv.prv;
    }

    /** `consume` by name or Interest: fetch the content packet first. */
    method ConsumeData(req: Request)
      requires Valid()
      modifies this
      ensures View() == Step(TheHost(), old(View()), Consume(req)) && Valid()
    {
      requested := requested + [req];
      var ready := ReadyForDecryption();
      if !ready {
        log := log + [Delivery(req, None, Failure(NOT_READY))];
        return;
      }
      dataFetches := dataFetches + multiset{req};
    }

    /** `consume` with a content packet already at hand. */
    method ConsumeDataBlock(req: Request, wire: Bytes)
      requires Valid() && Enabled(TheHost(), View(), ConsumeBlock(req, wire))
      modifies this, abe
      ensures View() == Step(TheHost(), old(View()), ConsumeBlock(req, wire)) && Valid()
    {
      StepKeepsInv(TheHost(), View(), ConsumeBlock(req, wire));
      requested := requested + [req];
      var ready := ReadyForDecryption();
      if !ready {
        log := log + [Delivery(req, None, Failure(NOT_READY))];
        return;
      }
      Decrypt(req, wire);
    }

    method OnDataComplete(req: Request, wire: Bytes)
      requires Valid() && Enabled(TheHost(), View(), DataArrived(req, wire))
      modifies this, abe
      ensures View() == Step(TheHost(), old(View()), DataArrived(req, wire)) && Valid()
    {
      StepKeepsInv(TheHost(), View(), DataArrived(req, wire));
      dataFetches := dataFetches - multiset{req};
      Decrypt(req, wire);
    }

    method OnDataError(req: Request, message: string)
      requires Valid() && Enabled(TheHost(), View(), DataFailed(req, message))
      modifies this
      ensures View() == Step(TheHost(), old(View()), DataFailed(req, message)) && Valid()
    {
      dataFetches := dataFetches - multiset{req};
      log := log + [Delivery(req, None, Failure(DATA_FAILED + message))];
    }

    /** `decryptContent`. */
    method Decrypt(req: Request, wire: Bytes)
      requires WellFormedContent(wire) && forall ck <- ckEncAesCache :: 0 in ckEncAesCache[ck]
      modifies this, abe
      ensures View() == DecryptContent(TheHost(), old(View()), TaskOf(req, wire))
    {
      var content := ParseDataContent(wire).value;
      var ckKey := NormalizeCkKey(content.ckName);
      Dispatch(Task(req, ckKey, content.cipher, content.plainSize));
    }

    /** Its three cases: CK cached, CK being fetched, CK to be fetched. */
    method Dispatch(task: Task)
      requires 0 in task.cipher && (task.ck in ckEncAesCache ==> 0 in ckEncAesCache[task.ck])
      modifies this`arrivals, this`log, this`pendingCallbacks, this`ckInterestsSent, this`ckFetches, abe
      ensures arrivals == old(arrivals) + [task]
      ensures if task.ck in ckEncAesCache then
                && BookView() == RunTask(TheDecryptor(), old(BookView()), ckEncAesCache[task.ck], task)
                && (pendingCallbacks, ckInterestsSent, ckFetches) == old((pendingCallbacks, ckInterestsSent, ckFetches))
              else
                && BookView() == old(BookView())
                && pendingCallbacks == old(pendingCallbacks)[task.ck := old(Waiters(task.ck)) + [task]]
                && if task.ck in old(ckInterestsSent)
                   then ckInterestsSent == old(ckInterestsSent) && ckFetches == old(ckFetches)
                   else ckInterestsSent == old(ckInterestsSent) + {task.ck} && ckFetches == old(ckFetches) + multiset{task.ck}
    {
      arrivals := arrivals + [task];
      if task.ck in ckEncAesCache {
        Attempt(ckEncAesCache[task.ck], task);
        return;
      }
      Wait(task.ck, task);
    }

    /** Join the fetch in flight, or start the only one. */
    method Wait(ckKey: Name, task: Task)
      modifies this`pendingCallbacks, this`ckInterestsSent, this`ckFetches
      ensures pendingCallbacks == old(pendingCallbacks)[ckKey := old(Waiters(ckKey)) + [task]]
      ensures if ckKey in old(ckInterestsSent)
              then ckInterestsSent == old(ckInterestsSent) && ckFetches == old(ckFetches)
              else ckInterestsSent == old(ckInterestsSent) + {ckKey} && ckFetches == old(ckFetches) + multiset{ckKey}
    {
      if ckKey in ckInterestsSent {
        pendingCallbacks := pendingCallbacks[ckKey := Waiters(ckKey) + [task]];
        return;
      }
      ckInterestsSent := ckInterestsSent + {ckKey};
      pendingCallbacks := pendingCallbacks[ckKey := Waiters(ckKey) + [task]];
      ckFetches := ckFetches + multiset{ckKey};
    }

    /** Decrypt under a wrapped key and call back: a fresh content key each time. */
    method Attempt(enc: Bytes, task: Task)
      requires 0 in enc && 0 in task.cipher
      modifies this`log, abe
      ensures BookView() == RunTask(TheDecryptor(), old(BookView()), enc, task)
    {
      var outcome: Outcome;
      if params.abeType == ParamFetcher.CP_ABE {
        var contentKey := new ContentKey([], enc);
        outcome := abe.Decrypt(Deployment(CpAbe, params.pub), keyCache, CipherText(contentKey, task.cipher, task.plainSize));
      } else if params.abeType == ParamFetcher.KP_ABE {
        var contentKey := new ContentKey([], enc);
        outcome := abe.Decrypt(Deployment(KpAbe, params.pub), keyCache, CipherText(contentKey, task.cipher, task.plainSize));
      } else {
        outcome := Failure(UNSUPPORTED);
      }
      log := log + [Delivery(task.req, Some(task.ck), outcome)];
    }

    /** `onCkeyData` for each waiter in turn. */
    method FanOutTo(ckKey: Name, waiters: seq<Task>, enc: Bytes)
      requires 0 in enc && WaitersFor(waiters, ckKey)
      modifies this`log, abe
      ensures BookView() == FanOut(TheDecryptor(), old(BookView()), enc, waiters)
    {
      for i := 0 to |waiters|
        invariant BookView() == FanOut(TheDecryptor(), old(BookView()), enc, waiters[..i])
      {
        assert waiters[..i + 1][..i] == waiters[..i];
        assert TaskWaitsFor(waiters[i], ckKey);
        Attempt(enc, waiters[i]);
      }
      assert waiters[..|waiters|] == waiters;
    }

    /** The end of either handler: the waiters and the in-flight mark go. */
    method Release(ckKey: Name)
      modifies this`pendingCallbacks, this`ckInterestsSent
      ensures pendingCallbacks == old(pendingCallbacks) - {ckKey}
      ensures ckInterestsSent == old(ckInterestsSent) - {ckKey}
    {
      pendingCallbacks := pendingCallbacks - {ckKey};
      ckInterestsSent := ckInterestsSent - {ckKey};
    }

    /** The body of the completion handler of a CK fetch: fill the cache, serve the waiters. */
    method ServeWaiters(ckKey: Name, enc: Bytes)
      requires 0 in enc && WaitersFor(Waiters(ckKey), ckKey)
      modifies this`ckFetches, this`ckEncAesCache, this`log, this`pendingCallbacks, this`ckInterestsSent, abe
      ensures ckFetches == old(ckFetches) - multiset{ckKey}
      ensures ckEncAesCache == old(ckEncAesCache)[ckKey := enc]
      ensures BookView() == FanOut(TheDecryptor(), old(BookView()), enc, old(Waiters(ckKey)))
      ensures pendingCallbacks == old(pendingCallbacks) - {ckKey}
      ensures ckInterestsSent == old(ckInterestsSent) - {ckKey}
    {
      ckFetches := ckFetches - multiset{ckKey};
      ckEncAesCache := ckEncAesCache[ckKey := enc];
      if ckKey in pendingCallbacks {
        FanOutTo(ckKey, pendingCallbacks[ckKey], enc);
      }
      Release(ckKey);
    }

    method OnCkFetched(ckKey: Name, wire: Bytes)
      requires Valid() && Enabled(TheHost(), View(), CkArrived(ckKey, wire))
      modifies this, abe
      ensures View() == Step(TheHost(), old(View()), CkArrived(ckKey, wire)) && Valid()
    {
      StepKeepsInv(TheHost(), View(), CkArrived(ckKey, wire));
      assert Queue(View(), ckKey) == Waiters(ckKey) && WaitersFor(Waiters(ckKey), ckKey);
      var enc := ParseCk(wire);
      ServeWaiters(ckKey, enc.value);
    }

    method Broadcast(waiters: seq<Task>, message: string)
      modifies this`log
      ensures log == old(log) + ErrorsFor(waiters, message)
    {
      for i := 0 to |waiters|
        invariant log == old(log) + ErrorsFor(waiters[..i], message)
      {
        assert ErrorsFor(waiters[..i + 1], message)
            == ErrorsFor(waiters[..i], message) + [Delivery(waiters[i].req, Some(waiters[i].ck), Failure(message))];
        log := log + [Delivery(waiters[i].req, Some(waiters[i].ck), Failure(message))];
      }
      assert waiters[..|waiters|] == waiters;
    }

    /** The body of the error handler of a CK fetch. */
    method FailWaiters(ckKey: Name, message: string)
      modifies this`ckFetches, this`log, this`pendingCallbacks, this`ckInterestsSent
      ensures ckFetches == old(ckFetches) - multiset{ckKey}
      ensures log == old(log) + ErrorsFor(old(Waiters(ckKey)), message)
      ensures pendingCallbacks == old(pendingCallbacks) - {ckKey}
      ensures ckInterestsSent == old(ckInterestsSent) - {ckKey}
    {
      ckFetches := ckFetches - multiset{ckKey};
      if ckKey in pendingCallbacks {
        Broadcast(pendingCallbacks[ckKey], message);
      }
      Release(ckKey);
    }

    method OnCkFetchError(ckKey: Name, message: string)
      requires Valid() && Enabled(TheHost(), View(), CkFailed(ckKey, message))
      modifies this
      ensures View() == Step(TheHost(), old(View()), CkFailed(ckKey, message)) && Valid()
    {
      StepKeepsInv(TheHost(), View(), CkFailed(ckKey, message));
      FailWaiters(ckKey, message);
    }
  }
}
