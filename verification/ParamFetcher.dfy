/** src/param-fetcher.cpp: fetching the public parameters with bounded retry. */
module ParamFetcher {
  import opened Options
  import opened ByteStrings
  import opened Crypto
  import opened Names

  const MAX_RETRIES := 10
  const CP_ABE: Bytes := [67, 80, 45, 65, 66, 69] // "CP-ABE"
  const KP_ABE: Bytes := [75, 80, 45, 65, 66, 69] // "KP-ABE"

  lemma AbeTypesDiffer()
    ensures CP_ABE != KP_ABE
  {
    assert CP_ABE[0] != KP_ABE[0];
  }

  function SchemaOf(abeType: Bytes): Option<Schema> {
    if abeType == CP_ABE then Some(CpAbe)
    else if abeType == KP_ABE then Some(KpAbe)
    else None
  }

  /** The fetcher's fields, what the network owes it (Interests without an answer, packets under
      validation), the Interests sent so far, and whether a call has thrown. */
  datatype Fetcher = Fetcher(
    retryCount: nat,
    abeType: Bytes,
    pub: Bytes,
    outstanding: nat,
    validating: multiset<Data>,
    sent: nat,
    thrown: bool)

  const INITIAL := Fetcher(0, [], [], 0, multiset{}, 0, false)

  datatype Event =
    | Fetching
    | Received(data: Data)
    | Nacked
    | TimedOut
    | Validated(data: Data)
    | Rejected(data: Data)

  // ---------- Specification ----------

  function Fetch(f: Fetcher): Fetcher {
    if f.retryCount >= MAX_RETRIES then f.(thrown := true)
    else f.(retryCount := f.retryCount + 1, outstanding := f.outstanding + 1, sent := f.sent + 1)
  }

  /** The ABE type sits one component after the authority's prefix and PUBPARAMS; the
      parameters end at the first NUL of the content. */
  predicate WellFormed(prefixSize: nat, data: Data) {
    |data.name| > prefixSize + 1 && 0 in data.content
  }

  predicate Enabled(prefixSize: nat, f: Fetcher, e: Event) {
    match e
    case Fetching => true
    case Received(data) => f.outstanding > 0 && WellFormed(prefixSize, data)
    case Nacked => f.outstanding > 0
    case TimedOut => f.outstanding > 0
    case Validated(data) => data in f.validating && WellFormed(prefixSize, data)
    case Rejected(data) => data in f.validating
  }

  function Accept(prefixSize: nat, f: Fetcher, data: Data): Fetcher
    requires WellFormed(prefixSize, data)
  {
    var g := f.(abeType := data.name[prefixSize + 1].value);
    if SchemaOf(g.abeType).None? then g.(thrown := true) else g.(pub := CString(data.content))
  }

  function Step(prefixSize: nat, f: Fetcher, e: Event): Fetcher
    requires Enabled(prefixSize, f, e)
  {
    match e
    case Fetching => Fetch(f)
    case Received(data) =>
      f.(outstanding := f.outstanding - 1, retryCount := 0, validating := f.validating + multiset{data})
    case Nacked => Fetch(f.(outstanding := f.outstanding - 1))
    case TimedOut => Fetch(f.(outstanding := f.outstanding - 1))
    case Validated(data) => Accept(prefixSize, f.(validating := f.validating - multiset{data}), data)
    case Rejected(data) => f.(validating := f.validating - multiset{data}, thrown := true)
  }

  // ---------- Implementation ----------

  class Client {
    const prefixSize: nat
    var retryCount: nat
    var abeType: Bytes
    var pub: Bytes
    // the network and the caller's side
    var outstanding: nat
    var validating: multiset<Data>
    var sent: nat
    var thrown: bool

    ghost function View(): Fetcher
      reads this
    {
      Fetcher(retryCount, abeType, pub, outstanding, validating, sent, thrown)
    }

    constructor (prefixSize: nat)
      ensures this.prefixSize == prefixSize && View() == INITIAL
    {
      this.prefixSize := prefixSize;
      retryCount, abeType, pub := 0, [], [];
      outstanding, validating, sent, thrown := 0, multiset{}, 0, false;
    }

    method FetchPublicParams()
      modifies this
      ensures View() == Step(prefixSize, old(View()), Fetching)
    {
      if retryCount >= MAX_RETRIES {
        thrown := true;
        return;
      }
      retryCount := retryCount + 1;
      outstanding := outstanding + 1;
      sent := sent + 1;
    }

    method OnData(data: Data)
      requires Enabled(prefixSize, View(), Received(data))
      modifies this
      ensures View() == Step(prefixSize, old(View()), Received(data))
    {
      outstanding := outstanding - 1;
      retryCount := 0;
      validating := validating + multiset{data};
    }

    method OnNackOrTimeout(e: Event)
      requires e.Nacked? || e.TimedOut?
      requires Enabled(prefixSize, View(), e)
      modifies this
      ensures View() == Step(prefixSize, old(View()), e)
    {
      outstanding := outstanding - 1;
      FetchPublicParams();
    }

    /** The success half of `onAttributePubParams`: the ABE type is stored before it is checked. */
    method OnValidated(data: Data)
      requires Enabled(prefixSize, View(), Validated(data))
      modifies this
      ensures View() == Step(prefixSize, old(View()), Validated(data))
    {
      validating := validating - multiset{data};
      abeType := data.name[prefixSize + 1].value;
      if abeType != CP_ABE && abeType != KP_ABE {
        thrown := true;
        return;
      }
      pub := CString(data.content);
    }

    method OnRejected(data: Data)
      requires Enabled(prefixSize, View(), Rejected(data))
      modifies this
      ensures View() == Step(prefixSize, old(View()), Rejected(data))
    {
      validating := validating - multiset{data};
      thrown := true;
    }
  }

  // ---------- Runs ----------

  ghost predicate ValidRun(prefixSize: nat, f: Fetcher, events: seq<Event>)
    decreases |events|
  {
    events == [] || (Enabled(prefixSize, f, events[0]) && ValidRun(prefixSize, Step(prefixSize, f, events[0]), events[1..]))
  }

  ghost function Run(prefixSize: nat, f: Fetcher, events: seq<Event>): Fetcher
    requires ValidRun(prefixSize, f, events)
    decreases |events|
  {
    if events == [] then f else Run(prefixSize, Step(prefixSize, f, events[0]), events[1..])
  }

  /** With any number of calls to fetchPublicParams, stored parameters come with a supported
      ABE type unless an exception has been thrown. */
  lemma {:induction false} ReadyOrThrown(prefixSize: nat, f: Fetcher, events: seq<Event>)
    requires ValidRun(prefixSize, f, events)
    requires f.pub != [] ==> f.thrown || SchemaOf(f.abeType).Some?
    ensures var g := Run(prefixSize, f, events);
            g.pub != [] ==> g.thrown || SchemaOf(g.abeType).Some?
    decreases |events|
  {
    if events != [] {
      ReadyOrThrown(prefixSize, Step(prefixSize, f, events[0]), events[1..]);
    }
  }

  predicate Waiting(f: Fetcher) {
    && f.outstanding == 1 && f.validating == multiset{} && !f.thrown
    && 1 <= f.retryCount <= MAX_RETRIES && f.sent == f.retryCount && f.pub == []
  }

  predicate Checking(f: Fetcher) {
    f.outstanding == 0 && |f.validating| == 1 && !f.thrown && 1 <= f.sent <= MAX_RETRIES && f.pub == []
  }

  predicate Finished(f: Fetcher) {
    && f.outstanding == 0 && f.validating == multiset{} && 1 <= f.sent <= MAX_RETRIES
    && if f.thrown then f.pub == [] else SchemaOf(f.abeType).Some?
  }

  /** What a fetcher goes through when fetchPublicParams is called from outside exactly once. */
  predicate SingleFetch(f: Fetcher) {
    Waiting(f) || Checking(f) || Finished(f)
  }

  /** Each event uses up at least one: MAX_RETRIES - retryCount retries, one packet, one validation. */
  function Remaining(f: Fetcher): nat
    requires SingleFetch(f)
  {
    if f.outstanding == 1 then MAX_RETRIES - f.retryCount + 2 else |f.validating|
  }

  lemma SingleFetchStep(prefixSize: nat, f: Fetcher, e: Event)
    requires SingleFetch(f) && Enabled(prefixSize, f, e) && !e.Fetching?
    ensures SingleFetch(Step(prefixSize, f, e))
    ensures Remaining(Step(prefixSize, f, e)) < Remaining(f)
  {
    if Checking(f) {
      var data :| data in f.validating;
      assert |f.validating - multiset{data}| == 0;
      assert f.validating == multiset{data};
    }
  }

  /** From the one call a constructor makes, any run of data, nacks, timeouts and validations
      keeps at most one Interest outstanding, sends at most 10, has at most 11 events, and when
      nothing is owed any more it has ended in accepted parameters or in an exception. */
  lemma {:induction false} BoundedRetry(prefixSize: nat, f: Fetcher, events: seq<Event>)
    requires SingleFetch(f) && ValidRun(prefixSize, f, events)
    requires Fetching !in events
    ensures var g := Run(prefixSize, f, events);
            && SingleFetch(g)
            && g.outstanding <= 1 && g.sent <= MAX_RETRIES
            && |events| + Remaining(g) <= Remaining(f)
            && (g.outstanding == 0 && g.validating == multiset{} ==> g.thrown || SchemaOf(g.abeType).Some?)
            && (g.pub != [] ==> SchemaOf(g.abeType).Some?)
    decreases |events|
  {
    if events != [] {
      assert events[0] in events;
      SingleFetchStep(prefixSize, f, events[0]);
      BoundedRetry(prefixSize, Step(prefixSize, f, events[0]), events[1..]);
    }
  }

  lemma BoundedRetryFromConstruction(prefixSize: nat, events: seq<Event>)
    requires ValidRun(prefixSize, Fetch(INITIAL), events) && Fetching !in events
    ensures var g := Run(prefixSize, Fetch(INITIAL), events);
            && g.outstanding <= 1 && g.sent <= MAX_RETRIES && |events| <= 11
            && (g.pub != [] ==> SchemaOf(g.abeType).Some?)
            && (g.outstanding == 0 && g.validating == multiset{} ==> g.thrown || SchemaOf(g.abeType).Some?)
  {
    BoundedRetry(prefixSize, Fetch(INITIAL), events);
  }

  /** With failures only: retries up to the limit, and the next failure throws. */
  lemma {:induction false} FailuresOnly(prefixSize: nat, f: Fetcher, events: seq<Event>)
    requires f.outstanding == 1 && !f.thrown && 1 <= f.retryCount <= MAX_RETRIES
    requires ValidRun(prefixSize, f, events)
    requires forall i :: 0 <= i < |events| ==> events[i].Nacked? || events[i].TimedOut?
    ensures f.retryCount + |events| <= MAX_RETRIES + 1
    ensures var g := Run(prefixSize, f, events);
            && (g.thrown <==> f.retryCount + |events| == MAX_RETRIES + 1)
            && g.outstanding == (if g.thrown then 0 else 1)
            && g.sent == f.sent + |events| - (if g.thrown then 1 else 0)
    decreases |events|
  {
    if events != [] {
      var g := Step(prefixSize, f, events[0]);
      if f.retryCount == MAX_RETRIES {
        assert ValidRun(prefixSize, g, events[1..]) && g.outstanding == 0;
      } else {
        FailuresOnly(prefixSize, g, events[1..]);
      }
    }
  }

  /** From the one call a constructor makes, when nothing but failures comes back: exactly ten Interests
      are sent, nine failures are survived, and the tenth throws. */
  lemma TenAttempts(prefixSize: nat, failures: seq<Event>)
    requires ValidRun(prefixSize, Fetch(INITIAL), failures)
    requires forall i :: 0 <= i < |failures| ==> failures[i].Nacked? || failures[i].TimedOut?
    ensures var g := Run(prefixSize, Fetch(INITIAL), failures);
            && |failures| <= 10
            && (g.thrown <==> |failures| == 10)
            && g.sent == (if |failures| < 10 then |failures| + 1 else 10)
  {
    FailuresOnly(prefixSize, Fetch(INITIAL), failures);
  }

  /** Ten failures in a row can happen. */
  lemma {:induction false} FailuresPossible(prefixSize: nat, f: Fetcher, n: nat)
    requires f.outstanding == 1 && 1 <= f.retryCount && f.retryCount + n <= MAX_RETRIES + 1
    ensures ValidRun(prefixSize, f, seq(n, i => TimedOut))
    decreases n
  {
    if n > 0 {
      var events := seq(n, i => TimedOut);
      assert events[1..] == seq(n - 1, i => TimedOut);
      if n == 1 {
        assert events[1..] == [];
      } else {
        FailuresPossible(prefixSize, Step(prefixSize, f, TimedOut), n - 1);
      }
    }
  }

  /** The two names are the ones of the source, and no other string is a scheme. */
  lemma SchemaNames(abeType: Bytes)
    ensures SchemaOf(abeType) == Some(CpAbe) <==> abeType == Ascii("CP-ABE")
    ensures SchemaOf(abeType) == Some(KpAbe) <==> abeType == Ascii("KP-ABE")
  {
    AbeTypesDiffer();
    assert CP_ABE == Ascii("CP-ABE") && KP_ABE == Ascii("KP-ABE");
  }

  /** Data gives the next fetch a full budget again: ten Interests, then an exception. */
  lemma DataRestoresBudget(prefixSize: nat, f: Fetcher, data: Data, failures: seq<Event>)
    requires f.outstanding == 1 && !f.thrown && WellFormed(prefixSize, data)
    requires ValidRun(prefixSize, Fetch(Step(prefixSize, f, Received(data))), failures)
    requires forall i :: 0 <= i < |failures| ==> failures[i].Nacked? || failures[i].TimedOut?
    ensures var g := Run(prefixSize, Fetch(Step(prefixSize, f, Received(data))), failures);
            && (g.thrown <==> |failures| == MAX_RETRIES)
            && (g.thrown ==> g.sent == f.sent + MAX_RETRIES)
  {
    FailuresOnly(prefixSize, Fetch(Step(prefixSize, f, Received(data))), failures);
  }
}
