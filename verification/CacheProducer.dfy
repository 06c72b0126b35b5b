/** src/cache-producer.cpp: a producer that reuses the content key of a policy or attribute list. */
module CacheProducer {
  import opened Options
  import opened ByteStrings
  import opened Names
  import opened Crypto
  import opened AbeSupport
  import opened Packets
  import opened Producer
  import Attributes

  // ---------- Specification ----------

  /** The two key caches, and the number of keys generated since they were last cleared. */
  datatype Caches = Caches(cp: map<Bytes, CkPair>, kp: map<Bytes, CkPair>, generated: nat)

  const EMPTY := Caches(map[], map[], 0)

  /** What a rule's key is filed under. */
  function FiledUnder(rule: Rule): Bytes {
    if rule.ByPolicy? then rule.policy else Attributes.BarTerminated(rule.attributes)
  }

  function TableFor(c: Caches, rule: Rule): map<Bytes, CkPair> {
    if rule.ByPolicy? then c.cp else c.kp
  }

  function File(c: Caches, rule: Rule, pair: CkPair): Caches {
    if rule.ByPolicy? then c.(cp := c.cp[rule.policy := pair]) else c.(kp := c.kp[FiledUnder(rule) := pair])
  }

  /** A call of `ckDataGen`, counted if it makes a key. */
  function CountedGen(s: Settings, c: Caches, rule: Rule, coins: Coins): (Caches, Generated)
    requires rule.Usable()
  {
    var g := CkDataGen(s, rule, coins, DEFAULT_SEGMENT);
    (if g.Key? then c.(generated := c.generated + 1) else c, g)
  }

  /** The key a rule is filed with, or a new one; generation uses the default segment size
      whatever the caller asked for. */
  function FindOrMake(s: Settings, c: Caches, rule: Rule, coins: Coins): (Caches, Generated)
    requires rule.Usable()
  {
    var key := FiledUnder(rule);
    if key in TableFor(c, rule) then (c, Key(TableFor(c, rule)[key]))
    else
      var (c', g) := CountedGen(s, c, rule, coins);
      (if g.Key? then File(c', rule, g.pair) else c', g)
  }

  function CachedProduce(s: Settings, c: Caches, rule: Rule, suffix: Name, plain: Bytes, coins: Coins): (Caches, Produced)
    requires rule.Usable()
  {
    var (c', g) := FindOrMake(s, c, rule, coins);
    (c', PublishUnder(s, g, suffix, plain, coins.sealing, DEFAULT_SEGMENT))
  }

  // ---------- Implementation ----------

  datatype Entry = Entry(key: ContentKey, segments: seq<Data>)

  class CacheProducerNode {
    const base: ProducerNode
    var cpKeyCache: map<Bytes, Entry>
    var kpKeyCache: map<Bytes, Entry>
    ghost var generated: nat

    constructor (base: ProducerNode)
      ensures this.base == base && fresh(this) && View() == EMPTY && Keys() == {}
    {
      this.base := base;
      cpKeyCache, kpKeyCache, generated := map[], map[], 0;
    }

    ghost function Keys(): set<ContentKey>
      reads this
    {
      (set k | k in cpKeyCache :: cpKeyCache[k].key) + (set k | k in kpKeyCache :: kpKeyCache[k].key)
    }

    ghost function Values(entries: map<Bytes, Entry>): map<Bytes, CkPair>
      reads set k | k in entries :: entries[k].key
    {
      map k | k in entries :: CkPair(entries[k].key.aesKey, entries[k].key.encAesKey, entries[k].segments)
    }

    ghost function View(): Caches
      reads this, Keys()
    {
      Caches(Values(cpKeyCache), Values(kpKeyCache), generated)
    }

    method ClearCache()
      modifies this
      ensures View() == EMPTY
    {
      cpKeyCache, kpKeyCache, generated := map[], map[], 0;
    }

    lemma ValuesUpdate(entries: map<Bytes, Entry>, k: Bytes, entry: Entry)
      ensures Values(entries[k := entry])
           == Values(entries)[k := CkPair(entry.key.aesKey, entry.key.encAesKey, entry.segments)]
    {
    }

    method RememberPolicy(policy: Bytes, entry: Entry)
      modifies this`cpKeyCache
      ensures View() == File(old(View()), ByPolicy(policy), CkPair(entry.key.aesKey, entry.key.encAesKey, entry.segments))
      ensures cpKeyCache == old(cpKeyCache)[policy := entry] && Keys() <= old(Keys()) + {entry.key}
    {
      ValuesUpdate(cpKeyCache, policy, entry);
      cpKeyCache := cpKeyCache[policy := entry];
    }

    method RememberAttributes(list: seq<Bytes>, attStr: Bytes, entry: Entry)
      requires attStr == FiledUnder(ByAttributes(list))
      modifies this`kpKeyCache
      ensures View() == File(old(View()), ByAttributes(list), CkPair(entry.key.aesKey, entry.key.encAesKey, entry.segments))
      ensures kpKeyCache == old(kpKeyCache)[attStr := entry] && Keys() <= old(Keys()) + {entry.key}
    {
      ValuesUpdate(kpKeyCache, attStr, entry);
      kpKeyCache := kpKeyCache[attStr := entry];
    }

    /** `ckDataGen`, and the count of its successes. */
    method FreshPolicyKey(policy: Bytes, coins: Coins) returns (ck: Ck)
      modifies this`generated
      ensures View() == CountedGen(base.CurrentSettings(), old(View()), ByPolicy(policy), coins).0
      ensures Represents(ck, CountedGen(base.CurrentSettings(), old(View()), ByPolicy(policy), coins).1)
      ensures ck.CkMade? ==> fresh(ck.key)
    {
      ck := base.CkDataGenPolicy(policy, coins, DEFAULT_SEGMENT);
      if ck.CkMade? {
        generated := generated + 1;
      }
    }

    method FreshAttributesKey(list: seq<Bytes>, coins: Coins) returns (ck: Ck)
      requires list != []
      modifies this`generated
      ensures View() == CountedGen(base.CurrentSettings(), old(View()), ByAttributes(list), coins).0
      ensures Represents(ck, CountedGen(base.CurrentSettings(), old(View()), ByAttributes(list), coins).1)
      ensures ck.CkMade? ==> fresh(ck.key)
    {
      ck := base.CkDataGenAttributes(list, coins, DEFAULT_SEGMENT);
      if ck.CkMade? {
        generated := generated + 1;
      }
    }

    method PolicyKey(policy: Bytes, coins: Coins) returns (ck: Ck)
      modifies this
      ensures View() == FindOrMake(base.CurrentSettings(), old(View()), ByPolicy(policy), coins).0
      ensures Represents(ck, FindOrMake(base.CurrentSettings(), old(View()), ByPolicy(policy), coins).1)
      ensures policy in old(cpKeyCache) ==>
                && ck == CkMade(old(cpKeyCache)[policy].key, old(cpKeyCache)[policy].segments)
                && cpKeyCache == old(cpKeyCache) && generated == old(generated)
      ensures fresh(Keys() - old(Keys()))
    {
      hide CkDataGen;
      if policy !in cpKeyCache {
        ck := FreshPolicyKey(policy, coins);
        if !ck.CkMade? {
          return;
        }
        RememberPolicy(policy, Entry(ck.key, ck.segments));
      }
      ck := CkMade(cpKeyCache[policy].key, cpKeyCache[policy].segments);
    }

    method AttributesKey(list: seq<Bytes>, coins: Coins) returns (ck: Ck)
      requires list != []
      modifies this
      ensures View() == FindOrMake(base.CurrentSettings(), old(View()), ByAttributes(list), coins).0
      ensures Represents(ck, FindOrMake(base.CurrentSettings(), old(View()), ByAttributes(list), coins).1)
      ensures var attStr := Attributes.BarTerminated(list);
              attStr in old(kpKeyCache) ==>
                && ck == CkMade(old(kpKeyCache)[attStr].key, old(kpKeyCache)[attStr].segments)
                && kpKeyCache == old(kpKeyCache) && generated == old(generated)
      ensures fresh(Keys() - old(Keys()))
    {
      hide CkDataGen;
      var attStr := AttributeStream(list);
      if attStr !in kpKeyCache {
        ck := FreshAttributesKey(list, coins);
        if !ck.CkMade? {
          return;
        }
        RememberAttributes(list, attStr, Entry(ck.key, ck.segments));
      }
      ck := CkMade(kpKeyCache[attStr].key, kpKeyCache[attStr].segments);
    }

    method ProducePolicy(suffix: Name, policy: Bytes, plain: Bytes, coins: Coins) returns (result: Produced)
      modifies this
      ensures (View(), result)
           == CachedProduce(base.CurrentSettings(), old(View()), ByPolicy(policy), suffix, plain, coins)
      ensures fresh(Keys() - old(Keys()))
      ensures policy in old(cpKeyCache) && result.Packets? ==>
                result.ck == old(cpKeyCache)[policy].segments && generated == old(generated)
    {
      ghost var g := FindOrMake(base.CurrentSettings(), View(), ByPolicy(policy), coins).1;
      var ck := PolicyKey(policy, coins);
      result := base.Finish(ck, suffix, plain, coins.sealing, DEFAULT_SEGMENT);
    }

    method ProduceAttributes(suffix: Name, list: seq<Bytes>, plain: Bytes, coins: Coins) returns (result: Produced)
      requires list != []
      modifies this
      ensures (View(), result)
           == CachedProduce(base.CurrentSettings(), old(View()), ByAttributes(list), suffix, plain, coins)
      ensures fresh(Keys() - old(Keys()))
      ensures var attStr := Attributes.BarTerminated(list);
              attStr in old(kpKeyCache) && result.Packets? ==>
                result.ck == old(kpKeyCache)[attStr].segments && generated == old(generated)
    {
      ghost var g := FindOrMake(base.CurrentSettings(), View(), ByAttributes(list), coins).1;
      var ck := AttributesKey(list, coins);
      result := base.Finish(ck, suffix, plain, coins.sealing, DEFAULT_SEGMENT);
    }

    method AttributeStream(list: seq<Bytes>) returns (ss: Bytes)
      ensures ss == Attributes.BarTerminated(list)
    {
      ss := [];
      for i := 0 to |list|
        invariant ss == Attributes.BarTerminated(list[..i])
      {
        assert list[..i + 1][..i] == list[..i];
        ss := ss + list[i] + [Attributes.BAR];
      }
      assert list[..|list|] == list;
    }
  }

  // ---------- Runs ----------

  datatype Event =
    | ParamsStored
    | Producing(rule: Rule, suffix: Name, plain: Bytes, coins: Coins)
    | Clearing

  /** A run of the producer whose parameters become those of s once they are stored. */
  datatype State = State(ready: bool, caches: Caches)

  function Now(s: Settings, ready: bool): Settings {
    if ready then s else s.(abeType := [], pub := [])
  }

  predicate Valid(events: seq<Event>) {
    forall i :: 0 <= i < |events| ==> events[i].Producing? ==> events[i].rule.Usable()
  }

  /** Some generation for a rule filed under this key made the pair. */
  ghost predicate Made(s: Settings, rule: Rule, coins: Coins, pair: CkPair) {
    rule.Usable() && CkDataGen(s, rule, coins, DEFAULT_SEGMENT) == Key(pair)
  }

  ghost predicate CoherentCp(s: Settings, cp: map<Bytes, CkPair>) {
    forall k <- cp :: exists coins: Coins :: Made(s, ByPolicy(k), coins, cp[k])
  }

  ghost predicate MadeUnder(s: Settings, k: Bytes, list: seq<Bytes>, coins: Coins, pair: CkPair) {
    FiledUnder(ByAttributes(list)) == k && Made(s, ByAttributes(list), coins, pair)
  }

  ghost predicate CoherentKp(s: Settings, kp: map<Bytes, CkPair>) {
    forall k <- kp :: exists list: seq<Bytes>, coins: Coins :: MadeUnder(s, k, list, coins, kp[k])
  }

  ghost predicate Coherent(s: Settings, c: Caches) {
    CoherentCp(s, c.cp) && CoherentKp(s, c.kp) && c.generated == |c.cp| + |c.kp|
  }

  function Step(s: Settings, st: State, e: Event): State
    requires e.Producing? ==> e.rule.Usable()
  {
    match e
    case ParamsStored => st.(ready := true)
    case Producing(rule, suffix, plain, coins) =>
      st.(caches := CachedProduce(Now(s, st.ready), st.caches, rule, suffix, plain, coins).0)
    case Clearing => st.(caches := EMPTY)
  }

  lemma FileCp(s: Settings, cp: map<Bytes, CkPair>, policy: Bytes, coins: Coins, pair: CkPair)
    requires CoherentCp(s, cp) && Made(s, ByPolicy(policy), coins, pair)
    ensures CoherentCp(s, cp[policy := pair])
  {
    var cp' := cp[policy := pair];
    forall k <- cp'
      ensures exists coins' :: Made(s, ByPolicy(k), coins', cp'[k])
    {
      if k != policy {
        var coins' :| Made(s, ByPolicy(k), coins', cp[k]);
        assert Made(s, ByPolicy(k), coins', cp'[k]);
      }
    }
  }

  lemma FileKp(s: Settings, kp: map<Bytes, CkPair>, list: seq<Bytes>, coins: Coins, pair: CkPair)
    requires CoherentKp(s, kp) && Made(s, ByAttributes(list), coins, pair)
    ensures CoherentKp(s, kp[FiledUnder(ByAttributes(list)) := pair])
  {
    var key := FiledUnder(ByAttributes(list));
    var kp' := kp[key := pair];
    forall k <- kp'
      ensures exists list', coins' :: MadeUnder(s, k, list', coins', kp'[k])
    {
      if k == key {
        assert MadeUnder(s, k, list, coins, kp'[k]);
      } else {
        var list', coins' :| MadeUnder(s, k, list', coins', kp[k]);
        assert MadeUnder(s, k, list', coins', kp'[k]);
      }
    }
  }

  /** Every step keeps the caches coherent: each pair is a key wrapped under the rule it is filed
      under, and the keys generated since the last clear are exactly the entries. */
  lemma StepKeepsCoherent(s: Settings, st: State, e: Event)
    requires Coherent(s, st.caches) && (e.Producing? ==> e.rule.Usable())
    ensures Coherent(s, Step(s, st, e).caches)
  {
    if e.Producing? && st.ready && FiledUnder(e.rule) !in TableFor(st.caches, e.rule) {
      var g := CkDataGen(s, e.rule, e.coins, DEFAULT_SEGMENT);
      if g.Key? {
        match e.rule
        case ByPolicy(policy) => FileCp(s, st.caches.cp, policy, e.coins, g.pair);
        case ByAttributes(list) => FileKp(s, st.caches.kp, list, e.coins, g.pair);
      }
    }
  }

  ghost function Run(s: Settings, events: seq<Event>): (st: State)
    requires Valid(events)
    ensures Coherent(s, st.caches)
  {
    if events == [] then State(false, EMPTY)
    else
      var st := Run(s, events[..|events| - 1]);
      StepKeepsCoherent(s, st, events[|events| - 1]);
      Step(s, st, events[|events| - 1])
  }

  /** Two rules of one scheme share a cache entry exactly when ABE is given the same string. */
  lemma SharedExactly(a: Rule, b: Rule)
    requires a.Usable() && b.Usable() && (a.ByPolicy? <==> b.ByPolicy?)
    ensures FiledUnder(a) == FiledUnder(b) <==> SameInput(a, b)
  {
    if a.ByAttributes? {
      Attributes.SameKeySameString(a.attributes, b.attributes);
    }
  }

  /** The generation a cached pair comes from. */
  lemma Origin(s: Settings, c: Caches, rule: Rule, sealing: nat) returns (rule': Rule, coins': Coins)
    requires Coherent(s, c) && FiledUnder(rule) in TableFor(c, rule)
    ensures rule'.Usable() && (rule'.ByPolicy? <==> rule.ByPolicy?) && FiledUnder(rule') == FiledUnder(rule)
    ensures coins'.sealing == sealing && Made(s, rule', coins', TableFor(c, rule)[FiledUnder(rule)])
  {
    if rule.ByPolicy? {
      var coins :| Made(s, rule, coins, c.cp[rule.policy]);
      rule', coins' := rule, coins.(sealing := sealing);
    } else {
      var list, coins :| MadeUnder(s, FiledUnder(rule), list, coins, c.kp[FiledUnder(rule)]);
      rule', coins' := ByAttributes(list), coins.(sealing := sealing);
    }
  }

  /** The uncached producer could have returned this for a rule with the same ABE input. */
  ghost predicate Possible(s: Settings, rule: Rule, suffix: Name, plain: Bytes, sealing: nat,
                           rule': Rule, coins': Coins, out: Produced) {
    && rule'.Usable() && rule.Usable() && SameInput(rule, rule')
    && coins'.sealing == sealing
    && Produce(s, rule', suffix, plain, coins', DEFAULT_SEGMENT) == out
  }

  lemma HitIsPossible(s: Settings, c: Caches, rule: Rule, suffix: Name, plain: Bytes, sealing: nat)
    requires Coherent(s, c) && rule.Usable() && FiledUnder(rule) in TableFor(c, rule)
    ensures var out := Publish(s, TableFor(c, rule)[FiledUnder(rule)], suffix, plain, sealing, DEFAULT_SEGMENT);
            exists rule', coins' :: Possible(s, rule, suffix, plain, sealing, rule', coins', out)
  {
    var rule', coins' := Origin(s, c, rule, sealing);
    SharedExactly(rule, rule');
    assert Possible(s, rule, suffix, plain, sealing, rule', coins',
                    Publish(s, TableFor(c, rule)[FiledUnder(rule)], suffix, plain, sealing, DEFAULT_SEGMENT));
  }

  /** In every reachable state the result of a cached production is a result of the uncached
      producer for a rule with the same ABE input (before the parameters are stored: Nothing), so
      reuse never changes what the content is encrypted for. */
  lemma CachedOutputIsFreshOutput(s: Settings, events: seq<Event>, rule: Rule, suffix: Name, plain: Bytes, coins: Coins)
    requires Valid(events) && rule.Usable() && Run(s, events).ready
    ensures var out := CachedProduce(s, Run(s, events).caches, rule, suffix, plain, coins).1;
            exists rule', coins' :: Possible(s, rule, suffix, plain, coins.sealing, rule', coins', out)
  {
    var c := Run(s, events).caches;
    var out := CachedProduce(s, c, rule, suffix, plain, coins).1;
    if FiledUnder(rule) in TableFor(c, rule) {
      HitIsPossible(s, c, rule, suffix, plain, coins.sealing);
    } else {
      assert Possible(s, rule, suffix, plain, coins.sealing, rule, coins, out);
    }
  }

  // ---------- Reuse ----------

  /** Some key is filed for this rule, and these are its segments. */
  predicate Files(c: Caches, rule: Rule, ck: seq<Data>) {
    FiledUnder(rule) in TableFor(c, rule) && TableFor(c, rule)[FiledUnder(rule)].segments == ck
  }

  /** A production that yields packets leaves their key filed, and what was filed before stays. */
  lemma ProductionFiles(s: Settings, c: Caches, rule: Rule, suffix: Name, plain: Bytes, coins: Coins)
    requires rule.Usable()
    ensures var (c', out) := CachedProduce(s, c, rule, suffix, plain, coins);
            && (out.Packets? ==> Files(c', rule, out.ck) && out.ck != [])
            && (forall r, ck :: Files(c, r, ck) ==> Files(c', r, ck))
  {
    hide CkDataGen;
  }

  /** Where a key is filed, every rule with the same ABE input is served with it, whatever the random
      choices: the caches do not change, and no key is generated. */
  lemma FiledIsReused(s: Settings, c: Caches, rule: Rule, ck: seq<Data>, rule': Rule, suffix: Name, plain: Bytes, coins: Coins)
    requires rule.Usable() && rule'.Usable() && SameInput(rule, rule') && Files(c, rule, ck) && ck != []
    ensures var (c', out) := CachedProduce(s, c, rule', suffix, plain, coins);
            c' == c && out.Packets? && out.ck == ck
  {
    SharedExactly(rule, rule');
  }

  /** The second production for one ABE input reuses the key of the first. */
  lemma SecondUseReuses(s: Settings, c: Caches, rule: Rule, suffix: Name, plain: Bytes, coins: Coins,
                        s': Settings, rule': Rule, suffix': Name, plain': Bytes, coins': Coins)
    requires rule.Usable() && rule'.Usable() && SameInput(rule, rule')
    requires CachedProduce(s, c, rule, suffix, plain, coins).1.Packets?
    ensures var (c1, out) := CachedProduce(s, c, rule, suffix, plain, coins);
            var (c2, out') := CachedProduce(s', c1, rule', suffix', plain', coins');
            c2 == c1 && out'.Packets? && out'.ck == out.ck
  {
    ProductionFiles(s, c, rule, suffix, plain, coins);
    var (c1, out) := CachedProduce(s, c, rule, suffix, plain, coins);
    hide CachedProduce;
    FiledIsReused(s', c1, rule, out.ck, rule', suffix', plain', coins');
  }

  lemma StepKeepsFiled(s: Settings, st: State, e: Event, rule: Rule, ck: seq<Data>)
    requires (e.Producing? ==> e.rule.Usable()) && !e.Clearing? && Files(st.caches, rule, ck)
    ensures Files(Step(s, st, e).caches, rule, ck)
  {
    if e.Producing? {
      ProductionFiles(Now(s, st.ready), st.caches, e.rule, e.suffix, e.plain, e.coins);
    }
  }

  lemma RunStep(s: Settings, events: seq<Event>, k: nat)
    requires Valid(events) && k < |events|
    ensures Valid(events[..k]) && Valid(events[..k + 1]) && (events[k].Producing? ==> events[k].rule.Usable())
    ensures Run(s, events[..k + 1]) == Step(s, Run(s, events[..k]), events[k])
  {
    hide Step, Coherent;
    assert events[..k + 1][..k] == events[..k];
  }

  lemma {:induction false} FiledStays(s: Settings, events: seq<Event>, i: nat, j: nat, rule: Rule, ck: seq<Data>)
    requires Valid(events) && i <= j <= |events| && Files(Run(s, events[..i]).caches, rule, ck)
    requires forall k :: i <= k < j ==> !events[k].Clearing?
    ensures Files(Run(s, events[..j]).caches, rule, ck)
    decreases j
  {
    hide Run, Step, Files, Coherent;
    if i < j {
      RunStep(s, events, j - 1);
      FiledStays(s, events, i, j - 1, rule, ck);
      StepKeepsFiled(s, Run(s, events[..j - 1]), events[j - 1], rule, ck);
    }
  }

  /** What the production at position i of a run returns. */
  ghost function OutputAt(s: Settings, events: seq<Event>, i: nat): Produced
    requires Valid(events) && i < |events| && events[i].Producing?
  {
    var st := Run(s, events[..i]);
    CachedProduce(Now(s, st.ready), st.caches, events[i].rule, events[i].suffix, events[i].plain, events[i].coins).1
  }

  lemma OutputIsFiled(s: Settings, events: seq<Event>, i: nat)
    requires Valid(events) && i < |events| && events[i].Producing? && OutputAt(s, events, i).Packets?
    ensures Valid(events[..i + 1]) && OutputAt(s, events, i).ck != []
    ensures Files(Run(s, events[..i + 1]).caches, events[i].rule, OutputAt(s, events, i).ck)
  {
    var e, st := events[i], Run(s, events[..i]);
    ProductionFiles(Now(s, st.ready), st.caches, e.rule, e.suffix, e.plain, e.coins);
    RunStep(s, events, i);
    hide Run, CachedProduce, Files, Valid;
  }

  lemma OutputIsReused(s: Settings, events: seq<Event>, j: nat, rule: Rule, ck: seq<Data>)
    requires Valid(events) && j < |events| && events[j].Producing? && SameInput(rule, events[j].rule) && rule.Usable()
    requires Valid(events[..j]) && Files(Run(s, events[..j]).caches, rule, ck) && ck != []
    ensures OutputAt(s, events, j).Packets? && OutputAt(s, events, j).ck == ck
    ensures Valid(events[..j + 1]) && Run(s, events[..j + 1]).caches == Run(s, events[..j]).caches
  {
    var e, st := events[j], Run(s, events[..j]);
    FiledIsReused(Now(s, st.ready), st.caches, rule, ck, e.rule, e.suffix, e.plain, e.coins);
    RunStep(s, events, j);
    hide Run, CachedProduce, Files, Valid;
  }

  /** Between clears, all productions with one ABE input return one CK, whatever comes in between, and
      only the first generates a key. */
  lemma OneKeyBetweenClears(s: Settings, events: seq<Event>, i: nat, j: nat)
    requires Valid(events) && i < j < |events| && events[i].Producing? && events[j].Producing?
    requires SameInput(events[i].rule, events[j].rule)
    requires forall k :: i < k < j ==> !events[k].Clearing?
    requires OutputAt(s, events, i).Packets?
    ensures OutputAt(s, events, j).Packets? && OutputAt(s, events, j).ck == OutputAt(s, events, i).ck
    ensures Valid(events[..j]) && Valid(events[..j + 1]) && Run(s, events[..j + 1]).caches == Run(s, events[..j]).caches
  {
    var ck := OutputAt(s, events, i).ck;
    OutputIsFiled(s, events, i);
    RunStep(s, events, i);
    RunStep(s, events, j);
    hide Run, OutputAt, Files, Valid;
    FiledStays(s, events, i + 1, j, events[i].rule, ck);
    OutputIsReused(s, events, j, events[i].rule, ck);
  }

  /** After a clear nothing is reused: the next production is that of the uncached producer. */
  lemma ClearedStartsOver(s: Settings, events: seq<Event>, rule: Rule, suffix: Name, plain: Bytes, coins: Coins)
    requires Valid(events) && rule.Usable()
    ensures var st := Run(s, events + [Event.Clearing]);
            CachedProduce(Now(s, st.ready), st.caches, rule, suffix, plain, coins).1
            == Produce(Now(s, st.ready), rule, suffix, plain, coins, DEFAULT_SEGMENT)
  {
    assert (events + [Event.Clearing])[..|events|] == events;
  }
}
