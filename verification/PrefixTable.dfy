/** The producer's routing tables: a vector updated in place, queried by longest prefix. */
module PrefixTable {
  import opened Options
  import opened Names

  type Table<T> = seq<(Name, T)>

  // ---------- Specification ----------

  predicate Distinct<T>(t: Table<T>) {
    t == [] || (t[0].0 !in AsMap(t[1..]) && Distinct(t[1..]))
  }

  /** Overwrite the entry of a prefix where it stands, or append one. */
  function Put<T>(t: Table<T>, prefix: Name, value: T): Table<T> {
    if t == [] then [(prefix, value)]
    else if t[0].0 == prefix then [(prefix, value)] + t[1..]
    else [t[0]] + Put(t[1..], prefix, value)
  }

  function AsMap<T>(t: Table<T>): map<Name, T> {
    if t == [] then map[] else AsMap(t[1..])[t[0].0 := t[0].1]
  }

  /** The table after a sequence of commands. */
  function Replay<T>(commands: seq<(Name, T)>): Table<T> {
    if commands == [] then []
    else
      var last := commands[|commands| - 1];
      Put(Replay(commands[..|commands| - 1]), last.0, last.1)
  }

  /** What the commands mean: for each prefix the value of its last command. */
  function LastWins<T>(commands: seq<(Name, T)>): map<Name, T> {
    if commands == [] then map[]
    else
      var last := commands[|commands| - 1];
      LastWins(commands[..|commands| - 1])[last.0 := last.1]
  }

  /** The length of the longest non-empty registered prefix among the first k components, or 0. */
  function MatchLength<T>(m: map<Name, T>, name: Name, k: nat): (n: nat)
    requires k <= |name|
    ensures n <= k && (n > 0 ==> name[..n] in m)
    ensures forall i :: n < i <= k ==> name[..i] !in m
  {
    if k == 0 || name[..k] in m then k else MatchLength(m, name, k - 1)
  }

  function LongestMatch<T>(m: map<Name, T>, name: Name): Option<T> {
    var n := MatchLength(m, name, |name|);
    if n == 0 then None else Some(m[name[..n]])
  }

  function OrDefault<T>(o: Option<T>, default: T): T {
    if o.Some? then o.value else default
  }

  // ---------- Implementation ----------

  class PolicyVector<T> {
    var items: Table<T>

    constructor ()
      ensures items == []
    {
      items := [];
    }

    /** `addNewPolicy` and `addNewAttributes`. */
    method Add(prefix: Name, value: T)
      modifies this
      ensures items == Put(old(items), prefix, value)
    {
      for i := 0 to |items|
        invariant items == old(items)
        invariant forall j :: 0 <= j < i ==> items[j].0 != prefix
      {
        if items[i].0 == prefix {
          PutAt(items, prefix, value, i);
          items := items[i := (prefix, value)];
          return;
        }
      }
      PutAt(items, prefix, value, |items|);
      items := items + [(prefix, value)];
    }

    /** `findMatchedPolicy` and `findMatchedAttributes`. */
    method FindMatched(name: Name, default: T) returns (best: T)
      requires Distinct(items)
      ensures best == OrDefault(LongestMatch(AsMap(items), name), default)
    {
      best := default;
      var maxMatchedComponents: nat := 0;
      for i := 0 to |items|
        invariant maxMatchedComponents == 0 ==> best == default
        invariant maxMatchedComponents > 0 ==>
            exists j :: 0 <= j < i && items[j].0 <= name && |items[j].0| == maxMatchedComponents && items[j].1 == best
        invariant forall j :: 0 <= j < i && items[j].0 <= name ==> |items[j].0| <= maxMatchedComponents
      {
        var (prefix, value) := items[i];
        if prefix <= name && |prefix| > maxMatchedComponents {
          best := value;
          maxMatchedComponents := |prefix|;
        }
      }
      ScanIsLongestMatch(items, name, maxMatchedComponents);
    }
  }

  // ---------- Properties ----------

  lemma {:induction false} PutAt<T>(t: Table<T>, prefix: Name, value: T, i: nat)
    requires i <= |t| && (forall j :: 0 <= j < i ==> t[j].0 != prefix)
    requires i < |t| ==> t[i].0 == prefix
    ensures Put(t, prefix, value) == if i < |t| then t[i := (prefix, value)] else t + [(prefix, value)]
  {
    if i > 0 {
      PutAt(t[1..], prefix, value, i - 1);
    }
  }

  /** Under distinct prefixes the map has exactly the table's entries. */
  lemma {:induction false} MapEntries<T>(t: Table<T>)
    requires Distinct(t)
    ensures forall p :: p in AsMap(t) <==> exists i :: 0 <= i < |t| && t[i].0 == p
    ensures forall i :: 0 <= i < |t| ==> t[i].0 in AsMap(t) && AsMap(t)[t[i].0] == t[i].1
    ensures forall i, j :: 0 <= i < j < |t| ==> t[i].0 != t[j].0
  {
    if t != [] {
      var rest := t[1..];
      assert forall i :: 0 <= i < |rest| ==> rest[i] == t[i + 1];
      MapEntries(rest);
      forall p | p in AsMap(t)
        ensures exists i :: 0 <= i < |t| && t[i].0 == p
      {
        if p != t[0].0 {
          var i :| 0 <= i < |rest| && rest[i].0 == p;
          assert t[i + 1].0 == p;
        }
      }
      forall i | 0 <= i < |t|
        ensures t[i].0 in AsMap(t) && AsMap(t)[t[i].0] == t[i].1
      {
        if i > 0 {
          assert t[i] == rest[i - 1] && t[0].0 != t[i].0;
        }
      }
    }
  }

  lemma ScanIsLongestMatch<T>(t: Table<T>, name: Name, n: nat)
    requires Distinct(t)
    requires n > 0 ==> exists j :: 0 <= j < |t| && t[j].0 <= name && |t[j].0| == n
    requires forall j :: 0 <= j < |t| && t[j].0 <= name ==> |t[j].0| <= n
    ensures n <= |name| && MatchLength(AsMap(t), name, |name|) == n
    ensures forall j :: 0 <= j < |t| && t[j].0 <= name && |t[j].0| == n && n > 0 ==>
              LongestMatch(AsMap(t), name) == Some(t[j].1)
  {
    MapEntries(t);
    var m := MatchLength(AsMap(t), name, |name|);
    if n > 0 {
      var j :| 0 <= j < |t| && t[j].0 <= name && |t[j].0| == n;
      assert name[..n] == t[j].0;
    }
    if m > 0 {
      var j :| 0 <= j < |t| && t[j].0 == name[..m];
      assert t[j].0 <= name;
    }
    forall j | 0 <= j < |t| && t[j].0 <= name && |t[j].0| == n && n > 0
      ensures LongestMatch(AsMap(t), name) == Some(t[j].1)
    {
      assert name[..n] == t[j].0;
    }
  }

  lemma {:induction false} PutMeaning<T>(t: Table<T>, prefix: Name, value: T)
    ensures AsMap(Put(t, prefix, value)) == AsMap(t)[prefix := value]
    ensures Distinct(t) ==> Distinct(Put(t, prefix, value))
  {
    if t != [] && t[0].0 != prefix {
      PutMeaning(t[1..], prefix, value);
      assert Put(t, prefix, value)[1..] == Put(t[1..], prefix, value);
    }
  }

  /** After any sequence of commands the table has no duplicate prefix and equals the
      last-write-wins map of the commands. */
  lemma {:induction false} ReplayIsLastWins<T>(commands: seq<(Name, T)>)
    ensures Distinct(Replay(commands)) && AsMap(Replay(commands)) == LastWins(commands)
  {
    if commands != [] {
      var last := commands[|commands| - 1];
      ReplayIsLastWins(commands[..|commands| - 1]);
      PutMeaning(Replay(commands[..|commands| - 1]), last.0, last.1);
    }
  }

  /** Lookups depend on the last-write-wins map only: not on the order of first insertion. */
  lemma OrderIrrelevant<T>(a: seq<(Name, T)>, b: seq<(Name, T)>, name: Name)
    requires LastWins(a) == LastWins(b)
    ensures LongestMatch(AsMap(Replay(a)), name) == LongestMatch(AsMap(Replay(b)), name)
  {
    ReplayIsLastWins(a);
    ReplayIsLastWins(b);
  }

  /** The match is unique: any registered non-empty prefix of the name that no other such prefix exceeds. */
  lemma LongestMatchUnique<T>(m: map<Name, T>, name: Name, p: Name)
    requires p in m && p != [] && p <= name
    requires forall q :: q in m && q <= name ==> |q| <= |p|
    ensures LongestMatch(m, name) == Some(m[p])
  {
    assert name[..|p|] == p;
    var n := MatchLength(m, name, |name|);
    assert name[..n] <= name;
  }

  /** The frame of a command: setting a prefix changes the lookup of exactly those names that lie
      under it (the root prefix excepted) and have no longer registered match. */
  lemma CommandFrame<T>(t: Table<T>, prefix: Name, value: T, name: Name)
    requires Distinct(t)
    ensures LongestMatch(AsMap(Put(t, prefix, value)), name)
         == if prefix != [] && prefix <= name && MatchLength(AsMap(t), name, |name|) <= |prefix|
            then Some(value)
            else LongestMatch(AsMap(t), name)
  {
    PutMeaning(t, prefix, value);
    MapFrame(AsMap(t), prefix, value, name);
  }

  lemma MapFrame<T>(m: map<Name, T>, prefix: Name, value: T, name: Name)
    ensures LongestMatch(m[prefix := value], name)
         == if prefix != [] && prefix <= name && MatchLength(m, name, |name|) <= |prefix|
            then Some(value)
            else LongestMatch(m, name)
  {
    var m' := m[prefix := value];
    var n := MatchLength(m, name, |name|);
    if prefix != [] && prefix <= name && n <= |prefix| {
      forall i | |prefix| < i <= |name|
        ensures name[..i] !in m'
      {
        assert |name[..i]| == i;
      }
      assert name[..|prefix|] == prefix;
      MatchLengthIs(m', name, |prefix|);
    } else {
      forall i | n <= i <= |name| && i > 0
        ensures name[..i] != prefix
      {
        assert |name[..i]| == i && name[..i] <= name;
      }
      MatchLengthIs(m', name, n);
    }
  }

  lemma MatchLengthIs<T>(m: map<Name, T>, name: Name, n: nat)
    requires n <= |name| && (n > 0 ==> name[..n] in m)
    requires forall i :: n < i <= |name| ==> name[..i] !in m
    ensures MatchLength(m, name, |name|) == n
  {
  }
}
