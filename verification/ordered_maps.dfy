/** Python's `dict` as the core uses it: a finite map whose iteration order
    is the order in which keys were first inserted. Assigning to a key that
    is already present replaces its value and keeps its position. Also the
    grouping idiom `groups.setdefault(key(x), []).append(x)` used by the
    bundler, specified by `Dedup` (the keys in first-occurrence order) and
    `GroupOf` (the elements of one group, in input order), and the loops
    that append a record for some elements (`Gather`) or some groups
    (`Collect`). */
module OrderedMaps {
  import opened Wrappers

  /** No element occurs twice. */
  ghost predicate Distinct(s: seq<string>) {
    forall i, j :: 0 <= i < j < |s| ==> s[i] != s[j]
  }

  /** The elements of xs with later repetitions removed, in first-occurrence order. */
  function Dedup(xs: seq<string>): (d: seq<string>)
    ensures Distinct(d)
    ensures forall x :: x in d <==> x in xs
    ensures |d| <= |xs|
  {
    if xs == [] then []
    else
      var d := Dedup(xs[..|xs| - 1]);
      if xs[|xs| - 1] in d then d else d + [xs[|xs| - 1]]
  }

  /** Dedup loses nothing exactly when the input has no repetition. */
  lemma {:induction false} DedupLength(xs: seq<string>)
    ensures |Dedup(xs)| == |xs| <==> Distinct(xs)
  {
    if xs != [] {
      var p, x := xs[..|xs| - 1], xs[|xs| - 1];
      assert xs == p + [x];
      DedupLength(p);
      if x in p {
        var i :| 0 <= i < |p| && p[i] == x;
        assert xs[i] == xs[|xs| - 1];
      } else {
        if Distinct(p) {
          forall i, j | 0 <= i < j < |xs| ensures xs[i] != xs[j] {
            if j < |xs| - 1 { assert xs[i] == p[i] && xs[j] == p[j]; }
            else { assert xs[i] == p[i]; }
          }
        } else {
          var i, j :| 0 <= i < j < |p| && p[i] == p[j];
          assert xs[i] == xs[j];
        }
      }
    }
  }

  /** A sequence without repetitions is its own Dedup. */
  lemma {:induction false} DedupOfDistinct(xs: seq<string>)
    requires Distinct(xs)
    ensures Dedup(xs) == xs
  {
    if xs != [] {
      var p, x := xs[..|xs| - 1], xs[|xs| - 1];
      assert Distinct(p) && x !in p by {
        forall i | 0 <= i < |p| ensures p[i] != x {
          assert xs[i] == p[i];
        }
      }
      DedupOfDistinct(p);
    }
  }

  /** Dedup of one more element. */
  lemma DedupSnoc(xs: seq<string>, x: string)
    ensures Dedup(xs + [x]) == if x in xs then Dedup(xs) else Dedup(xs) + [x]
  {
    assert (xs + [x])[..|xs|] == xs;
  }

  datatype OrderedMap<V> = OrderedMap(keys: seq<string>, values: map<string, V>) {

    /** The keys are listed once each, and exactly the keys of the map are listed. */
    ghost predicate Valid() {
      Distinct(keys) && forall k :: k in values <==> k in keys
    }

    /** `d[k] = v`. */
    function Put(k: string, v: V): (m: OrderedMap<V>)
      requires Valid()
      ensures m.Valid()
      ensures m.keys == if k in keys then keys else keys + [k]
      ensures m.values == values[k := v]
    {
      if k in values then OrderedMap(keys, values[k := v])
      else OrderedMap(keys + [k], values[k := v])
    }
  }

  /** Two well-formed maps with the same keys in the same order and the same
      value under each key are the same map. */
  lemma SameEntries<V>(a: OrderedMap<V>, b: OrderedMap<V>)
    requires a.Valid() && b.Valid() && a.keys == b.keys
    requires forall k :: k in a.values ==> a.values[k] == b.values[k]
    ensures a == b
  {
    assert a.values.Keys == b.values.Keys;
  }

  function Empty<V>(): (m: OrderedMap<V>)
    ensures m.Valid() && m.keys == []
  {
    OrderedMap([], map[])
  }

  /** The key of every element, in order. */
  function KeysOf<T>(xs: seq<T>, key: T -> string): (ks: seq<string>)
    ensures |ks| == |xs|
    ensures forall i :: 0 <= i < |xs| ==> ks[i] == key(xs[i])
  {
    seq(|xs|, i requires 0 <= i < |xs| => key(xs[i]))
  }

  /** The elements of xs whose key is k, in order. */
  function GroupOf<T>(xs: seq<T>, key: T -> string, k: string): (g: seq<T>)
    ensures |g| <= |xs|
    ensures forall i :: 0 <= i < |g| ==> key(g[i]) == k
  {
    if xs == [] then []
    else GroupOf(xs[..|xs| - 1], key, k) + (if key(xs[|xs| - 1]) == k then [xs[|xs| - 1]] else [])
  }

  /** A group is empty exactly when no element carries its key. */
  lemma {:induction false} GroupOfEmpty<T>(xs: seq<T>, key: T -> string, k: string)
    ensures GroupOf(xs, key, k) == [] <==> k !in KeysOf(xs, key)
  {
    if xs != [] {
      var p := xs[..|xs| - 1];
      GroupOfEmpty(p, key, k);
      assert KeysOf(xs, key) == KeysOf(p, key) + [key(xs[|xs| - 1])];
    }
  }

  /** A group of one more element. */
  lemma GroupOfSnoc<T>(xs: seq<T>, x: T, key: T -> string, k: string)
    ensures GroupOf(xs + [x], key, k) == GroupOf(xs, key, k) + (if key(x) == k then [x] else [])
  {
    assert (xs + [x])[..|xs|] == xs;
  }

  /** One step of the grouping loop: `groups.setdefault(key(x), []).append(x)`. */
  function AddToGroup<T>(groups: OrderedMap<seq<T>>, key: T -> string, x: T): OrderedMap<seq<T>>
    requires groups.Valid()
  {
    var k := key(x);
    groups.Put(k, (if k in groups.values then groups.values[k] else []) + [x])
  }

  /** The grouping of a prefix, as the loop of GroupBy maintains it. */
  ghost predicate GroupsOf<T>(groups: OrderedMap<seq<T>>, xs: seq<T>, key: T -> string) {
    && groups.Valid()
    && groups.keys == Dedup(KeysOf(xs, key))
    && forall k :: k in groups.values ==> groups.values[k] == GroupOf(xs, key, k)
  }

  lemma GroupByStep<T>(groups: OrderedMap<seq<T>>, done: seq<T>, x: T, key: T -> string)
    requires GroupsOf(groups, done, key)
    ensures GroupsOf(AddToGroup(groups, key, x), done + [x], key)
  {
    GroupByStepKeys(groups, done, x, key);
    GroupByStepValues(groups, done, x, key);
  }

  lemma GroupByStepKeys<T>(groups: OrderedMap<seq<T>>, done: seq<T>, x: T, key: T -> string)
    requires groups.Valid() && groups.keys == Dedup(KeysOf(done, key))
    ensures AddToGroup(groups, key, x).keys == Dedup(KeysOf(done + [x], key))
  {
    assert KeysOf(done + [x], key) == KeysOf(done, key) + [key(x)];
    DedupSnoc(KeysOf(done, key), key(x));
  }

  lemma GroupByStepValues<T>(groups: OrderedMap<seq<T>>, done: seq<T>, x: T, key: T -> string)
    requires GroupsOf(groups, done, key)
    ensures var g := AddToGroup(groups, key, x);
      forall c :: c in g.values ==> g.values[c] == GroupOf(done + [x], key, c)
  {
    if key(x) !in groups.values {
      GroupOfEmpty(done, key, key(x));
    }
    var g := AddToGroup(groups, key, x);
    forall c | c in g.values
      ensures g.values[c] == GroupOf(done + [x], key, c)
    {
      GroupOfSnoc(done, x, key, c);
    }
  }

  /** The groups of xs by key: one entry per distinct key, in first-occurrence
      order, each holding the elements with that key in input order. */
  method GroupBy<T>(xs: seq<T>, key: T -> string) returns (groups: OrderedMap<seq<T>>)
    ensures groups.Valid()
    ensures groups.keys == Dedup(KeysOf(xs, key))
    ensures forall k :: k in groups.values ==> groups.values[k] == GroupOf(xs, key, k)
  {
    groups := Empty();
    for i := 0 to |xs|
      invariant GroupsOf(groups, xs[..i], key)
    {
      assert xs[..i + 1] == xs[..i] + [xs[i]];
      GroupByStep(groups, xs[..i], xs[i], key);
      groups := AddToGroup(groups, key, xs[i]);
    }
    assert xs[..|xs|] == xs;
  }

  /** One step of the counting loop: `counts[key(x)] = counts.get(key(x), 0) + 1`. */
  function CountStep<T>(counts: OrderedMap<nat>, key: T -> string, x: T): OrderedMap<nat>
    requires counts.Valid()
  {
    var k := key(x);
    counts.Put(k, (if k in counts.values then counts.values[k] else 0) + 1)
  }

  /** The counts of a prefix, as the loop of CountBy maintains them. */
  ghost predicate CountsOf<T>(counts: OrderedMap<nat>, xs: seq<T>, key: T -> string) {
    && counts.Valid()
    && counts.keys == Dedup(KeysOf(xs, key))
    && forall k :: k in counts.values ==> counts.values[k] == |GroupOf(xs, key, k)|
  }

  lemma CountByStep<T>(counts: OrderedMap<nat>, done: seq<T>, x: T, key: T -> string)
    requires CountsOf(counts, done, key)
    ensures CountsOf(CountStep(counts, key, x), done + [x], key)
  {
    assert KeysOf(done + [x], key) == KeysOf(done, key) + [key(x)];
    DedupSnoc(KeysOf(done, key), key(x));
    CountByStepValues(counts, done, x, key);
  }

  lemma CountByStepValues<T>(counts: OrderedMap<nat>, done: seq<T>, x: T, key: T -> string)
    requires CountsOf(counts, done, key)
    ensures var c := CountStep(counts, key, x);
      forall k :: k in c.values ==> c.values[k] == |GroupOf(done + [x], key, k)|
  {
    if key(x) !in counts.values {
      GroupOfEmpty(done, key, key(x));
    }
    var c := CountStep(counts, key, x);
    forall k | k in c.values
      ensures c.values[k] == |GroupOf(done + [x], key, k)|
    {
      GroupOfSnoc(done, x, key, k);
    }
  }

  /** The number of elements per key: one entry per distinct key, in
      first-occurrence order, holding the size of that key's group. */
  method CountBy<T>(xs: seq<T>, key: T -> string) returns (counts: OrderedMap<nat>)
    ensures counts.Valid()
    ensures counts.keys == Dedup(KeysOf(xs, key))
    ensures forall k :: k in counts.values ==> counts.values[k] == |GroupOf(xs, key, k)|
  {
    counts := Empty();
    for i := 0 to |xs|
      invariant CountsOf(counts, xs[..i], key)
    {
      assert xs[..i + 1] == xs[..i] + [xs[i]];
      CountByStep(counts, xs[..i], xs[i], key);
      counts := CountStep(counts, key, xs[i]);
    }
    assert xs[..|xs|] == xs;
  }

  /** What f gives on the elements of xs, in order, skipping the elements it
      gives None on: the shape of a loop that appends a record for some of
      the elements it visits. */
  function Gather<T, B>(xs: seq<T>, f: T -> Option<B>): (r: seq<B>)
    ensures |r| <= |xs|
  {
    if xs == [] then []
    else
      var r := Gather(xs[..|xs| - 1], f);
      if f(xs[|xs| - 1]).Some? then r + [f(xs[|xs| - 1]).value] else r
  }

  /** One step of such a loop. */
  lemma GatherSnoc<T, B>(xs: seq<T>, f: T -> Option<B>, i: nat)
    requires i < |xs|
    ensures Gather(xs[..i + 1], f)
      == Gather(xs[..i], f) + (if f(xs[i]).Some? then [f(xs[i]).value] else [])
  {
    assert xs[..i + 1][..i] == xs[..i];
  }

  /** What a prefix gathers is a prefix of what the whole sequence gathers. */
  lemma {:induction false} GatherPrefix<T, B>(xs: seq<T>, f: T -> Option<B>, n: nat)
    requires n <= |xs|
    ensures Gather(xs[..n], f) <= Gather(xs, f)
  {
    if n < |xs| {
      var p := xs[..|xs| - 1];
      assert p[..n] == xs[..n];
      GatherPrefix(p, f, n);
    } else {
      assert xs[..n] == xs;
    }
  }

  /** Longer prefixes gather at least as much. */
  lemma GatherMonotone<T, B>(xs: seq<T>, f: T -> Option<B>, a: nat, b: nat)
    requires a <= b <= |xs|
    ensures |Gather(xs[..a], f)| <= |Gather(xs[..b], f)|
  {
    assert xs[..b][..a] == xs[..a];
    GatherPrefix(xs[..b], f, a);
  }

  /** An accepted element's record comes right after the records of the
      elements before it. */
  lemma GatherAt<T, B>(xs: seq<T>, f: T -> Option<B>, i: nat)
    requires i < |xs| && f(xs[i]).Some?
    ensures |Gather(xs[..i], f)| < |Gather(xs, f)|
    ensures Gather(xs, f)[|Gather(xs[..i], f)|] == f(xs[i]).value
  {
    GatherSnoc(xs, f, i);
    GatherPrefix(xs, f, i + 1);
  }

  /** Every record is f's record for one element: the element whose
      predecessors gather exactly the records before it. So two records never
      come from the same element. */
  lemma {:induction false} GatherFrom<T, B>(xs: seq<T>, f: T -> Option<B>, j: nat)
    requires j < |Gather(xs, f)|
    ensures exists i :: 0 <= i < |xs| && |Gather(xs[..i], f)| == j && f(xs[i]) == Some(Gather(xs, f)[j])
  {
    var p := xs[..|xs| - 1];
    if j < |Gather(p, f)| {
      GatherFrom(p, f, j);
      var i :| 0 <= i < |p| && |Gather(p[..i], f)| == j && f(p[i]) == Some(Gather(p, f)[j]);
      assert p[..i] == xs[..i];
    }
  }

  /** Records keep the order of the elements they come from. */
  lemma GatherOrder<T, B>(xs: seq<T>, f: T -> Option<B>, j1: nat, j2: nat)
    requires j1 < j2 < |Gather(xs, f)|
    ensures exists i1, i2 ::
      && 0 <= i1 < i2 < |xs|
      && f(xs[i1]) == Some(Gather(xs, f)[j1])
      && f(xs[i2]) == Some(Gather(xs, f)[j2])
  {
    GatherFrom(xs, f, j1);
    GatherFrom(xs, f, j2);
    var i1 :| 0 <= i1 < |xs| && |Gather(xs[..i1], f)| == j1 && f(xs[i1]) == Some(Gather(xs, f)[j1]);
    var i2 :| 0 <= i2 < |xs| && |Gather(xs[..i2], f)| == j2 && f(xs[i2]) == Some(Gather(xs, f)[j2]);
    if i2 <= i1 {
      GatherMonotone(xs, f, i2, i1);
      assert false;
    }
  }

  /** f's record, if any, for the group of key c. */
  function GroupRecord<T, B>(xs: seq<T>, key: T -> string, f: (string, seq<T>) -> Option<B>): string -> Option<B> {
    c => f(c, GroupOf(xs, key, c))
  }

  /** One result per key of cats, in that order, for the keys whose group f
      accepts: the shape of a loop over a grouping's items that appends a
      record for some groups. */
  function Collect<T, B>(xs: seq<T>, key: T -> string, cats: seq<string>,
                         f: (string, seq<T>) -> Option<B>): (r: seq<B>)
    ensures |r| <= |cats|
  {
    Gather(cats, GroupRecord(xs, key, f))
  }

  /** Every record in the result is f's record for one of the keys. */
  lemma CollectSound<T, B>(xs: seq<T>, key: T -> string, cats: seq<string>,
                           f: (string, seq<T>) -> Option<B>, b: B)
    requires b in Collect(xs, key, cats, f)
    ensures exists i :: 0 <= i < |cats| && f(cats[i], GroupOf(xs, key, cats[i])) == Some(b)
  {
    var r := Collect(xs, key, cats, f);
    var j :| 0 <= j < |r| && r[j] == b;
    GatherFrom(cats, GroupRecord(xs, key, f), j);
  }

  /** Every accepted group has its record in the result. */
  lemma CollectComplete<T, B>(xs: seq<T>, key: T -> string, cats: seq<string>,
                              f: (string, seq<T>) -> Option<B>, i: nat)
    requires i < |cats| && f(cats[i], GroupOf(xs, key, cats[i])).Some?
    ensures f(cats[i], GroupOf(xs, key, cats[i])).value in Collect(xs, key, cats, f)
  {
    GatherAt(cats, GroupRecord(xs, key, f), i);
  }

  /** Records come in the order of their keys in cats; when no key occurs
      twice in cats, each key has at most one record. */
  lemma CollectOrder<T, B>(xs: seq<T>, key: T -> string, cats: seq<string>,
                           f: (string, seq<T>) -> Option<B>, j1: nat, j2: nat)
    requires j1 < j2 < |Collect(xs, key, cats, f)|
    ensures var r := Collect(xs, key, cats, f);
      exists i1, i2 ::
        && 0 <= i1 < i2 < |cats|
        && f(cats[i1], GroupOf(xs, key, cats[i1])) == Some(r[j1])
        && f(cats[i2], GroupOf(xs, key, cats[i2])) == Some(r[j2])
  {
    GatherOrder(cats, GroupRecord(xs, key, f), j1, j2);
  }

  /** One step of a loop over the keys that appends f's record when there is one. */
  lemma CollectSnoc<T, B>(xs: seq<T>, key: T -> string, cats: seq<string>,
                          f: (string, seq<T>) -> Option<B>, c: string)
    ensures Collect(xs, key, cats + [c], f)
      == Collect(xs, key, cats, f) + (if f(c, GroupOf(xs, key, c)).Some? then [f(c, GroupOf(xs, key, c)).value] else [])
  {
    assert (cats + [c])[..|cats|] == cats;
  }
}
