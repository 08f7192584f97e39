/** Generation from the chain (markov/chain.go, Generate and accumulateOccurrences):
    the candidates of a state, their cumulative counts, the binary search that elects one,
    and the whole generation loop as a function of the trie and of the random draws. */
module MarkovSampling {
  import opened MarkovTrie

  /** `ks` lists every key of `keys` exactly once. */
  predicate IsEnumeration(keys: set<string>, ks: seq<string>)
  {
    && (forall i | 0 <= i < |ks| :: ks[i] in keys)
    && (forall k | k in keys :: k in ks)
    && (forall i, j | 0 <= i < j < |ks| :: ks[i] != ks[j])
  }

  /** Go ranges over a map in an order it does not specify. The model takes that order as
      a function from a key set to an enumeration of it, fixed for a whole generation. */
  ghost predicate ValidOrder(order: set<string> -> seq<string>)
  {
    forall keys :: IsEnumeration(keys, order(keys))
  }

  /** The counters of the children `ks` of `n`, in that order. */
  function Weights(n: Node, ks: seq<string>): (ws: seq<int>)
    requires forall i | 0 <= i < |ks| :: ks[i] in n.children
    ensures |ws| == |ks|
  {
    seq(|ks|, i requires 0 <= i < |ks| => n.children[ks[i]].occurrences)
  }

  function Sum(ws: seq<int>): int
  {
    if ws == [] then 0 else Sum(ws[..|ws| - 1]) + ws[|ws| - 1]
  }

  /** The running sums of `ws`: element i is the sum of the first i + 1 weights. */
  function PrefixSums(ws: seq<int>): (cs: seq<int>)
    ensures |cs| == |ws|
  {
    if ws == [] then [] else PrefixSums(ws[..|ws| - 1]) + [Sum(ws)]
  }
  /** One more key adds its counter to the weights, to their sum and to the running sums. */
  lemma WeightsAppend(n: Node, ks: seq<string>, k: string)
    requires forall i | 0 <= i < |ks| :: ks[i] in n.children
    requires k in n.children
    ensures Weights(n, ks + [k]) == Weights(n, ks) + [n.children[k].occurrences]
    ensures Sum(Weights(n, ks + [k])) == Sum(Weights(n, ks)) + n.children[k].occurrences
    ensures PrefixSums(Weights(n, ks + [k])) == PrefixSums(Weights(n, ks)) + [Sum(Weights(n, ks)) + n.children[k].occurrences]
  {
    var ws, ws' := Weights(n, ks), Weights(n, ks + [k]);
    assert ws' == ws + [n.children[k].occurrences];
    assert ws'[..|ws'| - 1] == ws;
  }


  predicate Sorted(a: seq<int>)
  {
    forall i, j | 0 <= i <= j < |a| :: a[i] <= a[j]
  }

  /** sort.Search as Go's standard library writes it, for the predicate a[h] >= x: a binary
      search over [lo, hi). */
  function Search(a: seq<int>, x: int, lo: nat, hi: nat): (i: nat)
    requires lo <= hi <= |a|
    ensures lo <= i <= hi
    decreases hi - lo
  {
    if lo < hi then
      var h := (lo + hi) / 2;
      if a[h] < x then Search(a, x, h + 1, hi) else Search(a, x, lo, h)
    else lo
  }

  /** sort.SearchInts. */
  function SearchInts(a: seq<int>, x: int): (i: nat)
    ensures i <= |a|
  {
    Search(a, x, 0, |a|)
  }

  /** What Generate's loop returns: the tokens before EOS; `nil` when the state reached has
      no candidate; rand.Intn's panic on a non-positive total; or the run stopped because
      the given draws were used up before EOS (the source's loop has no bound). */
  datatype Outcome = Done(tokens: seq<string>) | NoData | Panicked | Unfinished

  /** The last `stateSize` tokens of `buf`. */
  function StateOf(stateSize: nat, buf: seq<string>): seq<string>
    requires stateSize <= |buf|
  {
    buf[|buf| - stateSize..]
  }

  /** Generate's loop from buffer `buf` on, with the trie it leaves behind. The i-th call to
      rand.Intn(n) returns draws[i] % n, which covers every sequence of values it can return. */
  function GenerateFrom(root: Node, stateSize: nat, buf: seq<string>, draws: seq<nat>,
                        order: set<string> -> seq<string>): (Node, Outcome)
    requires stateSize <= |buf| && ValidOrder(order)
    decreases |draws|
  {
    var state := StateOf(stateSize, buf);
    var root' := EnsurePath(root, state);
    var tail := Lookup(root', state);
    var items := order(tail.children.Keys);
    var cumsum := PrefixSums(Weights(tail, items));
    if |items| == 0 then (root', NoData)
    else if cumsum[|cumsum| - 1] <= 0 then (root', Panicked)
    else if draws == [] then (root', Unfinished)
    else
      var r := draws[0] % cumsum[|cumsum| - 1];
      SearchFindsCandidate(cumsum, r);
      var elected := items[SearchInts(cumsum, r)];
      if elected == EOS then (root', Done(buf[stateSize..]))
      else GenerateFrom(root', stateSize, buf + [elected], draws[1..], order)
  }

  /** The three ways one step of the walk stops before electing: no candidate, a total that
      is not positive, no draw left. `root'`, `items` and `cumsum` are the step's trie,
      candidates and running sums. */
  lemma GenerateFromStops(root: Node, stateSize: nat, buf: seq<string>, draws: seq<nat>,
                          order: set<string> -> seq<string>, root': Node, items: seq<string>, cumsum: seq<int>)
    requires stateSize <= |buf| && ValidOrder(order)
    requires root' == EnsurePath(root, StateOf(stateSize, buf))
    requires items == order(Lookup(root', StateOf(stateSize, buf)).children.Keys)
    requires cumsum == PrefixSums(Weights(Lookup(root', StateOf(stateSize, buf)), items))
    ensures items == [] ==> GenerateFrom(root, stateSize, buf, draws, order) == (root', NoData)
    ensures items != [] && |cumsum| == |items| && cumsum[|cumsum| - 1] <= 0 ==>
              GenerateFrom(root, stateSize, buf, draws, order) == (root', Panicked)
    ensures items != [] && |cumsum| == |items| && cumsum[|cumsum| - 1] > 0 && draws == [] ==>
              GenerateFrom(root, stateSize, buf, draws, order) == (root', Unfinished)
  {
  }

  /** One step of the walk that elects `elected` with the first draw: the walk ends there on
      EOS and otherwise goes on from the longer buffer with the remaining draws. */
  lemma GenerateFromElects(root: Node, stateSize: nat, buf: seq<string>, draws: seq<nat>,
                           order: set<string> -> seq<string>, root': Node, items: seq<string>, cumsum: seq<int>,
                           elected: string)
    requires stateSize <= |buf| && ValidOrder(order)
    requires root' == EnsurePath(root, StateOf(stateSize, buf))
    requires items == order(Lookup(root', StateOf(stateSize, buf)).children.Keys)
    requires cumsum == PrefixSums(Weights(Lookup(root', StateOf(stateSize, buf)), items))
    requires |cumsum| == |items| > 0 && cumsum[|cumsum| - 1] > 0 && draws != []
    requires SearchInts(cumsum, draws[0] % cumsum[|cumsum| - 1]) < |items|
    requires elected == items[SearchInts(cumsum, draws[0] % cumsum[|cumsum| - 1])]
    ensures GenerateFrom(root, stateSize, buf, draws, order)
         == if elected == EOS then (root', Done(buf[stateSize..]))
            else GenerateFrom(root', stateSize, buf + [elected], draws[1..], order)
  {
  }

  /** Generate as the chain runs it: from `stateSize` copies of BOS. */
  function Generated(root: Node, stateSize: nat, draws: seq<nat>, order: set<string> -> seq<string>): (Node, Outcome)
    requires ValidOrder(order)
  {
    GenerateFrom(root, stateSize, Padding(stateSize), draws, order)
  }

  /** The window of `stateSize + 1` tokens of `s` that starts at `i`. */
  function Window(s: seq<string>, stateSize: nat, i: nat): seq<string>
    requires i + stateSize < |s|
  {
    s[i..i + stateSize + 1]
  }

  /** Every window of `s` of `stateSize + 1` tokens was counted at least once in `root`. */
  ghost predicate Observed(root: Node, stateSize: nat, s: seq<string>)
  {
    forall i: nat | i + stateSize < |s| :: Count(root, Window(s, stateSize, i)) >= 1
  }

  // ---------------------------------------------------------------------------------
  // Enumerations

  lemma {:induction false} EnumerationLength(keys: set<string>, ks: seq<string>)
    requires IsEnumeration(keys, ks)
    ensures |ks| == |keys|
    decreases |ks|
  {
    if ks != [] {
      var rest := keys - {ks[0]};
      assert IsEnumeration(rest, ks[1..]) by {
        forall k | k in rest ensures k in ks[1..] {
          var i :| 0 <= i < |ks| && ks[i] == k;
          assert i != 0;
        }
      }
      EnumerationLength(rest, ks[1..]);
    } else {
      assert forall k :: k !in keys;
    }
  }

  lemma EnumerationOfSingleton(x: string, ks: seq<string>)
    requires IsEnumeration({x}, ks)
    ensures ks == [x]
  {
    EnumerationLength({x}, ks);
  }

  // ---------------------------------------------------------------------------------
  // Prefix sums

  /** Element i of the running sums is the sum of the first i + 1 weights. */
  lemma {:induction false} PrefixSumsAt(ws: seq<int>, i: nat)
    requires i < |ws|
    ensures PrefixSums(ws)[i] == Sum(ws[..i + 1])
    decreases |ws|
  {
    if i < |ws| - 1 {
      PrefixSumsAt(ws[..|ws| - 1], i);
      assert ws[..|ws| - 1][..i + 1] == ws[..i + 1];
    } else {
      assert ws[..i + 1] == ws;
    }
  }

  /** With no negative weight the running sums never decrease, and they end at the total. */
  lemma {:induction false} PrefixSumsSorted(ws: seq<int>)
    requires forall i | 0 <= i < |ws| :: ws[i] >= 0
    ensures Sorted(PrefixSums(ws))
    ensures ws != [] ==> PrefixSums(ws)[|ws| - 1] == Sum(ws)
    decreases |ws|
  {
    if ws != [] {
      var init := ws[..|ws| - 1];
      PrefixSumsSorted(init);
      if init != [] {
        PrefixSumsAt(init, |init| - 1);
        assert init[..|init|] == init;
      }
    }
  }

  /** When no child of `n` has a negative counter, the running sums of the counters of
      `ks` never decrease and end at their total. */
  lemma CountersAccumulate(n: Node, ks: seq<string>)
    requires forall i | 0 <= i < |ks| :: ks[i] in n.children
    ensures (forall k | k in n.children :: n.children[k].occurrences >= 0) ==>
              Sorted(PrefixSums(Weights(n, ks))) && (ks != [] ==> PrefixSums(Weights(n, ks))[|ks| - 1] == Sum(Weights(n, ks)))
  {
    if forall k | k in n.children :: n.children[k].occurrences >= 0 {
      var ws := Weights(n, ks);
      forall j | 0 <= j < |ws| ensures ws[j] >= 0 {
        assert ws[j] == n.children[ks[j]].occurrences;
      }
      PrefixSumsSorted(ws);
    }
  }

  /** With every weight at least 1 the total is at least the number of weights. */
  lemma {:induction false} SumOfPositives(ws: seq<int>)
    requires forall i | 0 <= i < |ws| :: ws[i] >= 1
    ensures Sum(ws) >= |ws|
    decreases |ws|
  {
    if ws != [] {
      SumOfPositives(ws[..|ws| - 1]);
    }
  }

  // ---------------------------------------------------------------------------------
  // sort.SearchInts

  /** `i` is the smallest index whose value is at least `x`, or the length when there is
      none. */
  predicate FirstAtLeast(a: seq<int>, x: int, i: nat)
  {
    (forall j | 0 <= j < i && j < |a| :: a[j] < x) && (i < |a| ==> a[i] >= x)
  }

  /** On sorted input the search returns the smallest index whose value is at least `x`
      (the length when there is none): the rule by which Generate elects a candidate. */
  lemma {:induction false} SearchIsFirstAtLeast(a: seq<int>, x: int, lo: nat, hi: nat)
    requires lo <= hi <= |a| && Sorted(a)
    requires forall j | 0 <= j < lo :: a[j] < x
    requires hi < |a| ==> a[hi] >= x
    ensures FirstAtLeast(a, x, Search(a, x, lo, hi))
    decreases hi - lo
  {
    if lo < hi {
      var h := (lo + hi) / 2;
      assert lo <= h < hi;
      if a[h] < x {
        assert Search(a, x, lo, hi) == Search(a, x, h + 1, hi);
        forall j | lo <= j < h + 1 ensures a[j] < x {
          assert a[j] <= a[h];
        }
        SearchIsFirstAtLeast(a, x, h + 1, hi);
      } else {
        assert Search(a, x, lo, hi) == Search(a, x, lo, h);
        SearchIsFirstAtLeast(a, x, lo, h);
      }
    }
  }

  lemma SearchIntsIsFirstAtLeast(a: seq<int>, x: int)
    requires Sorted(a)
    ensures var i := SearchInts(a, x);
      (forall j | 0 <= j < i :: a[j] < x) && (i < |a| ==> a[i] >= x)
  {
    SearchIsFirstAtLeast(a, x, 0, |a|);
  }

  /** Whatever the order of `a`, the search stays inside [lo, hi) when the value just after
      the range is at least `x` and the value just before it is below `x`. */
  lemma {:induction false} SearchWithinBounds(a: seq<int>, x: int, lo: nat, hi: nat)
    requires lo <= hi <= |a|
    requires hi < |a| ==> a[hi] >= x
    requires lo > 0 ==> a[lo - 1] < x
    ensures var i := Search(a, x, lo, hi); (i < |a| ==> a[i] >= x) && (i > 0 ==> a[i - 1] < x)
    decreases hi - lo
  {
    if lo < hi {
      var h := (lo + hi) / 2;
      assert lo <= h < hi;
      if a[h] < x {
        assert Search(a, x, lo, hi) == Search(a, x, h + 1, hi);
        SearchWithinBounds(a, x, h + 1, hi);
      } else {
        assert Search(a, x, lo, hi) == Search(a, x, lo, h);
        SearchWithinBounds(a, x, lo, h);
      }
    }
  }

  /** When the last value is at least `x` the search returns an index of `a`, so indexing
      the candidates with it is safe. */
  lemma SearchFindsCandidate(a: seq<int>, x: int)
    requires |a| > 0 && a[|a| - 1] >= x
    ensures SearchInts(a, x) < |a|
  {
    SearchWithinBounds(a, x, 0, |a|);
  }

  /** The election is not proportional to the counts: with two candidates counted once
      each, both draws rand.Intn(2) can return elect the first one. */
  lemma SecondOfTwoNeverElected(r: int)
    requires 0 <= r < 2
    ensures SearchInts(PrefixSums([1, 1]), r) == 0
  {
    assert PrefixSums([1, 1]) == [1, 2] by {
      assert [1, 1][..1] == [1];
      assert [1][..0] == [];
    }
  }

  // ---------------------------------------------------------------------------------
  // Generate

  /** Generate changes no counter: only empty placeholder nodes are added. */
  lemma {:induction false} GenerateKeepsCounts(root: Node, stateSize: nat, buf: seq<string>, draws: seq<nat>,
                                               order: set<string> -> seq<string>, q: seq<string>)
    requires stateSize <= |buf| && ValidOrder(order)
    ensures Count(GenerateFrom(root, stateSize, buf, draws, order).0, q) == Count(root, q)
    decreases |draws|
  {
    var state := StateOf(stateSize, buf);
    var root' := EnsurePath(root, state);
    var tail := Lookup(root', state);
    var items := order(tail.children.Keys);
    var cumsum := PrefixSums(Weights(tail, items));
    EnsurePathCount(root, state, q);
    if |items| != 0 && cumsum[|cumsum| - 1] > 0 && draws != [] {
      var r := draws[0] % cumsum[|cumsum| - 1];
      SearchFindsCandidate(cumsum, r);
      var elected := items[SearchInts(cumsum, r)];
      if elected != EOS {
        GenerateKeepsCounts(root', stateSize, buf + [elected], draws[1..], order, q);
      }
    }
  }

  /** Generate keeps every path that existed. */
  lemma {:induction false} GenerateKeepsPaths(root: Node, stateSize: nat, buf: seq<string>, draws: seq<nat>,
                                              order: set<string> -> seq<string>, q: seq<string>)
    requires stateSize <= |buf| && ValidOrder(order) && HasPath(root, q)
    ensures HasPath(GenerateFrom(root, stateSize, buf, draws, order).0, q)
    decreases |draws|
  {
    var state := StateOf(stateSize, buf);
    var root' := EnsurePath(root, state);
    var tail := Lookup(root', state);
    var items := order(tail.children.Keys);
    var cumsum := PrefixSums(Weights(tail, items));
    EnsurePathPaths(root, state, q);
    if |items| != 0 && cumsum[|cumsum| - 1] > 0 && draws != [] {
      var r := draws[0] % cumsum[|cumsum| - 1];
      SearchFindsCandidate(cumsum, r);
      var elected := items[SearchInts(cumsum, r)];
      if elected != EOS {
        GenerateKeepsPaths(root', stateSize, buf + [elected], draws[1..], order, q);
      }
    }
  }

  /** The generated tokens extend what followed the padding, and never contain EOS. */
  lemma {:induction false} GenerateOmitsEos(root: Node, stateSize: nat, buf: seq<string>, draws: seq<nat>,
                                            order: set<string> -> seq<string>)
    requires stateSize <= |buf| && ValidOrder(order) && EOS !in buf[stateSize..]
    ensures var out := GenerateFrom(root, stateSize, buf, draws, order).1;
      out.Done? ==> buf[stateSize..] <= out.tokens && EOS !in out.tokens
    decreases |draws|
  {
    var state := StateOf(stateSize, buf);
    var root' := EnsurePath(root, state);
    var tail := Lookup(root', state);
    var items := order(tail.children.Keys);
    var cumsum := PrefixSums(Weights(tail, items));
    if |items| != 0 && cumsum[|cumsum| - 1] > 0 && draws != [] {
      var r := draws[0] % cumsum[|cumsum| - 1];
      SearchFindsCandidate(cumsum, r);
      var elected := items[SearchInts(cumsum, r)];
      if elected != EOS {
        assert (buf + [elected])[stateSize..] == buf[stateSize..] + [elected];
        GenerateOmitsEos(root', stateSize, buf + [elected], draws[1..], order);
      }
    }
  }

  /** On a trie of the shape training gives, rand.Intn always gets a positive bound, so
      Generate never panics, and the placeholders it adds keep that shape. */
  lemma {:induction false} GenerateOnTrainedShape(root: Node, stateSize: nat, buf: seq<string>, draws: seq<nat>,
                                                  order: set<string> -> seq<string>)
    requires stateSize <= |buf| && ValidOrder(order) && Shape(root, stateSize + 1)
    ensures var (root', out) := GenerateFrom(root, stateSize, buf, draws, order);
      Shape(root', stateSize + 1) && !out.Panicked?
    decreases |draws|
  {
    var state := StateOf(stateSize, buf);
    var root' := EnsurePath(root, state);
    EnsurePathShape(root, stateSize + 1, state);
    LookupShape(root', stateSize + 1, state);
    var tail := Lookup(root', state);
    var items := order(tail.children.Keys);
    var ws := Weights(tail, items);
    var cumsum := PrefixSums(ws);
    if |items| != 0 {
      PrefixSumsSorted(ws);
      SumOfPositives(ws);
      if draws != [] {
        var r := draws[0] % cumsum[|cumsum| - 1];
        SearchFindsCandidate(cumsum, r);
        var elected := items[SearchInts(cumsum, r)];
        if elected != EOS {
          GenerateOnTrainedShape(root', stateSize, buf + [elected], draws[1..], order);
        }
      }
    }
  }

  /** What Generate promises from the padding state: no counter changes, no EOS among the
      tokens, and on a trained trie no panic and the shape kept. */
  lemma GenerateFacts(root: Node, stateSize: nat, draws: seq<nat>, order: set<string> -> seq<string>)
    requires ValidOrder(order)
    ensures var (root', out) := Generated(root, stateSize, draws, order);
      && (forall q :: Count(root', q) == Count(root, q))
      && (out.Done? ==> EOS !in out.tokens)
      && (Shape(root, stateSize + 1) ==> Shape(root', stateSize + 1) && !out.Panicked?)
  {
    forall q ensures Count(Generated(root, stateSize, draws, order).0, q) == Count(root, q) {
      GenerateKeepsCounts(root, stateSize, Padding(stateSize), draws, order, q);
    }
    GenerateOmitsEos(root, stateSize, Padding(stateSize), draws, order);
    if Shape(root, stateSize + 1) {
      GenerateOnTrainedShape(root, stateSize, Padding(stateSize), draws, order);
    }
  }

  /** findOrAddTailNode changes no counter, so it changes nothing that was observed. */
  lemma ObservedAfterEnsurePath(root: Node, p: seq<string>, stateSize: nat, s: seq<string>)
    ensures Observed(EnsurePath(root, p), stateSize, s) <==> Observed(root, stateSize, s)
  {
    forall i: nat | i + stateSize < |s| {
      EnsurePathCount(root, p, Window(s, stateSize, i));
    }
  }

  /** Appending a counted continuation of the current state keeps a text observed. */
  lemma ObservedExtend(root: Node, stateSize: nat, buf: seq<string>, x: string)
    requires stateSize <= |buf| && Observed(root, stateSize, buf)
    requires Count(root, StateOf(stateSize, buf) + [x]) >= 1
    ensures Observed(root, stateSize, buf + [x])
  {
    var next := buf + [x];
    forall i: nat | i + stateSize < |next|
      ensures Count(root, Window(next, stateSize, i)) >= 1
    {
      if i + stateSize < |buf| {
        assert Window(next, stateSize, i) == Window(buf, stateSize, i);
      } else {
        assert Window(next, stateSize, i) == StateOf(stateSize, buf) + [x];
      }
    }
  }

  /** On a trained trie the candidate a draw elects was counted after the current state. */
  lemma ElectedWasCounted(root: Node, stateSize: nat, buf: seq<string>, order: set<string> -> seq<string>, draw: nat)
    requires stateSize <= |buf| && ValidOrder(order) && Shape(root, stateSize + 1)
    ensures var state := StateOf(stateSize, buf);
      var tail := Lookup(EnsurePath(root, state), state);
      var items := order(tail.children.Keys);
      var cumsum := PrefixSums(Weights(tail, items));
      |items| != 0 ==>
        && cumsum[|cumsum| - 1] > 0
        && SearchInts(cumsum, draw % cumsum[|cumsum| - 1]) < |items|
        && Count(root, state + [items[SearchInts(cumsum, draw % cumsum[|cumsum| - 1])]]) >= 1
  {
    var state := StateOf(stateSize, buf);
    var root' := EnsurePath(root, state);
    EnsurePathShape(root, stateSize + 1, state);
    LookupShape(root', stateSize + 1, state);
    var tail := Lookup(root', state);
    var items := order(tail.children.Keys);
    var ws := Weights(tail, items);
    var cumsum := PrefixSums(ws);
    if |items| != 0 {
      PrefixSumsSorted(ws);
      SumOfPositives(ws);
      var r := draw % cumsum[|cumsum| - 1];
      SearchFindsCandidate(cumsum, r);
      var elected := items[SearchInts(cumsum, r)];
      assert elected in tail.children;
      LookupAppend(root', state, [elected]);
      EnsurePathCount(root, state, state + [elected]);
    }
  }

  /** On a trained trie, every transition of a generated text (padding, tokens, EOS) was
      observed during training: Generate only follows counted edges. */
  lemma {:induction false} GenerateFollowsObserved(root: Node, stateSize: nat, buf: seq<string>, draws: seq<nat>,
                                                   order: set<string> -> seq<string>)
    requires stateSize <= |buf| && ValidOrder(order) && Shape(root, stateSize + 1)
    requires Observed(root, stateSize, buf)
    ensures var out := GenerateFrom(root, stateSize, buf, draws, order).1;
      out.Done? ==> Observed(root, stateSize, buf[..stateSize] + out.tokens + [EOS])
    decreases |draws|
  {
    var state := StateOf(stateSize, buf);
    var root' := EnsurePath(root, state);
    var tail := Lookup(root', state);
    var items := order(tail.children.Keys);
    var cumsum := PrefixSums(Weights(tail, items));
    if |items| != 0 && draws != [] {
      ElectedWasCounted(root, stateSize, buf, order, draws[0]);
      var elected := items[SearchInts(cumsum, draws[0] % cumsum[|cumsum| - 1])];
      var next := buf + [elected];
      ObservedExtend(root, stateSize, buf, elected);
      if elected == EOS {
        assert buf[..stateSize] + buf[stateSize..] == buf;
      } else {
        EnsurePathShape(root, stateSize + 1, state);
        ObservedAfterEnsurePath(root, state, stateSize, next);
        GenerateFollowsObserved(root', stateSize, next, draws[1..], order);
        var out := GenerateFrom(root', stateSize, next, draws[1..], order).1;
        assert next[..stateSize] == buf[..stateSize];
        ObservedAfterEnsurePath(root, state, stateSize, next[..stateSize] + (if out.Done? then out.tokens else []) + [EOS]);
      }
    }
  }

  /** Generate on a fresh chain: the padding state has no candidate, so the result is
      empty (nil), whatever the state size, the draws and the map order. */
  lemma GenerateOnFreshChain(stateSize: nat, draws: seq<nat>, order: set<string> -> seq<string>)
    requires ValidOrder(order)
    ensures Generated(Empty, stateSize, draws, order).1 == NoData
  {
    var state := StateOf(stateSize, Padding(stateSize));
    EnsurePathTail(Empty, state);
    LookupEmpty(state);
    var items := order(Empty.children.Keys);
    EnumerationLength(Empty.children.Keys, items);
  }

  /** One step where the trained trie allows exactly one continuation `x` of the current
      state: that token is elected whatever the draw. */
  lemma StepWithSingleContinuation(root: Node, stateSize: nat, buf: seq<string>, draws: seq<nat>,
                                   order: set<string> -> seq<string>, x: string)
    requires stateSize <= |buf| && ValidOrder(order) && Shape(root, stateSize + 1) && draws != []
    requires HasPath(root, StateOf(stateSize, buf))
    requires forall y :: Count(root, StateOf(stateSize, buf) + [y]) >= 1 <==> y == x
    ensures GenerateFrom(root, stateSize, buf, draws, order)
         == if x == EOS then (root, Done(buf[stateSize..]))
            else GenerateFrom(root, stateSize, buf + [x], draws[1..], order)
  {
    var state := StateOf(stateSize, buf);
    EnsurePathExisting(root, state);
    LookupShape(root, stateSize + 1, state);
    var tail := Lookup(root, state);
    forall y ensures y in tail.children <==> y == x {
      LookupAppend(root, state, [y]);
    }
    assert tail.children.Keys == {x};
    var items := order(tail.children.Keys);
    EnumerationOfSingleton(x, items);
    var ws := Weights(tail, items);
    var cumsum := PrefixSums(ws);
    assert cumsum == [ws[0]] by {
      assert |ws| == 1 && ws[..0] == [];
      assert Sum(ws) == ws[0];
    }
    var r := draws[0] % cumsum[0];
    SearchFindsCandidate(cumsum, r);
  }

  /** One step from a state with exactly two continuations, each counted once: whatever the
      draw, the first of the two in the map's order is elected. */
  lemma StepWithTwoOnes(root: Node, stateSize: nat, buf: seq<string>, draws: seq<nat>,
                        order: set<string> -> seq<string>, x: string, y: string)
    requires stateSize <= |buf| && ValidOrder(order) && Shape(root, stateSize + 1) && draws != []
    requires HasPath(root, StateOf(stateSize, buf)) && x != y
    requires forall z :: Count(root, StateOf(stateSize, buf) + [z]) >= 1 <==> z == x || z == y
    requires Count(root, StateOf(stateSize, buf) + [x]) == 1 && Count(root, StateOf(stateSize, buf) + [y]) == 1
    ensures |order({x, y})| == 2 && order({x, y})[0] in {x, y}
    ensures GenerateFrom(root, stateSize, buf, draws, order)
         == if order({x, y})[0] == EOS then (root, Done(buf[stateSize..]))
            else GenerateFrom(root, stateSize, buf + [order({x, y})[0]], draws[1..], order)
  {
    var state := StateOf(stateSize, buf);
    EnsurePathExisting(root, state);
    LookupShape(root, stateSize + 1, state);
    var tail := Lookup(root, state);
    forall z ensures z in tail.children <==> z == x || z == y {
      LookupAppend(root, state, [z]);
    }
    LookupAppend(root, state, [x]);
    LookupAppend(root, state, [y]);
    var items := order(tail.children.Keys);
    TwoOnesSums(tail, items, x, y);
    var cumsum := PrefixSums(Weights(tail, items));
    var r := draws[0] % cumsum[1];
    SecondOfTwoNeverElected(r);
    GenerateFromElects(root, stateSize, buf, draws, order, root, items, cumsum, items[0]);
  }

  /** Two children counted once each, listed in any order, have the running sums 1 and 2. */
  lemma TwoOnesSums(tail: Node, items: seq<string>, x: string, y: string)
    requires x != y && tail.children.Keys == {x, y} && IsEnumeration({x, y}, items)
    requires tail.children[x].occurrences == 1 && tail.children[y].occurrences == 1
    ensures |items| == 2 && items[0] in {x, y}
    ensures PrefixSums(Weights(tail, items)) == PrefixSums([1, 1]) == [1, 2]
  {
    assert |{x, y}| == 2;
    EnumerationLength({x, y}, items);
    var ws := Weights(tail, items);
    assert ws == [1, 1];
    assert [1, 1][..1] == [1] && [1][..0] == [];
    assert Sum([1]) == 1 && Sum([1, 1]) == 2;
    assert PrefixSums([1]) == [1];
  }
}
