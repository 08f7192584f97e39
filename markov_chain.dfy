/** The Chain object of markov/chain.go: a state size and the trie, updated in place by
    AddSource and Generate. */
module Markov {
  import opened MarkovTrie
  import opened MarkovSampling
  import opened MarkovCodec

  /** makeRun: `stateSize` copies of BOS, the non-empty tokens of `source`, one EOS. */
  method MakeRun(stateSize: nat, source: seq<string>) returns (run: seq<string>)
    ensures run == PaddedRun(stateSize, source)
    ensures |run| == stateSize + |NonEmpty(source)| + 1
  {
    run := [];
    for i := 0 to stateSize
      invariant run == Padding(i)
    {
      run := run + [BOS];
    }
    for j := 0 to |source|
      invariant run == Padding(stateSize) + NonEmpty(source[..j])
    {
      assert source[..j + 1] == source[..j] + [source[j]];
      NonEmptyAppend(source[..j], [source[j]]);
      if source[j] != "" {
        run := run + [source[j]];
      }
    }
    assert source[..|source|] == source;
    run := run + [EOS];
  }

  /** accumulateOccurrences: the children's keys in the map's iteration order and the
      running sums of their counters. */
  method AccumulateOccurrences(n: Node, order: set<string> -> seq<string>) returns (values: seq<string>, accum: seq<int>)
    requires ValidOrder(order)
    ensures values == order(n.children.Keys) && IsEnumeration(n.children.Keys, values)
    ensures |accum| == |values| == |n.children|
    ensures accum == PrefixSums(Weights(n, values))
    ensures (forall k | k in n.children :: n.children[k].occurrences >= 0) ==>
              Sorted(accum) && (accum != [] ==> accum[|accum| - 1] == Sum(Weights(n, values)))
  {
    var keys := order(n.children.Keys);
    EnumerationLength(n.children.Keys, keys);
    var sum := 0;
    values, accum := [], [];
    for i := 0 to |keys|
      invariant values == keys[..i]
      invariant accum == PrefixSums(Weights(n, values))
      invariant sum == Sum(Weights(n, values))
    {
      assert keys[..i + 1] == keys[..i] + [keys[i]];
      WeightsAppend(n, values, keys[i]);
      sum := sum + n.children[keys[i]].occurrences;
      values := values + [keys[i]];
      accum := accum + [sum];
    }
    assert keys[..|keys|] == keys;
    CountersAccumulate(n, values);
  }

  class Chain {
    const stateSize: nat
    var root: Node

    /** NewChain: an untrained chain. */
    constructor (stateSize: nat)
      ensures this.stateSize == stateSize && root == Empty
      ensures Shape(root, stateSize + 1)
    {
      this.stateSize := stateSize;
      root := Empty;
    }

    /** The chain LoadChain fills in from a decoded document. */
    constructor Restore(state: ChainState)
      ensures stateSize == state.stateSize && root == state.root
    {
      stateSize := state.stateSize;
      root := state.root;
    }

    function State(): ChainState
      reads this
    {
      ChainState(stateSize, root)
    }

    /** findOrAddTailNode: the path `state` exists afterwards, no counter changed, and the
        node returned is the one that was there or a new empty one. */
    method FindOrAddTailNode(state: seq<string>) returns (tail: Node)
      modifies this
      ensures root == EnsurePath(old(root), state)
      ensures HasPath(root, state) && tail == Lookup(root, state) && tail == Lookup(old(root), state)
      ensures forall q :: Count(root, q) == Count(old(root), q)
      ensures forall q :: HasPath(old(root), q) ==> HasPath(root, q)
    {
      var before := root;
      root := EnsurePath(root, state);
      tail := Lookup(root, state);
      EnsurePathTail(before, state);
      EnsurePathPaths(before, state, state);
      forall q ensures Count(root, q) == Count(before, q) && (HasPath(before, q) ==> HasPath(root, q)) {
        EnsurePathCount(before, state, q);
        EnsurePathPaths(before, state, q);
      }
    }

    /** The body of AddSource's loop: find or add the tail node of `state`, find or add its
        child `next`, and increment that child's counter. */
    method CountWindow(state: seq<string>, next: string)
      modifies this
      ensures root == AddWindow(old(root), state, next)
    {
      var tail := FindOrAddTailNode(state);
      var follow := Child(tail, next);
      root := Graft(root, state, tail.(children := tail.children[next := follow.(occurrences := follow.occurrences + 1)]));
    }

    /** AddSource: one window per token of the padded run; the counter of each window's path
        grows by one. A source with no non-empty token is skipped. */
    method AddSource(source: seq<string>)
      modifies this
      ensures root == Trained(old(root), stateSize, source)
    {
      var run := MakeRun(stateSize, source);
      if |run| != stateSize + 1 {
        CountWindows(run);
      }
    }

    /** The loop of AddSource: count every window of `run`, left to right. */
    method CountWindows(run: seq<string>)
      requires stateSize <= |run|
      modifies this
      ensures root == TrainWindows(old(root), run, stateSize, |run| - stateSize)
    {
      var i := 0;
      while i < |run| - stateSize
        invariant 0 <= i <= |run| - stateSize
        invariant root == TrainWindows(old(root), run, stateSize, i)
      {
        TrainWindowsNext(old(root), run, stateSize, i);
        CountWindow(run[i..i + stateSize], run[i + stateSize]);
        i := i + 1;
      }
    }

    /** Generate: walk from the padding state, electing at each state the first candidate
        whose running sum reaches the draw, until EOS is elected. */
    method Generate(draws: seq<nat>, order: set<string> -> seq<string>) returns (result: Outcome)
      requires ValidOrder(order)
      modifies this
      ensures (root, result) == Generated(old(root), stateSize, draws, order)
      ensures forall q :: Count(root, q) == Count(old(root), q)
      ensures result.Done? ==> EOS !in result.tokens
      ensures Shape(old(root), stateSize + 1) ==> Shape(root, stateSize + 1) && !result.Panicked?
    {
      ghost var goal := Generated(root, stateSize, draws, order);
      GenerateFacts(root, stateSize, draws, order);
      var buf: seq<string> := [];
      for i := 0 to stateSize
        invariant buf == Padding(i)
      {
        buf := buf + [BOS];
      }
      var rest: seq<nat> := draws;
      while true
        invariant stateSize <= |buf|
        invariant GenerateFrom(root, stateSize, buf, rest, order) == goal
        decreases |rest|
      {
        ghost var before := root;
        var tail := FindOrAddTailNode(buf[|buf| - stateSize..]);
        var items, cumsum := AccumulateOccurrences(tail, order);
        GenerateFromStops(before, stateSize, buf, rest, order, root, items, cumsum);
        if |items| == 0 {
          return NoData;
        }
        if cumsum[|cumsum| - 1] <= 0 {
          return Panicked;
        }
        if rest == [] {
          return Unfinished;
        }
        var r := rest[0] % cumsum[|cumsum| - 1];
        SearchFindsCandidate(cumsum, r);
        var elected := items[SearchInts(cumsum, r)];
        GenerateFromElects(before, stateSize, buf, rest, order, root, items, cumsum, elected);
        if elected == EOS {
          return Done(buf[stateSize..]);
        }
        buf := buf + [elected];
        rest := rest[1..];
      }
    }

    /** Dump: the document that LoadChain turns back into this very chain. */
    method Dump() returns (doc: Json)
      ensures doc == EncodeChain(State())
      ensures DecodeChain(doc) == Ok(State())
    {
      doc := EncodeChain(ChainState(stateSize, root));
      ChainRoundTrip(ChainState(stateSize, root));
    }
  }

  /** LoadChain: a new chain from a well-typed document, otherwise the decoding error. */
  method LoadChain(doc: Json) returns (r: Result<Chain>)
    ensures DecodeChain(doc).Err? ==> r == Err(DecodeChain(doc).error)
    ensures DecodeChain(doc).Ok? ==> r.Ok? && fresh(r.value) && r.value.State() == DecodeChain(doc).value
  {
    var decoded := DecodeChain(doc);
    if decoded.Err? {
      return Err(decoded.error);
    }
    var c := new Chain.Restore(decoded.value);
    return Ok(c);
  }
}
