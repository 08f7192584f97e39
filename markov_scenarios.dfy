/** The behaviours markov/chain_test.go exercises, stated for every sequence of random
    draws and every map iteration order. */
module MarkovScenarios {
  import opened MarkovTrie
  import opened MarkovSampling
  import opened MarkovCodec
  import opened Markov

  /** A token a source can carry that is neither empty nor one of the two markers. */
  predicate Ordinary(t: string)
  {
    t != "" && t != BOS && t != EOS
  }

  /** The trie of a chain of state size 3 trained on the sentence a b c. */
  function TrainedOn3(a: string, b: string, c: string): Node
  {
    Trained(Empty, 3, [a, b, c])
  }

  /** The windows of state size 3 in a run of seven tokens, spelled out. */
  lemma MatchesOfSeven(run: seq<string>, q: seq<string>)
    requires |run| == 7
    ensures Matches(run, 3, 4, q) ==
      (if run[0..4] == q then 1 else 0) + (if run[1..5] == q then 1 else 0)
      + (if run[2..6] == q then 1 else 0) + (if run[3..7] == q then 1 else 0)
  {
    assert Matches(run, 3, 1, q) == (if run[0..4] == q then 1 else 0);
    assert Matches(run, 3, 2, q) == Matches(run, 3, 1, q) + (if run[1..5] == q then 1 else 0);
    assert Matches(run, 3, 3, q) == Matches(run, 3, 2, q) + (if run[2..6] == q then 1 else 0);
  }

  /** Its counters: one per window of BOS BOS BOS a b c EOS. */
  lemma WindowSum3(a: string, b: string, c: string, q: seq<string>)
    requires Ordinary(a) && Ordinary(b) && Ordinary(c)
    ensures Count(TrainedOn3(a, b, c), q) ==
      (if [BOS, BOS, BOS, a] == q then 1 else 0) + (if [BOS, BOS, a, b] == q then 1 else 0)
      + (if [BOS, a, b, c] == q then 1 else 0) + (if [a, b, c, EOS] == q then 1 else 0)
  {
    NonEmptyKeepsAll([a, b, c]);
    var run := PaddedRun(3, [a, b, c]);
    assert run == [BOS, BOS, BOS, a, b, c, EOS];
    AddSourceCount(Empty, 3, [a, b, c], q);
    LookupEmpty(q);
    MatchesOfSeven(run, q);
    assert run[0..4] == [BOS, BOS, BOS, a] && run[1..5] == [BOS, BOS, a, b];
    assert run[2..6] == [BOS, a, b, c] && run[3..7] == [a, b, c, EOS];
  }

  /** Its counters: exactly the four windows of BOS BOS BOS a b c EOS, once each. */
  lemma Counts3(a: string, b: string, c: string, q: seq<string>)
    requires Ordinary(a) && Ordinary(b) && Ordinary(c)
    ensures Count(TrainedOn3(a, b, c), q) ==
      if q in {[BOS, BOS, BOS, a], [BOS, BOS, a, b], [BOS, a, b, c], [a, b, c, EOS]} then 1 else 0
  {
    WindowSum3(a, b, c, q);
    var w0, w1, w2, w3 := [BOS, BOS, BOS, a], [BOS, BOS, a, b], [BOS, a, b, c], [a, b, c, EOS];
    assert w0[2] != w1[2] && w0[1] != w2[1] && w0[0] != w3[0];
    assert w1[1] != w2[1] && w1[0] != w3[0] && w2[0] != w3[0];
  }

  /** In the trie trained on a b c, the state `state` has the single continuation `x`. */
  lemma Continuation3(a: string, b: string, c: string, state: seq<string>, x: string)
    requires Ordinary(a) && Ordinary(b) && Ordinary(c)
    requires || (state == [BOS, BOS, BOS] && x == a) || (state == [BOS, BOS, a] && x == b)
             || (state == [BOS, a, b] && x == c) || (state == [a, b, c] && x == EOS)
    ensures HasPath(TrainedOn3(a, b, c), state)
    ensures forall y :: Count(TrainedOn3(a, b, c), state + [y]) >= 1 <==> y == x
  {
    var root := TrainedOn3(a, b, c);
    var s0, s1, s2, s3 := [BOS, BOS, BOS], [BOS, BOS, a], [BOS, a, b], [a, b, c];
    assert s0[2] != s1[2] && s0[1] != s2[1] && s0[0] != s3[0];
    assert s1[1] != s2[1] && s1[0] != s3[0] && s2[0] != s3[0];
    forall y ensures Count(root, state + [y]) >= 1 <==> y == x {
      var q := state + [y];
      Counts3(a, b, c, q);
      assert q[..3] == state && q[3] == y;
      assert s0 + [a] == [BOS, BOS, BOS, a] && s1 + [b] == [BOS, BOS, a, b];
      assert s2 + [c] == [BOS, a, b, c] && s3 + [EOS] == [a, b, c, EOS];
      assert (s0 + [a])[..3] == s0 && (s1 + [b])[..3] == s1 && (s2 + [c])[..3] == s2 && (s3 + [EOS])[..3] == s3;
    }
    Counts3(a, b, c, state + [x]);
    CountedPathExists(root, state + [x]);
    HasPathPrefix(root, state, [x]);
  }

  /** A chain trained on a single sentence of three tokens generates exactly that sentence
      back. Four draws suffice: each of the four states reached has one candidate. */
  lemma SingleSentenceRegenerated(a: string, b: string, c: string, draws: seq<nat>,
                                  order: set<string> -> seq<string>)
    requires Ordinary(a) && Ordinary(b) && Ordinary(c)
    requires ValidOrder(order) && |draws| >= 4
    ensures Generated(TrainedOn3(a, b, c), 3, draws, order) == (TrainedOn3(a, b, c), Done([a, b, c]))
  {
    var root := TrainedOn3(a, b, c);
    EmptyShape(4);
    AddSourceShape(Empty, 3, [a, b, c]);
    var d1, d2, d3 := draws[1..], draws[2..], draws[3..];
    var b0 := Padding(3);
    assert b0 == [BOS, BOS, BOS] by {
      assert |b0| == 3 && b0[0] == BOS && b0[1] == BOS && b0[2] == BOS;
    }
    var b1, b2, b3 := b0 + [a], b0 + [a, b], b0 + [a, b, c];
    calc {
      Generated(root, 3, draws, order);
      GenerateFrom(root, 3, b0, draws, order);
      { assert b0[|b0| - 3..] == b0; Step3(a, b, c, b0, draws, order, a); }
      GenerateFrom(root, 3, b1, d1, order);
      { assert b1 == [BOS, BOS, BOS, a] && b1 + [b] == b2 && d1[1..] == d2; Step3(a, b, c, b1, d1, order, b); }
      GenerateFrom(root, 3, b2, d2, order);
      { assert b2 == [BOS, BOS, BOS, a, b] && b2 + [c] == b3 && d2[1..] == d3; Step3(a, b, c, b2, d2, order, c); }
      GenerateFrom(root, 3, b3, d3, order);
      { assert b3 == [BOS, BOS, BOS, a, b, c]; Step3(a, b, c, b3, d3, order, EOS); }
      (root, Done(b3[3..]));
      { assert b3[3..] == [a, b, c]; }
      (root, Done([a, b, c]));
    }
  }

  /** One step of the walk of SingleSentenceRegenerated. */
  lemma Step3(a: string, b: string, c: string, buf: seq<string>, draws: seq<nat>,
              order: set<string> -> seq<string>, x: string)
    requires Ordinary(a) && Ordinary(b) && Ordinary(c)
    requires ValidOrder(order) && draws != [] && |buf| >= 3 && Shape(TrainedOn3(a, b, c), 4)
    requires var state := buf[|buf| - 3..];
             || (state == [BOS, BOS, BOS] && x == a) || (state == [BOS, BOS, a] && x == b)
             || (state == [BOS, a, b] && x == c) || (state == [a, b, c] && x == EOS)
    ensures GenerateFrom(TrainedOn3(a, b, c), 3, buf, draws, order)
         == if x == EOS then (TrainedOn3(a, b, c), Done(buf[3..]))
            else GenerateFrom(TrainedOn3(a, b, c), 3, buf + [x], draws[1..], order)
  {
    Continuation3(a, b, c, buf[|buf| - 3..], x);
    StepWithSingleContinuation(TrainedOn3(a, b, c), 3, buf, draws, order, x);
  }

  /** Training on a b c and then on a b z adds up the counters of the two sentences. */
  lemma TrainedTwice(a: string, b: string, c: string, z: string, q: seq<string>)
    requires Ordinary(a) && Ordinary(b) && Ordinary(z)
    ensures Count(Trained(TrainedOn3(a, b, c), 3, [a, b, z]), q) == Count(TrainedOn3(a, b, c), q) + Count(TrainedOn3(a, b, z), q)
  {
    NonEmptyKeepsAll([a, b, z]);
    AddSourceCount(TrainedOn3(a, b, c), 3, [a, b, z], q);
    AddSourceCount(Empty, 3, [a, b, z], q);
    LookupEmpty(q);
  }

  /** After a b c and a b z, the state BOS a b has the two candidates c and z, each counted
      once, while the windows the two sentences share are counted twice. */
  lemma BranchingAfterTwoSources(a: string, b: string, c: string, z: string, y: string)
    requires Ordinary(a) && Ordinary(b) && Ordinary(c) && Ordinary(z) && c != z
    ensures Count(Trained(TrainedOn3(a, b, c), 3, [a, b, z]), [BOS, a, b, y]) == if y == c || y == z then 1 else 0
    ensures Count(Trained(TrainedOn3(a, b, c), 3, [a, b, z]), [BOS, BOS, BOS, a]) == 2
    ensures Count(Trained(TrainedOn3(a, b, c), 3, [a, b, z]), [BOS, BOS, a, b]) == 2
  {
    var both := Trained(TrainedOn3(a, b, c), 3, [a, b, z]);
    var fork, first, second := [BOS, a, b, y], [BOS, BOS, BOS, a], [BOS, BOS, a, b];
    assert Count(both, fork) == if y == c || y == z then 1 else 0 by {
      TrainedTwice(a, b, c, z, fork);
      Counts3(a, b, c, fork);
      Counts3(a, b, z, fork);
      assert fork[1] != first[1] && fork[1] != second[1] && fork[0] != [a, b, c, EOS][0];
      assert fork[3] == y && [BOS, a, b, c][3] == c && [BOS, a, b, z][3] == z;
    }
    assert Count(both, first) == 2 by {
      TrainedTwice(a, b, c, z, first);
      Counts3(a, b, c, first);
      Counts3(a, b, z, first);
    }
    assert Count(both, second) == 2 by {
      TrainedTwice(a, b, c, z, second);
      Counts3(a, b, c, second);
      Counts3(a, b, z, second);
    }
  }

  /** The trie of a chain of state size 1 trained on a a b, in which the state a repeats. */
  function TrainedOnRepeat(a: string, b: string): Node
  {
    Trained(Empty, 1, [a, a, b])
  }

  /** The windows of state size 1 in a run of five tokens, spelled out. */
  lemma MatchesOfFive(run: seq<string>, q: seq<string>)
    requires |run| == 5
    ensures Matches(run, 1, 4, q) ==
      (if run[0..2] == q then 1 else 0) + (if run[1..3] == q then 1 else 0)
      + (if run[2..4] == q then 1 else 0) + (if run[3..5] == q then 1 else 0)
  {
    assert Matches(run, 1, 1, q) == (if run[0..2] == q then 1 else 0);
    assert Matches(run, 1, 2, q) == Matches(run, 1, 1, q) + (if run[1..3] == q then 1 else 0);
    assert Matches(run, 1, 3, q) == Matches(run, 1, 2, q) + (if run[2..4] == q then 1 else 0);
  }

  /** Its counters: one per window of BOS a a b EOS. */
  lemma RepeatCounts(a: string, b: string, q: seq<string>)
    requires Ordinary(a) && Ordinary(b)
    ensures Count(TrainedOnRepeat(a, b), q) ==
      (if [BOS, a] == q then 1 else 0) + (if [a, a] == q then 1 else 0)
      + (if [a, b] == q then 1 else 0) + (if [b, EOS] == q then 1 else 0)
  {
    RepeatRun(a, b);
    AddSourceCount(Empty, 1, [a, a, b], q);
    LookupEmpty(q);
    MatchesOfFive([BOS, a, a, b, EOS], q);
    assert [BOS, a, a, b, EOS][0..2] == [BOS, a] && [BOS, a, a, b, EOS][1..3] == [a, a];
    assert [BOS, a, a, b, EOS][2..4] == [a, b] && [BOS, a, a, b, EOS][3..5] == [b, EOS];
  }

  /** The padded run of a a b: BOS a a b EOS, all of it kept. */
  lemma RepeatRun(a: string, b: string)
    requires Ordinary(a) && Ordinary(b)
    ensures NonEmpty([a, a, b]) == [a, a, b]
    ensures PaddedRun(1, [a, a, b]) == [BOS, a, a, b, EOS]
  {
    NonEmptyKeepsAll([a, a, b]);
    assert Padding(1) == [BOS] by {
      assert |Padding(1)| == 1 && Padding(1)[0] == BOS;
    }
  }

  /** What the walk over that trie needs: BOS is followed only by a, a by a and by b, each
      counted once, and b only by EOS. */
  lemma RepeatFacts(a: string, b: string)
    requires Ordinary(a) && Ordinary(b) && a != b
    ensures Shape(TrainedOnRepeat(a, b), 2)
    ensures HasPath(TrainedOnRepeat(a, b), [BOS]) && HasPath(TrainedOnRepeat(a, b), [a])
    ensures HasPath(TrainedOnRepeat(a, b), [b])
    ensures forall z :: Count(TrainedOnRepeat(a, b), [BOS] + [z]) >= 1 <==> z == a
    ensures forall z :: Count(TrainedOnRepeat(a, b), [a] + [z]) >= 1 <==> z == a || z == b
    ensures Count(TrainedOnRepeat(a, b), [a] + [a]) == 1 && Count(TrainedOnRepeat(a, b), [a] + [b]) == 1
    ensures forall z :: Count(TrainedOnRepeat(a, b), [b] + [z]) >= 1 <==> z == EOS
  {
    var root := TrainedOnRepeat(a, b);
    EmptyShape(2);
    AddSourceShape(Empty, 1, [a, a, b]);
    RepeatFollowers(a, b);
    RepeatCounts(a, b, [BOS, a]);
    RepeatCounts(a, b, [b, EOS]);
    CountedPathExists(root, [BOS] + [a]);
    HasPathPrefix(root, [BOS], [a]);
    CountedPathExists(root, [a] + [a]);
    HasPathPrefix(root, [a], [a]);
    CountedPathExists(root, [b] + [EOS]);
    HasPathPrefix(root, [b], [EOS]);
  }

  /** The counted followers of BOS, a and b in that trie. */
  lemma RepeatFollowers(a: string, b: string)
    requires Ordinary(a) && Ordinary(b) && a != b
    ensures forall z :: Count(TrainedOnRepeat(a, b), [BOS] + [z]) >= 1 <==> z == a
    ensures forall z :: Count(TrainedOnRepeat(a, b), [a] + [z]) >= 1 <==> z == a || z == b
    ensures Count(TrainedOnRepeat(a, b), [a] + [a]) == 1 && Count(TrainedOnRepeat(a, b), [a] + [b]) == 1
    ensures forall z :: Count(TrainedOnRepeat(a, b), [b] + [z]) >= 1 <==> z == EOS
  {
    var root := TrainedOnRepeat(a, b);
    forall z ensures Count(root, [BOS] + [z]) >= 1 <==> z == a {
      RepeatCounts(a, b, [BOS, z]);
    }
    forall z ensures Count(root, [a] + [z]) >= 1 <==> z == a || z == b {
      RepeatCounts(a, b, [a, z]);
    }
    forall z ensures Count(root, [b] + [z]) >= 1 <==> z == EOS {
      RepeatCounts(a, b, [b, z]);
    }
    RepeatCounts(a, b, [a, a]);
    RepeatCounts(a, b, [a, b]);
  }

  /** A chain trained on a single sentence does not always give that sentence back. Trained
      with state size 1 on a a b, the state a is followed once by a and once by b. When the
      map lists b before a at that state, b is elected right after the first a, whatever
      the draws, and Generate returns a b. */
  lemma RepeatedStateShortcut(a: string, b: string, draws: seq<nat>, order: set<string> -> seq<string>)
    requires Ordinary(a) && Ordinary(b) && a != b && ValidOrder(order)
    requires order({a, b})[0] == b && |draws| >= 3
    ensures Generated(TrainedOnRepeat(a, b), 1, draws, order) == (TrainedOnRepeat(a, b), Done([a, b]))
  {
    var root := TrainedOnRepeat(a, b);
    var b0 := Padding(1);
    assert b0 == [BOS] by {
      assert |b0| == 1 && b0[0] == BOS;
    }
    RepeatFirstStep(a, b, draws, order);
    RepeatSecondStep(a, b, draws[1..], order);
    assert draws[1..][1..] == draws[2..];
    RepeatLastStep(a, b, draws[2..], order);
  }

  /** The first step of that walk: after BOS only a was counted, so a is elected. */
  lemma RepeatFirstStep(a: string, b: string, draws: seq<nat>, order: set<string> -> seq<string>)
    requires Ordinary(a) && Ordinary(b) && a != b && ValidOrder(order) && draws != []
    ensures GenerateFrom(TrainedOnRepeat(a, b), 1, [BOS], draws, order)
         == GenerateFrom(TrainedOnRepeat(a, b), 1, [BOS, a], draws[1..], order)
  {
    RepeatFacts(a, b);
    assert StateOf(1, [BOS]) == [BOS];
    StepWithSingleContinuation(TrainedOnRepeat(a, b), 1, [BOS], draws, order, a);
    assert [BOS] + [a] == [BOS, a];
  }

  /** The second step: from the state a, the first of a and b in the map's order, here b. */
  lemma RepeatSecondStep(a: string, b: string, draws: seq<nat>, order: set<string> -> seq<string>)
    requires Ordinary(a) && Ordinary(b) && a != b && ValidOrder(order) && draws != []
    requires order({a, b})[0] == b
    ensures GenerateFrom(TrainedOnRepeat(a, b), 1, [BOS, a], draws, order)
         == GenerateFrom(TrainedOnRepeat(a, b), 1, [BOS, a, b], draws[1..], order)
  {
    RepeatFacts(a, b);
    assert StateOf(1, [BOS, a]) == [a];
    StepWithTwoOnes(TrainedOnRepeat(a, b), 1, [BOS, a], draws, order, a, b);
    assert [BOS, a] + [b] == [BOS, a, b];
  }

  /** The last step: after b only EOS was counted, so the walk ends with a b. */
  lemma RepeatLastStep(a: string, b: string, draws: seq<nat>, order: set<string> -> seq<string>)
    requires Ordinary(a) && Ordinary(b) && a != b && ValidOrder(order) && draws != []
    ensures GenerateFrom(TrainedOnRepeat(a, b), 1, [BOS, a, b], draws, order)
         == (TrainedOnRepeat(a, b), Done([a, b]))
  {
    RepeatFacts(a, b);
    assert StateOf(1, [BOS, a, b]) == [b];
    StepWithSingleContinuation(TrainedOnRepeat(a, b), 1, [BOS, a, b], draws, order, EOS);
    assert [BOS, a, b][1..] == [a, b];
  }

  /** The trie of a chain of state size 1 trained on x followed by a token that is the end
      marker itself. */
  function TrainedWithEos(x: string): Node
  {
    Trained(Empty, 1, [x, EOS])
  }

  /** The windows of state size 1 in a run of four tokens, spelled out. */
  lemma MatchesOfFour(run: seq<string>, q: seq<string>)
    requires |run| == 4
    ensures Matches(run, 1, 3, q) ==
      (if run[0..2] == q then 1 else 0) + (if run[1..3] == q then 1 else 0) + (if run[2..4] == q then 1 else 0)
  {
    assert Matches(run, 1, 1, q) == (if run[0..2] == q then 1 else 0);
    assert Matches(run, 1, 2, q) == Matches(run, 1, 1, q) + (if run[1..3] == q then 1 else 0);
  }

  /** Its counters: one per window of BOS x EOS EOS. */
  lemma EosCounts(x: string, q: seq<string>)
    requires Ordinary(x)
    ensures Count(TrainedWithEos(x), q) ==
      (if [BOS, x] == q then 1 else 0) + (if [x, EOS] == q then 1 else 0) + (if [EOS, EOS] == q then 1 else 0)
  {
    NonEmptyKeepsAll([x, EOS]);
    var run := PaddedRun(1, [x, EOS]);
    assert Padding(1) == [BOS] by {
      assert |Padding(1)| == 1 && Padding(1)[0] == BOS;
    }
    assert run == [BOS, x, EOS, EOS];
    AddSourceCount(Empty, 1, [x, EOS], q);
    LookupEmpty(q);
    MatchesOfFour(run, q);
    assert run[0..2] == [BOS, x] && run[1..3] == [x, EOS] && run[2..4] == [EOS, EOS];
  }

  /** What the walk over that trie needs: BOS is followed only by x, and x only by EOS. */
  lemma EosFacts(x: string)
    requires Ordinary(x)
    ensures Shape(TrainedWithEos(x), 2)
    ensures HasPath(TrainedWithEos(x), [BOS]) && HasPath(TrainedWithEos(x), [x])
    ensures forall z :: Count(TrainedWithEos(x), [BOS] + [z]) >= 1 <==> z == x
    ensures forall z :: Count(TrainedWithEos(x), [x] + [z]) >= 1 <==> z == EOS
  {
    var root := TrainedWithEos(x);
    EmptyShape(2);
    AddSourceShape(Empty, 1, [x, EOS]);
    forall z ensures Count(root, [BOS] + [z]) >= 1 <==> z == x {
      EosCounts(x, [BOS, z]);
    }
    forall z ensures Count(root, [x] + [z]) >= 1 <==> z == EOS {
      EosCounts(x, [x, z]);
    }
    CountedPathExists(root, [BOS] + [x]);
    HasPathPrefix(root, [BOS], [x]);
    CountedPathExists(root, [x] + [EOS]);
    HasPathPrefix(root, [x], [EOS]);
  }

  /** A source that holds the end marker as a token is not generated back either, although
      no state of its run repeats: Generate stops at the first EOS it elects, so training on
      x EOS gives back only x. */
  lemma EosTokenNotRegenerated(x: string, draws: seq<nat>, order: set<string> -> seq<string>)
    requires Ordinary(x) && ValidOrder(order) && |draws| >= 2
    ensures Generated(TrainedWithEos(x), 1, draws, order) == (TrainedWithEos(x), Done([x]))
  {
    var root := TrainedWithEos(x);
    EosFacts(x);
    assert Padding(1) == [BOS] by {
      assert |Padding(1)| == 1 && Padding(1)[0] == BOS;
    }
    assert StateOf(1, [BOS]) == [BOS];
    StepWithSingleContinuation(root, 1, [BOS], draws, order, x);
    assert [BOS] + [x] == [BOS, x];
    assert StateOf(1, [BOS, x]) == [x];
    StepWithSingleContinuation(root, 1, [BOS, x], draws[1..], order, EOS);
    assert [BOS, x][1..] == [x];
  }

  /** A fresh chain generates nothing: the result is empty. */
  method FreshChainGeneratesNothing(stateSize: nat, draws: seq<nat>, order: set<string> -> seq<string>)
    returns (result: Outcome)
    requires ValidOrder(order)
    ensures result == NoData
  {
    var chain := new Chain(stateSize);
    GenerateOnFreshChain(stateSize, draws, order);
    result := chain.Generate(draws, order);
  }

  /** NewChain(3), AddSource(A B C), Generate: the sentence comes back. */
  method SingleSentenceScenario(draws: seq<nat>, order: set<string> -> seq<string>) returns (result: Outcome)
    requires ValidOrder(order) && |draws| >= 4
    ensures result == Done(["A", "B", "C"])
  {
    var chain := new Chain(3);
    chain.AddSource(["A", "B", "C"]);
    SingleSentenceRegenerated("A", "B", "C", draws, order);
    result := chain.Generate(draws, order);
  }

  /** NewChain(3), AddSource(A B C), AddSource(A B Z), Dump, LoadChain: the loaded chain
      equals the original one. */
  method DumpAndLoadScenario() returns (original: ChainState, restored: Result<Chain>)
    ensures original == ChainState(3, Trained(TrainedOn3("A", "B", "C"), 3, ["A", "B", "Z"]))
    ensures restored.Ok? && restored.value.State() == original
  {
    var chain := new Chain(3);
    chain.AddSource(["A", "B", "C"]);
    chain.AddSource(["A", "B", "Z"]);
    var doc := chain.Dump();
    restored := LoadChain(doc);
    original := chain.State();
  }

  /** A source with only empty tokens, such as ["", ""], leaves the chain unchanged. */
  method BlankSourceScenario(stateSize: nat) returns (before: ChainState, after: ChainState)
    ensures before == ChainState(stateSize, Empty) && after == before
  {
    var chain := new Chain(stateSize);
    before := chain.State();
    AddSourceSkipsBlank(Empty, stateSize, ["", ""]);
    chain.AddSource(["", ""]);
    after := chain.State();
  }
}
