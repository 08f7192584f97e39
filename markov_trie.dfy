/** The token trie of the n-gram chain (markov/chain.go): every node keeps its children
    keyed by token and the number of times it was reached as the token that followed
    the state spelled by the path above it. The trie is an immutable value here; the
    source's in-place updates through `*chainNode` pointers become functions that
    return the updated trie. */
module MarkovTrie {

  /** Padding placed before a run and the token that ends it. */
  const BOS: string := "__BOS__"
  const EOS: string := "__EOS__"

  datatype Node = Node(children: map<string, Node>, occurrences: int)

  /** A node as `newChainNode` allocates it. */
  const Empty: Node := Node(map[], 0)

  /** The child under `key`, or a new empty node when there is none. */
  function Child(n: Node, key: string): Node
  {
    if key in n.children then n.children[key] else Empty
  }

  /** The node reached from `n` along `path`; an empty node once the path leaves the trie. */
  function Lookup(n: Node, path: seq<string>): Node
    decreases |path|
  {
    if path == [] then n else Lookup(Child(n, path[0]), path[1..])
  }

  /** Whether every step of `path` is an existing edge below `n`. */
  predicate HasPath(n: Node, path: seq<string>)
    decreases |path|
  {
    path == [] || (path[0] in n.children && HasPath(n.children[path[0]], path[1..]))
  }

  /** The counter of the node at `path`, 0 where the path does not exist. */
  function Count(n: Node, path: seq<string>): int
  {
    Lookup(n, path).occurrences
  }

  /** findOrAddTailNode: the trie after walking `path` and creating every missing node. */
  function EnsurePath(n: Node, path: seq<string>): Node
    decreases |path|
  {
    if path == [] then n
    else n.(children := n.children[path[0] := EnsurePath(Child(n, path[0]), path[1..])])
  }

  /** The trie with the node at `path` replaced by `t`; this is how an update made through
      the pointer that findOrAddTailNode returned shows up in the whole trie. */
  function Graft(n: Node, path: seq<string>, t: Node): Node
    decreases |path|
  {
    if path == [] then t
    else n.(children := n.children[path[0] := Graft(Child(n, path[0]), path[1..], t)])
  }

  /** One window of AddSource: find or add the tail node of `state`, find or add its child
      `next`, and increment that child's counter. */
  function AddWindow(n: Node, state: seq<string>, next: string): Node
  {
    var m := EnsurePath(n, state);
    var tail := Lookup(m, state);
    var follow := Child(tail, next);
    Graft(m, state, tail.(children := tail.children[next := follow.(occurrences := follow.occurrences + 1)]))
  }

  /** `k` copies of BOS. */
  function Padding(k: nat): (p: seq<string>)
    ensures |p| == k
  {
    seq(k, _ => BOS)
  }

  /** The tokens of `source` that are not the empty string, in their order. */
  function NonEmpty(source: seq<string>): seq<string>
    decreases |source|
  {
    if source == [] then []
    else (if source[0] == "" then [] else [source[0]]) + NonEmpty(source[1..])
  }

  /** makeRun: the padded run that AddSource slides its window over. */
  function PaddedRun(stateSize: nat, source: seq<string>): seq<string>
  {
    Padding(stateSize) + NonEmpty(source) + [EOS]
  }

  /** The trie after the first `k` windows of `run` (windows of `stateSize + 1` tokens). */
  function TrainWindows(n: Node, run: seq<string>, stateSize: nat, k: nat): Node
    requires k + stateSize <= |run|
  {
    if k == 0 then n
    else AddWindow(TrainWindows(n, run, stateSize, k - 1), run[k - 1..k - 1 + stateSize], run[k - 1 + stateSize])
  }

  /** AddSource on the trie `n`: a source without a non-empty token is skipped. */
  function Trained(n: Node, stateSize: nat, source: seq<string>): Node
  {
    var run := PaddedRun(stateSize, source);
    if |run| == stateSize + 1 then n else TrainWindows(n, run, stateSize, |run| - stateSize)
  }

  /** The number of windows among the first `k` of `run` that spell exactly `q`. */
  function Matches(run: seq<string>, stateSize: nat, k: nat, q: seq<string>): nat
    requires k + stateSize <= |run|
  {
    if k == 0 then 0
    else Matches(run, stateSize, k - 1, q) + (if run[k - 1..k + stateSize] == q then 1 else 0)
  }

  /** The shape training gives a trie, `levels` being the number of levels below `n`: only
      the nodes at the last level carry counts, each at least 1, and they have no children.
      For a root, `levels` is the state size plus one. */
  predicate Shape(n: Node, levels: nat)
  {
    if levels == 0 then n.children == map[] && n.occurrences >= 1
    else n.occurrences == 0 && forall key | key in n.children :: Shape(n.children[key], levels - 1)
  }

  // ---------------------------------------------------------------------------------
  // Lookups

  lemma {:induction false} LookupEmpty(path: seq<string>)
    ensures Lookup(Empty, path) == Empty
    decreases |path|
  {
    if path != [] {
      LookupEmpty(path[1..]);
    }
  }

  /** Looking up a concatenated path is looking up its halves in turn. */
  lemma {:induction false} LookupAppend(n: Node, p: seq<string>, q: seq<string>)
    ensures Lookup(n, p + q) == Lookup(Lookup(n, p), q)
    decreases |p|
  {
    if p != [] {
      assert (p + q)[1..] == p[1..] + q;
      LookupAppend(Child(n, p[0]), p[1..], q);
    } else {
      assert p + q == q;
    }
  }

  /** A path whose counter is not 0 exists. */
  lemma {:induction false} CountedPathExists(n: Node, path: seq<string>)
    requires Count(n, path) != 0
    ensures HasPath(n, path)
    decreases |path|
  {
    if path != [] {
      if path[0] !in n.children {
        LookupEmpty(path[1..]);
      } else {
        CountedPathExists(n.children[path[0]], path[1..]);
      }
    }
  }

  /** Every prefix of an existing path exists. */
  lemma {:induction false} HasPathPrefix(n: Node, p: seq<string>, q: seq<string>)
    requires HasPath(n, p + q)
    ensures HasPath(n, p)
    decreases |p|
  {
    if p != [] {
      assert (p + q)[1..] == p[1..] + q;
      HasPathPrefix(n.children[p[0]], p[1..], q);
    }
  }

  /** In a trie of trained shape, the children of the node at a state are exactly the
      tokens counted after that state. */
  lemma ChildrenAreCounted(root: Node, state: seq<string>, y: string)
    requires Shape(root, |state| + 1)
    ensures y in Lookup(root, state).children <==> Count(root, state + [y]) >= 1
  {
    LookupShape(root, |state| + 1, state);
    LookupAppend(root, state, [y]);
  }

  // ---------------------------------------------------------------------------------
  // findOrAddTailNode

  /** findOrAddTailNode changes no counter anywhere in the trie. */
  lemma {:induction false} EnsurePathCount(n: Node, p: seq<string>, q: seq<string>)
    ensures Count(EnsurePath(n, p), q) == Count(n, q)
    decreases |p|
  {
    if p != [] && q != [] {
      if q[0] == p[0] {
        EnsurePathCount(Child(n, p[0]), p[1..], q[1..]);
      }
    }
  }

  /** After findOrAddTailNode the paths are the old ones plus the prefixes of `p`. */
  lemma {:induction false} EnsurePathPaths(n: Node, p: seq<string>, q: seq<string>)
    ensures HasPath(EnsurePath(n, p), q) <==> HasPath(n, q) || q <= p
    decreases |p|
  {
    if p != [] && q != [] {
      if q[0] == p[0] {
        EnsurePathPaths(Child(n, p[0]), p[1..], q[1..]);
        if q[0] !in n.children {
          EmptyHasNoPath(q[1..]);
        }
      }
    }
  }

  lemma {:induction false} EmptyHasNoPath(q: seq<string>)
    ensures HasPath(Empty, q) <==> q == []
  {
  }

  /** The tail node findOrAddTailNode returns is the one that was there, or a fresh empty node. */
  lemma {:induction false} EnsurePathTail(n: Node, p: seq<string>)
    ensures Lookup(EnsurePath(n, p), p) == Lookup(n, p)
    decreases |p|
  {
    if p != [] {
      EnsurePathTail(Child(n, p[0]), p[1..]);
    }
  }

  /** On a path that already exists findOrAddTailNode changes nothing. */
  lemma {:induction false} EnsurePathExisting(n: Node, p: seq<string>)
    requires HasPath(n, p)
    ensures EnsurePath(n, p) == n
    decreases |p|
  {
    if p != [] {
      EnsurePathExisting(n.children[p[0]], p[1..]);
    }
  }

  /** Nodes findOrAddTailNode creates above the last level keep a trained trie's shape. */
  lemma {:induction false} EnsurePathShape(n: Node, levels: nat, p: seq<string>)
    requires Shape(n, levels) || (n == Empty && levels > 0)
    requires |p| < levels
    ensures Shape(EnsurePath(n, p), levels)
    decreases |p|
  {
    if p != [] {
      EnsurePathShape(Child(n, p[0]), levels - 1, p[1..]);
    }
  }

  // ---------------------------------------------------------------------------------
  // Grafting and one AddSource window

  /** Replacing the node at `p` changes the counters at and below `p` only. */
  lemma {:induction false} GraftCount(n: Node, p: seq<string>, t: Node, q: seq<string>)
    ensures Count(Graft(n, p, t), q) == if p <= q then Count(t, q[|p|..]) else Count(n, q)
    decreases |p|
  {
    if p != [] && q != [] && q[0] == p[0] {
      GraftCount(Child(n, p[0]), p[1..], t, q[1..]);
      assert (p <= q) == (p[1..] <= q[1..]);
    }
  }

  lemma {:induction false} GraftShape(n: Node, levels: nat, p: seq<string>, t: Node)
    requires Shape(n, levels) || n == Empty
    requires |p| <= levels && Shape(t, levels - |p|)
    ensures Shape(Graft(n, p, t), levels)
    decreases |p|
  {
    if p != [] {
      GraftShape(Child(n, p[0]), levels - 1, p[1..], t);
    }
  }

  lemma {:induction false} LookupShape(n: Node, levels: nat, p: seq<string>)
    requires Shape(n, levels) && |p| < levels
    ensures Shape(Lookup(n, p), levels - |p|)
    decreases |p|
  {
    if p != [] {
      if p[0] in n.children {
        LookupShape(n.children[p[0]], levels - 1, p[1..]);
      } else {
        LookupEmpty(p[1..]);
      }
    }
  }

  /** Training on one more window of the run applies AddWindow to that window. */
  lemma TrainWindowsNext(n: Node, run: seq<string>, stateSize: nat, i: nat)
    requires i + stateSize < |run|
    ensures TrainWindows(n, run, stateSize, i + 1)
         == AddWindow(TrainWindows(n, run, stateSize, i), run[i..i + stateSize], run[i + stateSize])
  {
  }

  /** One window adds exactly 1 to the counter at `state + [next]` and changes no other. */
  lemma AddWindowCount(n: Node, state: seq<string>, next: string, q: seq<string>)
    ensures Count(AddWindow(n, state, next), q) == Count(n, q) + if q == state + [next] then 1 else 0
  {
    var m := EnsurePath(n, state);
    var tail := Lookup(m, state);
    var follow := Child(tail, next);
    var t := tail.(children := tail.children[next := follow.(occurrences := follow.occurrences + 1)]);
    EnsurePathTail(n, state);
    GraftCount(m, state, t, q);
    EnsurePathCount(n, state, q);
    if state <= q {
      var r := q[|state|..];
      assert q == state + r;
      LookupAppend(n, state, r);
      if r != [] && r[0] == next {
        var r' := r[1..];
        assert Count(t, r) == Lookup(follow.(occurrences := follow.occurrences + 1), r').occurrences;
        assert Count(n, q) == Lookup(follow, r').occurrences;
        if r' != [] {
          assert Lookup(follow.(occurrences := follow.occurrences + 1), r') == Lookup(follow, r');
        }
      }
    }
  }

  /** One window of a trained trie keeps its shape when the window is `levels` tokens long. */
  lemma AddWindowShape(n: Node, levels: nat, state: seq<string>, next: string)
    requires Shape(n, levels) && |state| + 1 == levels
    ensures Shape(AddWindow(n, state, next), levels)
  {
    var m := EnsurePath(n, state);
    EnsurePathShape(n, levels, state);
    LookupShape(m, levels, state);
    var tail := Lookup(m, state);
    var follow := Child(tail, next);
    var t := tail.(children := tail.children[next := follow.(occurrences := follow.occurrences + 1)]);
    assert Shape(t, 1);
    GraftShape(m, levels, state, t);
  }

  // ---------------------------------------------------------------------------------
  // makeRun

  lemma {:induction false} NonEmptyAppend(a: seq<string>, b: seq<string>)
    ensures NonEmpty(a + b) == NonEmpty(a) + NonEmpty(b)
    decreases |a|
  {
    if a != [] {
      assert (a + b)[1..] == a[1..] + b;
      NonEmptyAppend(a[1..], b);
    } else {
      assert a + b == b;
    }
  }

  /** The kept tokens are tokens of the source and none is empty. */
  lemma {:induction false} NonEmptyTokens(source: seq<string>)
    ensures forall t | t in NonEmpty(source) :: t in source && t != ""
    decreases |source|
  {
    if source != [] {
      NonEmptyTokens(source[1..]);
    }
  }

  /** A source without empty tokens is kept whole. */
  lemma {:induction false} NonEmptyKeepsAll(source: seq<string>)
    requires forall i | 0 <= i < |source| :: source[i] != ""
    ensures NonEmpty(source) == source
    decreases |source|
  {
    if source != [] {
      NonEmptyKeepsAll(source[1..]);
    }
  }

  // ---------------------------------------------------------------------------------
  // AddSource

  /** After the first `k` windows, every counter has grown by the number of those windows
      that spell its path. */
  lemma {:induction false} TrainWindowsCount(n: Node, run: seq<string>, stateSize: nat, k: nat, q: seq<string>)
    requires k + stateSize <= |run|
    ensures Count(TrainWindows(n, run, stateSize, k), q) == Count(n, q) + Matches(run, stateSize, k, q)
  {
    if k > 0 {
      TrainWindowsCount(n, run, stateSize, k - 1, q);
      var state, next := run[k - 1..k - 1 + stateSize], run[k - 1 + stateSize];
      AddWindowCount(TrainWindows(n, run, stateSize, k - 1), state, next, q);
      assert state + [next] == run[k - 1..k + stateSize];
    }
  }

  lemma {:induction false} TrainWindowsShape(n: Node, run: seq<string>, stateSize: nat, k: nat)
    requires k + stateSize <= |run| && Shape(n, stateSize + 1)
    ensures Shape(TrainWindows(n, run, stateSize, k), stateSize + 1)
  {
    if k > 0 {
      TrainWindowsShape(n, run, stateSize, k - 1);
      AddWindowShape(TrainWindows(n, run, stateSize, k - 1), stateSize + 1,
                     run[k - 1..k - 1 + stateSize], run[k - 1 + stateSize]);
    }
  }

  /** AddSource: the counter at every path grows by the number of windows of the padded run
      that spell it (no counter decreases); a source with no non-empty token changes nothing. */
  lemma AddSourceCount(n: Node, stateSize: nat, source: seq<string>, q: seq<string>)
    ensures var run := PaddedRun(stateSize, source);
      Count(Trained(n, stateSize, source), q)
        == Count(n, q) + if NonEmpty(source) == [] then 0 else Matches(run, stateSize, |run| - stateSize, q)
  {
    var run := PaddedRun(stateSize, source);
    if NonEmpty(source) != [] {
      TrainWindowsCount(n, run, stateSize, |run| - stateSize, q);
    }
  }

  /** A source made only of empty tokens, such as ["", ""], leaves the trie as it was. */
  lemma AddSourceSkipsBlank(n: Node, stateSize: nat, source: seq<string>)
    requires forall i | 0 <= i < |source| :: source[i] == ""
    ensures Trained(n, stateSize, source) == n
  {
    NonEmptyOfBlank(source);
  }

  lemma {:induction false} NonEmptyOfBlank(source: seq<string>)
    requires forall i | 0 <= i < |source| :: source[i] == ""
    ensures NonEmpty(source) == []
    decreases |source|
  {
    if source != [] {
      NonEmptyOfBlank(source[1..]);
    }
  }

  /** Training keeps the trie's shape: depth at most the state size plus one, and a count
      of at least 1 at every node of the last level. */
  lemma AddSourceShape(n: Node, stateSize: nat, source: seq<string>)
    requires Shape(n, stateSize + 1)
    ensures Shape(Trained(n, stateSize, source), stateSize + 1)
  {
    var run := PaddedRun(stateSize, source);
    if |run| != stateSize + 1 {
      TrainWindowsShape(n, run, stateSize, |run| - stateSize);
    }
  }

  /** A fresh chain's root has the shape of a trained trie for every state size. */
  lemma EmptyShape(levels: nat)
    requires levels > 0
    ensures Shape(Empty, levels)
  {
  }
}
