# markov-bot-go in Dafny

This project models the core of markov-bot-go, a bot that learns an n-gram Markov chain from
tokenized sentences and posts sentences generated from it. It covers:

- **The chain** (`markov/chain.go`). `markov_trie.dfy` holds the token trie. `markov_sampling.dfy`
  holds the election of the next token and the walk of `Generate`. `markov_codec.dfy` holds the
  `Dump`/`LoadChain` document. `markov_chain.dfy` holds the `Chain` class and its methods.
  `markov_scenarios.dfy` holds the scenarios of `markov/chain_test.go`, stated for all inputs.
- **The post-processing and the posting loop** (`handler/post.go`), in `post.dfy`.
- **The sentence preprocessor** (`morpheme/preprocessor.go`), in `preprocessor.dfy`.
- **The parser of the tokenizer's output** (`morpheme/mecab.go`, lines 45-62), in `mecab.dfy`.

How the model is built:

- The trie is an immutable value `Node(children, occurrences)`.
- `Chain` is a class with a constant state size and a mutable `root`. Its methods
  reassign `root` and are proved against functions over the trie: `Trained` for `AddSource`,
  `Generated` for `Generate`. The properties are proved as lemmas about those functions.
- An update that the source makes in place through a `*chainNode` pointer is modelled as
  rebuilding the path to that node (`EnsurePath`, `Graft`).
- Go's map iteration order is a parameter `order`. It is any function that lists each key set
  exactly once.
- `rand.Intn` is a sequence of draws: the i-th call returns `draws[i] % n`. Any sequence of
  values the source's generator can return is one such sequence of draws.

Generate elects the first candidate whose running sum is at least the draw. That choice is not
proportional to the counters: `SecondOfTwoNeverElected` shows that with two candidates counted
once each, the second is never elected.

A chain trained on a single sentence does not always generate that sentence back. This fails
when a state repeats inside the sentence. With state size 1 and the source `a a b`, the state
`a` has the two continuations `a` and `b`. When the map lists `b` first there,
`RepeatedStateShortcut` shows that Generate returns `a b`, whatever the draws. It also fails
when the sentence holds the end marker `__EOS__` as a token, even though no state repeats.
Generate stops at the first EOS it elects, so `EosTokenNotRegenerated` shows that training on
`x __EOS__` gives back only `x`. Empty tokens never come back either, because makeRun drops
them. Regeneration is proved only for three tokens that are neither empty nor markers:
`SingleSentenceRegenerated` shows that such a sentence always comes back, whatever the draws
and the map order.

## Model

| member | source | states |
|---|---|---|
| Markov.MakeRun | markov/chain.go:123-136 | the run is `stateSize` BOS tokens, then the non-empty source tokens in order, then one EOS; its length is `stateSize` + the number of non-empty tokens + 1 |
| MarkovTrie.PaddedRun | markov/chain.go:123-136 | defines the run makeRun builds: `stateSize` BOS tokens, the non-empty source tokens, EOS (MakeRun is proved equal to it) |
| MarkovTrie.NonEmptyTokens | markov/chain.go:128-133 | every token kept in the run comes from the source and is not empty |
| MarkovTrie.NonEmptyKeepsAll | markov/chain.go:128-133 | a source without empty tokens is kept whole, in order |
| Markov.Chain.constructor | markov/chain.go:20-25 | a new chain has the given state size and an empty root, which already has the trained shape |
| Markov.Chain.FindOrAddTailNode | markov/chain.go:84-95 | afterwards the path `state` exists; the node returned is the one at that path, or a new empty node; no counter changes and no existing path is lost |
| MarkovTrie.EnsurePath | markov/chain.go:84-95 | defines the trie after findOrAddTailNode: each missing node on the path is added as an empty node; EnsurePathCount, EnsurePathPaths, EnsurePathTail and EnsurePathExisting state its effect |
| MarkovTrie.EnsurePathCount | markov/chain.go:84-95 | making a path changes no counter anywhere in the trie |
| MarkovTrie.EnsurePathPaths | markov/chain.go:84-95 | after making a path, the paths that exist are the old ones plus the prefixes of the new path |
| MarkovTrie.EnsurePathTail | markov/chain.go:84-95 | the node at the end of the made path is the old node there, or a new empty node |
| MarkovTrie.EnsurePathExisting | markov/chain.go:86-92 | walking a path that exists creates nothing |
| Markov.Chain.CountWindow | markov/chain.go:47-56 | one window finds or adds the tail node and its follower node, and raises the follower's counter: the trie becomes `AddWindow` of the old one |
| MarkovTrie.AddWindow | markov/chain.go:47-56 | defines one window of AddSource: find or add the tail and the follower, and add 1 to the follower's counter; AddWindowCount states its effect |
| MarkovTrie.AddWindowCount | markov/chain.go:47-56 | one window adds exactly 1 to the counter at `state + [next]` and changes no other counter |
| Markov.Chain.AddSource | markov/chain.go:37-58 | the new trie is `Trained` of the old one: one window per non-empty token plus one for EOS, and nothing for a source with no non-empty token |
| Markov.Chain.CountWindows | markov/chain.go:46-57 | counting the windows of a run left to right leaves the trie that all of the run's windows build, in order |
| MarkovTrie.Trained | markov/chain.go:37-58 | defines the trie after AddSource: every window of the padded run is counted in order, and a run of length `stateSize + 1` changes nothing; AddSourceCount, AddSourceSkipsBlank and AddSourceShape state its effect |
| MarkovTrie.AddSourceCount | markov/chain.go:46-57 | after AddSource, the counter of each path is its old value plus the number of windows of the run that spell it; so no counter decreases |
| MarkovTrie.AddSourceSkipsBlank | markov/chain.go:39-44 | a source made only of empty tokens, such as `["", ""]`, leaves the trie unchanged |
| MarkovTrie.AddSourceShape | markov/chain.go:46-57 | training keeps the trie's shape: depth `stateSize + 1`, counters only on the last level and each at least 1 |
| MarkovTrie.EnsurePathShape | markov/chain.go:84-95 | making a path no longer than the state size keeps the shape |
| MarkovTrie.ChildrenAreCounted | markov/chain.go:46-57 | in a trained trie, `y` is a child of the tail node of `state` exactly when the window `state + [y]` was counted |
| Markov.AccumulateOccurrences | markov/chain.go:98-108 | the values are the children's keys, each once, in the map's iteration order; the running sums have the same length; with no negative counter they never decrease and end at the total |
| MarkovSampling.EnumerationLength | markov/chain.go:102-106 | an iteration order lists as many keys as the map holds |
| MarkovSampling.PrefixSumsSorted | markov/chain.go:102-106 | running sums of counters that are not negative never decrease, and the last one is the total |
| MarkovSampling.Search | markov/chain.go:74 | sort.Search's binary search over `[lo, hi)`, step by step as Go's library writes it; the result lies in `[lo, hi]` |
| MarkovSampling.SearchInts | markov/chain.go:74 | sort.SearchInts, the search over the whole sequence; the result is at most its length |
| MarkovSampling.SearchIntsIsFirstAtLeast | markov/chain.go:74 | on sorted sums, sort.SearchInts returns the smallest index whose sum is at least the draw |
| MarkovSampling.SearchWithinBounds | markov/chain.go:74 | the binary search stays in range whenever the last sum is at least the draw, sorted or not |
| MarkovSampling.SearchFindsCandidate | markov/chain.go:73-74 | when the draw is below the total, the elected index is a valid index of the candidates |
| MarkovSampling.SecondOfTwoNeverElected | markov/chain.go:73-74 | with two candidates counted once each, every draw elects the first one |
| MarkovSampling.SumOfPositives | markov/chain.go:102-106 | counters that are each at least 1, as every counter of a trained trie is, add up to at least their number, so a node with children has a positive total; GenerateOnTrainedShape uses it to show that rand.Intn gets a positive bound |
| MarkovSampling.GenerateFrom | markov/chain.go:66-80 | defines Generate's loop from a buffer: find or add the tail node, stop with nil on no candidate, panic on a total that is not positive, otherwise elect with `draws[0] % total` and stop on EOS; the lemmas below state what it promises |
| MarkovSampling.Generated | markov/chain.go:61-81 | defines Generate: the loop from `stateSize` BOS tokens |
| Markov.Chain.Generate | markov/chain.go:61-81 | the new trie and the result are `Generated` of the old trie; no counter changes; a finished result holds no EOS; on a trained trie the walk never reaches a total that is not positive |
| MarkovSampling.GenerateKeepsCounts | markov/chain.go:66-79 | the placeholder nodes that Generate adds change no counter |
| MarkovSampling.GenerateKeepsPaths | markov/chain.go:66-79 | Generate removes no path |
| MarkovSampling.GenerateOmitsEos | markov/chain.go:75-80 | the result starts with the tokens already generated and never holds EOS |
| MarkovSampling.GenerateOnTrainedShape | markov/chain.go:67-73 | on a trained trie the walk keeps the shape and never calls rand.Intn with a total that is not positive |
| MarkovSampling.GenerateFollowsObserved | markov/chain.go:66-80 | every window of the padded result (BOS padding, result, EOS) was counted during training |
| MarkovSampling.ElectedWasCounted | markov/chain.go:67-74 | the elected token follows the current state in some counted window |
| MarkovSampling.GenerateOnFreshChain | markov/chain.go:69-72 | a fresh chain generates nothing |
| MarkovSampling.StepWithSingleContinuation | markov/chain.go:67-78 | a state with a single counted continuation elects it, whatever the draw |
| MarkovScenarios.Counts3 | markov/chain_test.go:26-31 | training on a b c counts exactly the four windows of BOS BOS BOS a b c EOS, once each |
| MarkovScenarios.SingleSentenceRegenerated | markov/chain_test.go:26-41 | a chain of state size 3 trained only on a b c generates exactly a b c, for every draw sequence and iteration order |
| MarkovScenarios.Continuation3 | markov/chain_test.go:26-41 | after training on a b c, each state of the padded run has exactly one counted continuation: the next token of the run |
| MarkovScenarios.TrainedTwice | markov/chain_test.go:45-48 | training a b z on top of a b c counts every path as often as the two sentences trained separately |
| MarkovScenarios.BranchingAfterTwoSources | markov/chain_test.go:45-48 | after a b c and a b z, the state BOS a b has the two candidates c and z, and the shared windows are counted twice |
| MarkovScenarios.RepeatCounts | markov/chain.go:37-58 | training with state size 1 on a a b counts exactly the four windows of BOS a a b EOS |
| MarkovScenarios.RepeatedStateShortcut | markov/chain.go:61-81 | a chain of state size 1 trained only on a a b returns a b, for every draw sequence, when the map lists b before a at the state a: a single training sentence is not always generated back |
| MarkovScenarios.EosCounts | markov/chain.go:37-58 | training with state size 1 on x followed by the token `__EOS__` counts exactly the three windows of BOS x EOS EOS |
| MarkovScenarios.EosTokenNotRegenerated | markov/chain.go:61-81 | a chain of state size 1 trained only on x followed by the token `__EOS__` returns just x, for every draw sequence and map order, because the walk stops at the first EOS |
| MarkovScenarios.FreshChainGeneratesNothing | markov/chain_test.go:11-24 | NewChain(n) followed by Generate gives the empty result |
| MarkovScenarios.SingleSentenceScenario | markov/chain_test.go:26-41 | NewChain(3), AddSource(A B C), Generate gives A B C |
| MarkovScenarios.DumpAndLoadScenario | markov/chain_test.go:43-64 | after AddSource(A B C) and AddSource(A B Z), loading the dump gives a chain equal to the original |
| MarkovScenarios.BlankSourceScenario | markov/chain.go:39-44 | AddSource(["", ""]) leaves a chain unchanged |
| MarkovCodec.EncodeNode | markov/chain.go:27-30 | defines the JSON object json.Marshal writes for a node: `children` keyed by token and `occurences` (NodeRoundTrip states that it decodes back) |
| MarkovCodec.EncodeChain | markov/chain.go:15-18 | defines the JSON object of a chain: `state_size` and `root_node` (ChainRoundTrip states that it decodes back) |
| MarkovCodec.DecodeNode | markov/chain.go:114-118 | defines how a node is read: an object, a missing or null counter is 0, a missing or null `children` is no children, and any field of the wrong type is an error |
| MarkovCodec.DecodeChain | markov/chain.go:114-119 | defines how LoadChain reads a document: a wrongly typed field or node is an error, as is a negative state size or a missing root (see Left out) |
| Markov.Chain.Dump | markov/chain.go:110-112 | the dump is the encoding of the chain, and decoding it gives the chain back |
| Markov.Chain.Restore | markov/chain.go:116-119 | the chain filled in from a decoded document has exactly its state size and trie |
| Markov.LoadChain | markov/chain.go:114-120 | a document that decodes gives a new chain equal to the decoded value; otherwise the decoding error is returned |
| MarkovCodec.NodeRoundTrip | markov/chain.go:27-30 | decoding an encoded node gives back the same node, placeholder nodes included |
| MarkovCodec.ChainRoundTrip | markov/chain.go:15-18 | decoding an encoded chain gives back its state size and its whole trie |
| MarkovCodec.MalformedRejected | markov/chain.go:114-118 | a document of the wrong type, or a field of the wrong type, is an error and not a chain |
| MarkovCodec.MalformedBelowRejected | markov/chain.go:114-118 | a node that does not decode, at any depth below a node along its `children` objects, makes that node fail to decode |
| MarkovCodec.MalformedNodeFailsLoad | markov/chain.go:114-118 | a node that does not decode anywhere below `root_node` makes the whole document fail to load |
| MarkovCodec.NestedMalformedRejected | markov/chain.go:114-118 | a direct child whose count is the string `"1"` makes its parent node fail to decode |
| Post.Spaced | handler/post.go:68-86 | defines what postprocessSentence returns: the input with `" "` inserted between two adjacent tokens that both match `^[A-Za-z]+$`; the lemmas below state its properties |
| Post.PostprocessSentence | handler/post.go:68-86 | the result is `Spaced(input)`; empty input gives empty output; a non-empty result starts with `input[0]` |
| Post.SpacedLength | handler/post.go:77-84 | the output is the input plus one element per inserted space |
| Post.SpacedAt | handler/post.go:77-84 | `input[i]` sits at `i` plus the number of spaces inserted before it, so the input keeps its order |
| Post.SpaceAfter | handler/post.go:79-81 | after a word followed by a word comes a `" "` |
| Post.SpacedNext | handler/post.go:77-84 | right after `input[i]` the output holds `" "` when `input[i]` and `input[i+1]` both match `^[A-Za-z]+$`, and `input[i+1]` itself otherwise |
| Post.SpacesRemoved | handler/post.go:73-85 | deleting the inserted `" "` elements gives the input back, in order |
| Post.JoinedWords | handler/post.go:46 | "Hello" and "world" are joined as "Hello world" |
| Post.JoinedPunctuation | handler/post.go:46 | "Hello", "、", "world" are joined without spaces |
| Post.GenerateAndPost | handler/post.go:28-54 | at most 100 generations; the first one with at least `minWordsCount` tokens is post-processed, joined and posted once; the error is the posting error; when no generation qualifies nothing is posted and the error is ErrGenerationFailed |
| Post.EmptyModelScenario | cmd/lambda/main_test.go:41-62 | with the default `minWordsCount` of 1, a model that generates nothing fails after 100 attempts without posting |
| Preprocessor.PreprocessSentence | morpheme/preprocessor.go:8-24 | defines PreprocessSentence: "" for a sentence with a URL, otherwise one replacer pass; UrlDropped, RewriteFollowsTable and the lemmas below state its effect |
| Preprocessor.Rewrite | morpheme/preprocessor.go:12-22 | what the replacer does at one position: the pattern of the table found there, with its length and replacement, or one kept character; at least one character is consumed |
| Preprocessor.Replace | morpheme/preprocessor.go:23 | defines the replacer's single left-to-right pass, which never scans replaced text again |
| Preprocessor.UrlDropped | morpheme/preprocessor.go:9-11 | any sentence containing "http://" or "https://" becomes "" |
| Preprocessor.PatternsPrefixFree | morpheme/preprocessor.go:12-22 | no pattern of the table is a prefix of another, so at most one matches at any position |
| Preprocessor.RewriteFollowsTable | morpheme/preprocessor.go:12-23 | at each position the pattern found there is replaced by its replacement from the table, and a character without a pattern is kept |
| Preprocessor.ReplaceWithoutAmp | morpheme/preprocessor.go:13-17 | without '&', "!" "?" "，" become "！" "？" "、", "．" becomes "。", "。" becomes "。\n", and everything else is kept |
| Preprocessor.ReplaceSplits | morpheme/preprocessor.go:23 | the pass works left to right: a prefix without '&' is rewritten on its own |
| Preprocessor.FullStopNotRescanned | morpheme/preprocessor.go:16-17 | "．" gives "。" without a newline, because replaced text is not scanned again |
| Preprocessor.EntityDecodedOnce | morpheme/preprocessor.go:18-20 | "&amp;lt;" gives "&lt;" and not "<" |
| Preprocessor.NbspDropped | morpheme/preprocessor.go:21 | "&nbsp;" is deleted |
| Preprocessor.UnchangedWithoutPatterns | morpheme/preprocessor.go:8-23 | a sentence without a URL and without any pattern is returned unchanged |
| Mecab.Split | morpheme/mecab.go:45 | strings.Split on one separator character; it always returns at least one piece, and "" gives `[""]` |
| Mecab.Parse | morpheme/mecab.go:45-62 | defines the parser: split at newlines, skip empty lines, and keep the non-empty words of each remaining line split at spaces |
| Mecab.ParseOutput | morpheme/mecab.go:45-62 | the result is `Parse(out)`, and no token is empty or holds a space or a newline |
| Mecab.Analyze | morpheme/mecab.go:45-62 | no token of the result is empty or holds a space or a newline |
| Mecab.AnalyzeFeedsPreprocessed | morpheme/mecab.go:22 | the tokenizer is fed the preprocessed text: a text with a URL reaches it as "" |
| Mecab.TokensClean | morpheme/mecab.go:51-57 | the tokens of one line are non-empty and hold no space or newline |
| Mecab.TokensOfWakatiLine | morpheme/mecab.go:51-58 | a line of words each ended by a space gives back exactly those words; a line of a single space gives none |
| Mecab.ParseClean | morpheme/mecab.go:45-57 | no parsed token is empty or holds a space or a newline |
| Mecab.BlankLineSkipped | morpheme/mecab.go:47-49 | an empty line between two lines adds no sentence |
| Mecab.TrailingNewlineSkipped | morpheme/mecab.go:45-49 | a newline at the end of the output adds no sentence |
| Mecab.SpacesOnlyLine | morpheme/mecab.go:48-59 | a line made only of spaces is not skipped; it gives one empty sentence |
| Mecab.SentencesAppend | morpheme/mecab.go:46-61 | sentences keep the order of the lines |
| Mecab.NonEmptyWordsOf | morpheme/mecab.go:53-58 | every kept token is non-empty and comes from the line |
| Mecab.ParseWakati | morpheme/mecab.go:45-62 | wakati output, one line per sentence with each word followed by a space, parses back to exactly those sentences, for any sentences whose words are non-empty and hold no space or newline |
| Mecab.SplitJoin | morpheme/mecab.go:45 | strings.Split undoes strings.Join when no piece holds the separator |
| Mecab.JoinSplit | morpheme/mecab.go:45 | strings.Join undoes strings.Split |

## Left out

- HTTP clients, the Mastodon client, stdin, persistence (file, S3, gzip), configuration and the
  command-line and Lambda entry points: these are I/O around the core.
- The external tokenizer: running `mecab` and `mecab-config` and resolving the dictionary
  directory is process I/O. The tokenizer is a function parameter of `Mecab.Analyze`.
- The chunk iterator and `handler/build.go`: the iterator's implementation is not part of this
  model, and the builder is glue over it, the analyzer and the store.
- Randomness: `rand.Intn` is replaced by a sequence of draws. No statement is made about the
  distribution of generated sentences.
- Markov.Chain.Generate: the source's loop has no bound. The model stops with `Unfinished` when
  the draws run out, and the properties cover the runs that finish.
- Markov.Chain.Generate: `rand.Intn` panics on a total that is not positive. That is the
  `Panicked` outcome; a trained trie never reaches it.
- Pointer aliasing and in-place mutation of `*chainNode`: the trie is a value, and an update
  through a node pointer is modelled as rebuilding the path to that node.
- The JSON text: `Dump` and `LoadChain` produce and read bytes through `encoding/json`. The model
  uses an abstract JSON value tree. It does not model case-insensitive key matching, numbers
  that are not integers, or syntax errors in the text.
- MarkovCodec.DecodeChain: it rejects a negative `state_size` and a missing or null `root_node`.
  `encoding/json` would accept both and leave a chain that later operations cannot use; the
  model's chain needs a natural state size and a root node.
- Go's `int` is 64 bits wide. Counters and sums here are unbounded, so overflow of a counter or
  of a running sum is not modelled.
- Strings are sequences of characters, not UTF-8 bytes. The replacement patterns and the
  separators are whole characters, so matching on characters agrees with matching on bytes.
- Post.GenerateAndPost: loading the model and its errors are left out. Each generation is the
  parameter `generate(i)`, and `CreatePost` is a parameter that accepts or rejects the text.
  Only the kind of error is kept, not its message.
- Post.SpacesRemoved: it is stated for inputs that hold no `" "` token of their own. Such a
  token could not be told apart from an inserted space.
- MarkovCodec.DecodeChain / Markov.LoadChain: a document that is `null`, or whose `root_node` is absent or null, loads in
  Go as a chain with a nil root; `null` also gives state size 0. The next AddSource or
  Generate then panics on the nil root. Here loading fails with `WrongType("chain")` or
  `Missing("root_node")`.
- MarkovCodec.DecodeNode / Markov.LoadChain: a child given as `null`, as in `{"children":{"x":null}}`, loads in Go as a
  nil `*chainNode`, and a walk that reaches it panics. Here loading fails with
  `WrongType("children")`.
- MarkovCodec.DecodeNode / Markov.LoadChain: a node whose `children` is absent or null loads in Go as a nil map. Reading
  it is fine, but the next AddSource or Generate that adds a child there panics. Here it loads
  as an empty map, so those calls go on: on `{"state_size":1,"root_node":{}}` the model's
  Generate returns `NoData` where Go panics.
- MarkovCodec.DecodeChain / Markov.LoadChain: a negative `state_size` loads in Go. Here it is the error `OutOfRange`,
  because the model's state size is a natural number.
- Markov.Chain.constructor: it takes a natural state size. Go's NewChain accepts a negative
  one; AddSource then panics slicing `run[i:i+StateSize]`, and Generate panics in `make`.
  Those panics are not modelled.
- Markov.Chain.Generate: the map order is one function from a key set to its listing, used for
  every `range` of one walk. Go may list the same map differently at each `range`
  (markov/chain.go:102). Each step's properties hold for every listing, but a walk is modelled
  only as a Go run that lists each key set the same way throughout. A Go run can therefore
  elect sequences that no single order gives: after training on `a a b` with state size 1, Go
  can return `a a b`.
