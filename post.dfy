/** handler/post.go: the post-processing that puts a space between two adjacent words of
    Latin letters, and the bounded attempt loop of GenerateAndPost. */
module Post {
  /** maxAttemptsCount. */
  const MaxAttemptsCount: nat := 100
  /** The minWordsCount GenerateAndPost uses unless an option sets another. */
  const DefaultMinWordsCount: int := 1

  datatype Option<T> = None | Some(value: T)

  /** ErrGenerationFailed, and the error CreatePost returned (wrapped as "create status"). */
  datatype PostError = GenerationFailed | CreatePostFailed

  predicate IsLetter(ch: char)
  {
    'A' <= ch <= 'Z' || 'a' <= ch <= 'z'
  }

  predicate AllLetters(w: string)
  {
    w == [] || (IsLetter(w[0]) && AllLetters(w[1..]))
  }

  /** The pattern ^[A-Za-z]+$. */
  predicate IsWord(w: string)
  {
    |w| > 0 && AllLetters(w)
  }

  /** Whether a " " goes between `prev` and `word`. */
  predicate Joins(prev: string, word: string)
  {
    IsWord(prev) && IsWord(word)
  }

  /** The separator postprocessSentence puts between `prev` and `word`. */
  function Gap(prev: string, word: string): seq<string>
  {
    if Joins(prev, word) then [" "] else []
  }

  /** What postprocessSentence returns: `input` with " " inserted between every two
      adjacent words. */
  function Spaced(input: seq<string>): seq<string>
  {
    if |input| <= 1 then input
    else Spaced(input[..|input| - 1]) + Gap(input[|input| - 2], input[|input| - 1]) + [input[|input| - 1]]
  }

  /** The number of spaces inserted before `input[i]`. */
  function GapsBefore(input: seq<string>, i: nat): nat
    requires i < |input|
  {
    if i == 0 then 0 else GapsBefore(input, i - 1) + |Gap(input[i - 1], input[i])|
  }

  /** strings.Join(parts, ""). */
  function Concat(parts: seq<string>): string
  {
    if parts == [] then "" else Concat(parts[..|parts| - 1]) + parts[|parts| - 1]
  }

  /** postprocessSentence. */
  method PostprocessSentence(input: seq<string>) returns (result: seq<string>)
    ensures result == Spaced(input)
    ensures input == [] ==> result == []
    ensures input != [] ==> result != [] && result[0] == input[0]
  {
    if |input| < 1 {
      return input;
    }
    result := [input[0]];
    for i := 1 to |input|
      invariant result == Spaced(input[..i])
    {
      SpacedPrefix(input, i);
      var prev := input[i - 1];
      var word := input[i];
      if IsWord(prev) && IsWord(word) {
        result := result + [" ", word];
      } else {
        result := result + [word];
      }
    }
    assert input[..|input|] == input;
    SpacedStartsWithFirst(input);
  }

  /** Spacing one more token of `input` appends the gap before it and the token. */
  lemma SpacedPrefix(input: seq<string>, i: nat)
    requires 1 <= i < |input|
    ensures Spaced(input[..i + 1]) == Spaced(input[..i]) + Gap(input[i - 1], input[i]) + [input[i]]
  {
    var p := input[..i + 1];
    assert p[..|p| - 1] == input[..i] && p[|p| - 2] == input[i - 1] && p[|p| - 1] == input[i];
  }

  /** The output begins with the first input token. */
  lemma {:induction false} SpacedStartsWithFirst(input: seq<string>)
    requires input != []
    ensures Spaced(input) != [] && Spaced(input)[0] == input[0]
    decreases |input|
  {
    if |input| > 1 {
      var init := input[..|input| - 1];
      SpacedStartsWithFirst(init);
    }
  }

  /** The output is the input plus one element per inserted space. */
  lemma {:induction false} SpacedLength(input: seq<string>)
    requires input != []
    ensures |Spaced(input)| == |input| + GapsBefore(input, |input| - 1)
    decreases |input|
  {
    if |input| > 1 {
      var init := input[..|input| - 1];
      SpacedLength(init);
      GapsPrefix(input, init, |init| - 1);
    }
  }

  /** input[i] sits at i + GapsBefore(input, i): one position further per space inserted
      before it, so the input tokens keep their order. */
  lemma {:induction false} SpacedAt(input: seq<string>, i: nat)
    requires i < |input|
    ensures i + GapsBefore(input, i) < |Spaced(input)|
    ensures Spaced(input)[i + GapsBefore(input, i)] == input[i]
    decreases |input|
  {
    SpacedLength(input);
    if i < |input| - 1 {
      var init := input[..|input| - 1];
      SpacedAt(init, i);
      GapsPrefix(input, init, i);
    }
  }

  /** After a word followed by a word comes a " ". */
  lemma {:induction false} SpaceAfter(input: seq<string>, i: nat)
    requires i + 1 < |input| && Joins(input[i], input[i + 1])
    ensures i + GapsBefore(input, i) + 1 < |Spaced(input)|
    ensures Spaced(input)[i + GapsBefore(input, i) + 1] == " "
    decreases |input|
  {
    SpacedLength(input);
    var init := input[..|input| - 1];
    if i + 1 < |input| - 1 {
      SpaceAfter(init, i);
      GapsPrefix(input, init, i);
    } else {
      SpacedLength(init);
      GapsPrefix(input, init, i);
    }
  }

  /** A space is inserted between input[i] and input[i + 1] exactly when both are words. */
  lemma GapsStep(input: seq<string>)
    ensures forall i | 0 <= i < |input| - 1 ::
      GapsBefore(input, i + 1) == GapsBefore(input, i) + (if Joins(input[i], input[i + 1]) then 1 else 0)
  {
    forall i | 0 <= i < |input| - 1
      ensures GapsBefore(input, i + 1) == GapsBefore(input, i) + (if Joins(input[i], input[i + 1]) then 1 else 0)
    {
      assert GapsBefore(input, i + 1) == GapsBefore(input, i) + |Gap(input[i], input[i + 1])|;
    }
  }

  /** Right after input[i] the output holds " " when input[i] and input[i + 1] both match
      ^[A-Za-z]+$, and input[i + 1] itself otherwise. */
  lemma SpacedNext(input: seq<string>, i: nat)
    requires i + 1 < |input|
    ensures i + GapsBefore(input, i) + 1 < |Spaced(input)|
    ensures Spaced(input)[i + GapsBefore(input, i) + 1]
         == if Joins(input[i], input[i + 1]) then " " else input[i + 1]
  {
    GapsStep(input);
    SpacedAt(input, i + 1);
    if Joins(input[i], input[i + 1]) {
      SpaceAfter(input, i);
    }
  }

  lemma {:induction false} GapsPrefix(input: seq<string>, init: seq<string>, i: nat)
    requires init <= input && i < |init|
    ensures GapsBefore(init, i) == GapsBefore(input, i)
  {
    if i > 0 {
      GapsPrefix(input, init, i - 1);
    }
  }

  /** All elements other than " ". */
  function RemoveSpaces(s: seq<string>): seq<string>
  {
    if s == [] then [] else (if s[0] == " " then [] else [s[0]]) + RemoveSpaces(s[1..])
  }

  lemma {:induction false} RemoveSpacesAppend(a: seq<string>, b: seq<string>)
    ensures RemoveSpaces(a + b) == RemoveSpaces(a) + RemoveSpaces(b)
    decreases |a|
  {
    if a == [] {
      assert a + b == b;
    } else {
      assert (a + b)[1..] == a[1..] + b;
      RemoveSpacesAppend(a[1..], b);
    }
  }

  /** Deleting the inserted spaces gives the input back, in order (for input that holds no
      " " token of its own). */
  lemma {:induction false} SpacesRemoved(input: seq<string>)
    requires forall i | 0 <= i < |input| :: input[i] != " "
    ensures RemoveSpaces(Spaced(input)) == input
    decreases |input|
  {
    if |input| > 1 {
      var n := |input|;
      var init, last := input[..n - 1], input[n - 1];
      var gap := Gap(input[n - 2], last);
      assert Spaced(input) == Spaced(init) + (gap + [last]);
      SpacesRemoved(init);
      RemoveSpacesOfTail(gap, last);
      RemoveSpacesAppend(Spaced(init), gap + [last]);
      assert input == init + [last];
    } else if |input| == 1 {
      assert input[1..] == [];
    }
  }

  lemma RemoveSpacesOfTail(gap: seq<string>, last: string)
    requires last != " " && (gap == [] || gap == [" "])
    ensures RemoveSpaces(gap + [last]) == [last]
  {
    assert [last][1..] == [];
    assert RemoveSpaces([last]) == [last];
    if gap != [] {
      var t := gap + [last];
      assert t[0] == " " && t[1..] == [last];
    } else {
      assert gap + [last] == [last];
    }
  }

  /** Two Latin words are separated by a space. */
  lemma JoinedWords()
    ensures Concat(Spaced(["Hello", "world"])) == "Hello" + " " + "world"
  {
    var s := ["Hello", "world"];
    assert Joins(s[0], s[1]) by {
      assert forall i | 0 <= i < |s[0]| :: IsLetter(s[0][i]);
      assert forall i | 0 <= i < |s[1]| :: IsLetter(s[1][i]);
    }
    var t := ["Hello", " ", "world"];
    assert Spaced(s) == t by {
      assert s[..1] == ["Hello"];
    }
    assert t[..2] == ["Hello", " "] && t[..2][..1] == ["Hello"] && t[..2][..1][..0] == [];
    assert Concat(["Hello"]) == "Hello";
    assert Concat(t[..2]) == "Hello" + " ";
    assert Concat(t) == "Hello" + " " + "world";
  }

  /** A token that is not a Latin word, such as "、", runs together with its neighbours. */
  lemma JoinedPunctuation()
    ensures Concat(Spaced(["Hello", "、", "world"])) == "Hello" + "、" + "world"
  {
    var t := ["Hello", "、", "world"];
    assert !IsWord(t[1]) by {
      assert !IsLetter(t[1][0]);
    }
    assert t[..2] == ["Hello", "、"] && t[..2][..1] == ["Hello"];
    assert Spaced(t) == t;
    assert t[..2][..1][..0] == [];
    assert Concat(["Hello"]) == "Hello";
    assert Concat(t[..2]) == "Hello" + "、";
    assert Concat(t) == "Hello" + "、" + "world";
  }

  /** GenerateAndPost with the model and the blog client abstracted: `generate(i)` is what
      the i-th call to Generate returns (nil as the empty sequence), and `createPost(text)`
      tells whether the client accepts `text`. Returns how many generations were made, the
      texts posted, and the error. */
  method GenerateAndPost(generate: nat -> seq<string>, minWordsCount: int, createPost: string -> bool)
    returns (attempts: nat, posted: seq<string>, err: Option<PostError>)
    ensures 1 <= attempts <= MaxAttemptsCount
    ensures forall i: nat | i < attempts - 1 :: |generate(i)| < minWordsCount
    ensures err == Some(GenerationFailed) <==> forall i: nat | i < MaxAttemptsCount :: |generate(i)| < minWordsCount
    ensures err == Some(GenerationFailed) ==> posted == [] && attempts == MaxAttemptsCount
    ensures err != Some(GenerationFailed) ==>
      && |generate(attempts - 1)| >= minWordsCount
      && posted == [Concat(Spaced(generate(attempts - 1)))]
      && (err == None <==> createPost(posted[0]))
      && (err != None ==> err == Some(CreatePostFailed))
  {
    posted := [];
    attempts := 0;
    for i := 0 to MaxAttemptsCount
      invariant attempts == i
      invariant forall j: nat | j < i :: |generate(j)| < minWordsCount
    {
      attempts := attempts + 1;
      var generated := generate(i);
      if |generated| < minWordsCount {
        continue;
      }
      var parts := PostprocessSentence(generated);
      var text := Concat(parts);
      posted := [text];
      if !createPost(text) {
        return attempts, posted, Some(CreatePostFailed);
      }
      return attempts, posted, None;
    }
    return attempts, posted, Some(GenerationFailed);
  }

  /** A model that only ever generates nothing (a chain with no data) makes GenerateAndPost
      fail after 100 attempts without posting: with the default minWordsCount of 1 an empty
      generation is never posted. */
  method EmptyModelScenario(createPost: string -> bool) returns (attempts: nat, posted: seq<string>, err: Option<PostError>)
    ensures attempts == MaxAttemptsCount && posted == [] && err == Some(GenerationFailed)
  {
    attempts, posted, err := GenerateAndPost(i => [], DefaultMinWordsCount, createPost);
  }
}
