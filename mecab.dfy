/** The output parser of Analyze (morpheme/mecab.go): the tokenizer's wakati output, one
    line per sentence with the words separated by spaces, becomes a list of sentences of
    non-empty words. The tokenizer itself is an external process and is a parameter here. */
module Mecab {
  import opened Preprocessor

  /** strings.Split(s, [sep]): the pieces between the separators; "" gives [""]. */
  function Split(s: string, sep: char): (pieces: seq<string>)
    ensures |pieces| >= 1
    decreases |s|
  {
    if s == [] then [""]
    else
      var rest := Split(s[1..], sep);
      if s[0] == sep then [""] + rest else [[s[0]] + rest[0]] + rest[1..]
  }

  /** strings.Join(pieces, [sep]). */
  function Join(pieces: seq<string>, sep: char): string
  {
    if pieces == [] then ""
    else if |pieces| == 1 then pieces[0]
    else pieces[0] + [sep] + Join(pieces[1..], sep)
  }

  /** The words that are not empty, in order. */
  function NonEmptyWords(words: seq<string>): seq<string>
  {
    if words == [] then []
    else NonEmptyWords(words[..|words| - 1]) + if words[|words| - 1] == "" then [] else [words[|words| - 1]]
  }

  /** The words of one line. */
  function Tokens(line: string): seq<string>
  {
    NonEmptyWords(Split(line, ' '))
  }

  /** One sentence per line that is not empty, in order. */
  function Sentences(lines: seq<string>): seq<seq<string>>
  {
    if lines == [] then []
    else Sentences(lines[..|lines| - 1]) + if |lines[|lines| - 1]| == 0 then [] else [Tokens(lines[|lines| - 1])]
  }

  /** What the parser returns for the tokenizer output `out`. */
  function Parse(out: string): seq<seq<string>>
  {
    Sentences(Split(out, '\n'))
  }

  /** The parsing tail of Analyze (lines 45-62). */
  method ParseOutput(out: string) returns (res: seq<seq<string>>)
    ensures res == Parse(out)
    ensures forall i, j | 0 <= i < |res| && 0 <= j < |res[i]| ::
      res[i][j] != "" && ' ' !in res[i][j] && '\n' !in res[i][j]
  {
    var sentences := Split(out, '\n');
    res := [];
    for i := 0 to |sentences|
      invariant res == Sentences(sentences[..i])
    {
      assert sentences[..i + 1][..i] == sentences[..i];
      var sentence := sentences[i];
      if |sentence| == 0 {
        continue;
      }
      var words := Split(sentence, ' ');
      var filtered: seq<string> := [];
      for j := 0 to |words|
        invariant filtered == NonEmptyWords(words[..j])
      {
        assert words[..j + 1][..j] == words[..j];
        if words[j] == "" {
          continue;
        }
        filtered := filtered + [words[j]];
      }
      assert words[..|words|] == words;
      res := res + [filtered];
    }
    assert sentences[..|sentences|] == sentences;
    ParseClean(out);
  }

  /** Analyze with the tokenizer as a function from its input to its output: the tokenizer
      is fed the preprocessed text, never the raw one. */
  function Analyze(text: string, tokenizer: string -> string): (sentences: seq<seq<string>>)
    ensures forall i, j | 0 <= i < |sentences| && 0 <= j < |sentences[i]| ::
      sentences[i][j] != "" && ' ' !in sentences[i][j] && '\n' !in sentences[i][j]
  {
    ParseClean(tokenizer(PreprocessSentence(text)));
    Parse(tokenizer(PreprocessSentence(text)))
  }

  // ---------------------------------------------------------------------------------
  // Split and Join

  /** No piece holds the separator. */
  lemma {:induction false} SplitPiecesFree(s: string, sep: char)
    ensures forall i | 0 <= i < |Split(s, sep)| :: sep !in Split(s, sep)[i]
    decreases |s|
  {
    if s != [] {
      SplitPiecesFree(s[1..], sep);
    }
  }

  /** Joining the pieces with the separator gives the text back. */
  lemma {:induction false} JoinSplit(s: string, sep: char)
    ensures Join(Split(s, sep), sep) == s
    decreases |s|
  {
    if s != [] {
      var rest := Split(s[1..], sep);
      JoinSplit(s[1..], sep);
      if s[0] == sep {
        assert ([""] + rest)[1..] == rest;
      } else {
        var r := [[s[0]] + rest[0]] + rest[1..];
        assert r[1..] == rest[1..];
        if |rest| > 1 {
          assert rest == [rest[0]] + rest[1..];
        }
      }
    }
  }

  /** A separator splits the text in two. */
  lemma {:induction false} SplitAtSep(a: string, b: string, sep: char)
    ensures Split(a + [sep] + b, sep) == Split(a, sep) + Split(b, sep)
    decreases |a|
  {
    var s := a + [sep] + b;
    if a == [] {
      assert s[1..] == b;
    } else {
      assert s[1..] == a[1..] + [sep] + b;
      SplitAtSep(a[1..], b, sep);
    }
  }

  /** Text without the separator is one piece. */
  lemma {:induction false} SplitWithoutSep(p: string, sep: char)
    requires sep !in p
    ensures Split(p, sep) == [p]
    decreases |p|
  {
    if p != [] {
      SplitWithoutSep(p[1..], sep);
      assert [p[0]] + p[1..] == p;
    }
  }

  /** Splitting what was joined gives the pieces back, when no piece holds the separator. */
  lemma {:induction false} SplitJoin(pieces: seq<string>, sep: char)
    requires pieces != []
    requires forall i | 0 <= i < |pieces| :: sep !in pieces[i]
    ensures Split(Join(pieces, sep), sep) == pieces
    decreases |pieces|
  {
    SplitWithoutSep(pieces[0], sep);
    if |pieces| > 1 {
      SplitJoin(pieces[1..], sep);
      SplitAtSep(pieces[0], Join(pieces[1..], sep), sep);
      assert [pieces[0]] + pieces[1..] == pieces;
    }
  }

  /** A character that is neither the separator nor in any piece is not in the joined text. */
  lemma {:induction false} JoinAvoids(pieces: seq<string>, sep: char, c: char)
    requires c != sep && forall i | 0 <= i < |pieces| :: c !in pieces[i]
    ensures c !in Join(pieces, sep)
    decreases |pieces|
  {
    if |pieces| > 1 {
      JoinAvoids(pieces[1..], sep, c);
    }
  }

  /** A text made only of separators splits into empty pieces. */
  lemma {:induction false} SplitOfSeparators(s: string, sep: char)
    requires forall i | 0 <= i < |s| :: s[i] == sep
    ensures forall i | 0 <= i < |Split(s, sep)| :: Split(s, sep)[i] == ""
    decreases |s|
  {
    if s != [] {
      SplitOfSeparators(s[1..], sep);
    }
  }

  // ---------------------------------------------------------------------------------
  // Tokens and sentences

  lemma {:induction false} NonEmptyWordsAppend(a: seq<string>, b: seq<string>)
    ensures NonEmptyWords(a + b) == NonEmptyWords(a) + NonEmptyWords(b)
    decreases |b|
  {
    if b == [] {
      assert a + b == a;
    } else {
      assert (a + b)[..|a + b| - 1] == a + b[..|b| - 1];
      NonEmptyWordsAppend(a, b[..|b| - 1]);
    }
  }

  lemma {:induction false} NonEmptyWordsOf(words: seq<string>)
    ensures forall i | 0 <= i < |NonEmptyWords(words)| ::
      NonEmptyWords(words)[i] != "" && exists j | 0 <= j < |words| :: words[j] == NonEmptyWords(words)[i]
    decreases |words|
  {
    if words != [] {
      var init := words[..|words| - 1];
      NonEmptyWordsOf(init);
      forall i | 0 <= i < |NonEmptyWords(init)|
        ensures exists j | 0 <= j < |words| :: words[j] == NonEmptyWords(init)[i]
      {
        var j :| 0 <= j < |init| && init[j] == NonEmptyWords(init)[i];
        assert words[j] == init[j];
      }
    }
  }

  lemma {:induction false} NonEmptyWordsKeepsAll(words: seq<string>)
    requires forall i | 0 <= i < |words| :: words[i] != ""
    ensures NonEmptyWords(words) == words
    decreases |words|
  {
    if words != [] {
      NonEmptyWordsKeepsAll(words[..|words| - 1]);
    }
  }

  lemma {:induction false} NonEmptyWordsOfBlanks(words: seq<string>)
    requires forall i | 0 <= i < |words| :: words[i] == ""
    ensures NonEmptyWords(words) == []
    decreases |words|
  {
    if words != [] {
      NonEmptyWordsOfBlanks(words[..|words| - 1]);
    }
  }

  /** Every token is non-empty and holds neither a space nor a newline. */
  lemma TokensClean(line: string)
    requires '\n' !in line
    ensures forall j | 0 <= j < |Tokens(line)| :: Tokens(line)[j] != "" && ' ' !in Tokens(line)[j] && '\n' !in Tokens(line)[j]
  {
    var words := Split(line, ' ');
    NonEmptyWordsOf(words);
    SplitPiecesFree(line, ' ');
    forall k | 0 <= k < |words| ensures '\n' !in words[k] {
      SplitSubstring(line, ' ', k);
    }
  }

  /** A piece never holds a character the text does not. */
  lemma {:induction false} SplitSubstring(s: string, sep: char, k: nat)
    requires k < |Split(s, sep)|
    ensures forall c | c in Split(s, sep)[k] :: c in s
    decreases |s|
  {
    if s != [] {
      var rest := Split(s[1..], sep);
      if s[0] == sep {
        if k > 0 {
          SplitSubstring(s[1..], sep, k - 1);
        }
      } else if k == 0 {
        SplitSubstring(s[1..], sep, 0);
      } else {
        SplitSubstring(s[1..], sep, k);
      }
    }
  }

  lemma {:induction false} SentencesClean(lines: seq<string>)
    requires forall k | 0 <= k < |lines| :: '\n' !in lines[k]
    ensures forall i, j | 0 <= i < |Sentences(lines)| && 0 <= j < |Sentences(lines)[i]| ::
      Sentences(lines)[i][j] != "" && ' ' !in Sentences(lines)[i][j] && '\n' !in Sentences(lines)[i][j]
    decreases |lines|
  {
    if lines != [] {
      SentencesClean(lines[..|lines| - 1]);
      TokensClean(lines[|lines| - 1]);
    }
  }

  /** No parsed token is empty or holds a space or a newline. */
  lemma ParseClean(out: string)
    ensures forall i, j | 0 <= i < |Parse(out)| && 0 <= j < |Parse(out)[i]| ::
      Parse(out)[i][j] != "" && ' ' !in Parse(out)[i][j] && '\n' !in Parse(out)[i][j]
  {
    SplitPiecesFree(out, '\n');
    SentencesClean(Split(out, '\n'));
  }

  /** An empty line gives no sentence. */
  lemma SentencesOfEmptyLine()
    ensures Sentences([""]) == []
  {
    assert [""][..0] == [];
  }

  /** Empty lines give no sentence: a blank line between two sentences changes nothing. */
  lemma BlankLineSkipped(a: string, b: string)
    ensures Parse(a + "\n\n" + b) == Parse(a + "\n" + b)
  {
    var la, lb := Split(a, '\n'), Split(b, '\n');
    calc {
      Parse(a + "\n\n" + b);
      { assert a + "\n\n" + b == a + ['\n'] + ("" + ['\n'] + b); }
      Sentences(Split(a + ['\n'] + ("" + ['\n'] + b), '\n'));
      { SplitAtSep(a, "" + ['\n'] + b, '\n'); SplitAtSep("", b, '\n'); }
      Sentences(la + (Split("", '\n') + lb));
      { assert Split("", '\n') == [""]; }
      Sentences(la + ([""] + lb));
      { SentencesAppend(la, [""] + lb); SentencesAppend([""], lb); SentencesOfEmptyLine(); }
      Sentences(la) + ([] + Sentences(lb));
      { assert [] + Sentences(lb) == Sentences(lb); SentencesAppend(la, lb); }
      Sentences(la + lb);
      { SplitAtSep(a, b, '\n'); }
      Sentences(Split(a + ['\n'] + b, '\n'));
      { assert a + "\n" + b == a + ['\n'] + b; }
      Parse(a + "\n" + b);
    }
  }

  /** A newline at the end of the output adds no sentence. */
  lemma TrailingNewlineSkipped(a: string)
    ensures Parse(a + "\n") == Parse(a)
  {
    assert a + "\n" == a + ['\n'] + "";
    SplitAtSep(a, "", '\n');
    SentencesAppend(Split(a, '\n'), [""]);
    SentencesOfEmptyLine();
  }

  lemma {:induction false} SentencesAppend(a: seq<string>, b: seq<string>)
    ensures Sentences(a + b) == Sentences(a) + Sentences(b)
    decreases |b|
  {
    if b == [] {
      assert a + b == a;
    } else {
      assert (a + b)[..|a + b| - 1] == a + b[..|b| - 1];
      SentencesAppend(a, b[..|b| - 1]);
    }
  }

  /** A line of spaces is not skipped: it gives an empty sentence (which AddSource then
      ignores). */
  lemma SpacesOnlyLine(line: string)
    requires |line| > 0 && forall i | 0 <= i < |line| :: line[i] == ' '
    ensures Parse(line) == [[]]
  {
    assert '\n' !in line;
    SplitWithoutSep(line, '\n');
    SplitOfSeparators(line, ' ');
    NonEmptyWordsOfBlanks(Split(line, ' '));
    assert Tokens(line) == [];
    assert [line][..0] == [];
    assert Sentences([line]) == Sentences([]) + [Tokens(line)];
  }

  /** The words of a line that ends with a space, as the tokenizer writes it, are the words
      in order. */
  lemma TokensOfWakatiLine(words: seq<string>)
    requires forall i | 0 <= i < |words| :: words[i] != "" && ' ' !in words[i]
    ensures Tokens(Join(words, ' ') + " ") == words
  {
    if words == [] {
      assert Join(words, ' ') + " " == " ";
      SplitOfSeparators(" ", ' ');
      NonEmptyWordsOfBlanks(Split(" ", ' '));
      return;
    }
    SplitJoin(words, ' ');
    assert Join(words, ' ') + " " == Join(words, ' ') + [' '] + "";
    SplitAtSep(Join(words, ' '), "", ' ');
    NonEmptyWordsAppend(words, [""]);
    NonEmptyWordsKeepsAll(words);
    assert NonEmptyWords([""]) == [] by {
      assert [""][..0] == [];
    }
  }

  lemma {:induction false} SentencesOfLines(lines: seq<string>, sentences: seq<seq<string>>)
    requires |lines| == |sentences|
    requires forall i | 0 <= i < |lines| :: |lines[i]| > 0 && Tokens(lines[i]) == sentences[i]
    ensures Sentences(lines) == sentences
    decreases |lines|
  {
    if lines != [] {
      SentencesOfLines(lines[..|lines| - 1], sentences[..|sentences| - 1]);
    }
  }

  /** The lines the tokenizer writes for `sentences`: the words of each separated by
      spaces, each line ending with a space. */
  function WakatiLines(sentences: seq<seq<string>>): (lines: seq<string>)
    ensures |lines| == |sentences|
  {
    seq(|sentences|, i requires 0 <= i < |sentences| => Join(sentences[i], ' ') + " ")
  }

  /** Parsing the tokenizer's output gives back its sentences and their words, both in
      order. */
  lemma ParseWakati(sentences: seq<seq<string>>)
    requires forall i, j | 0 <= i < |sentences| && 0 <= j < |sentences[i]| ::
      sentences[i][j] != "" && ' ' !in sentences[i][j] && '\n' !in sentences[i][j]
    ensures Parse(Join(WakatiLines(sentences), '\n') + "\n") == sentences
  {
    var lines := WakatiLines(sentences);
    if sentences == [] {
      assert Join(lines, '\n') == "";
      TrailingNewlineSkipped("");
      SentencesOfEmptyLine();
      return;
    }
    forall i | 0 <= i < |lines| ensures '\n' !in lines[i] && |lines[i]| > 0 && Tokens(lines[i]) == sentences[i] {
      JoinAvoids(sentences[i], ' ', '\n');
      TokensOfWakatiLine(sentences[i]);
    }
    SplitJoin(lines, '\n');
    TrailingNewlineSkipped(Join(lines, '\n'));
    SentencesOfLines(lines, sentences);
  }

  /** Text with a URL reaches the tokenizer as the empty string. */
  lemma AnalyzeFeedsPreprocessed(a: string, b: string, tokenizer: string -> string)
    ensures Analyze(a + "http://" + b, tokenizer) == Parse(tokenizer(""))
  {
    UrlDropped(a, b);
  }
}
