/** morpheme/preprocessor.go: PreprocessSentence drops any sentence with a URL and rewrites
    the rest with one strings.Replacer pass. Strings are sequences of characters; the
    patterns are whole characters, so matching on characters agrees with Go's matching on
    the UTF-8 bytes. */
module Preprocessor {
  /** The replacement table, in argument order: pattern, replacement. */
  const Table: seq<(string, string)> := [
    ("!", "！"),
    ("?", "？"),
    ("，", "、"),
    ("．", "。"),
    ("。", "。\n"),
    ("&lt;", "<"),
    ("&gt;", ">"),
    ("&amp;", "&"),
    ("&nbsp;", "")
  ]

  /** The regular expression https?:// matches somewhere in `s`. */
  predicate ContainsUrl(s: string)
  {
    exists i | 0 <= i <= |s| :: "http://" <= s[i..] || "https://" <= s[i..]
  }

  /** What the replacer does at the start of non-empty `s`: the length of the pattern found
      there and its replacement, or the first character kept as it is. */
  function Rewrite(s: string): (r: (nat, string))
    requires s != []
    ensures 1 <= r.0 <= |s|
  {
    if "!" <= s then (1, "！")
    else if "?" <= s then (1, "？")
    else if "，" <= s then (1, "、")
    else if "．" <= s then (1, "。")
    else if "。" <= s then (1, "。\n")
    else if "&lt;" <= s then (4, "<")
    else if "&gt;" <= s then (4, ">")
    else if "&amp;" <= s then (5, "&")
    else if "&nbsp;" <= s then (6, "")
    else (1, [s[0]])
  }

  /** One left-to-right pass: at each position the pattern found there is replaced and the
      pass resumes after it, so replaced text is never scanned again. */
  function Replace(s: string): string
    decreases |s|
  {
    if s == [] then []
    else
      var (n, out) := Rewrite(s);
      out + Replace(s[n..])
  }

  /** PreprocessSentence. */
  function PreprocessSentence(sentence: string): string
  {
    if ContainsUrl(sentence) then "" else Replace(sentence)
  }

  /** A sentence with a URL anywhere in it becomes empty. */
  lemma UrlDropped(a: string, b: string)
    ensures PreprocessSentence(a + "http://" + b) == ""
    ensures PreprocessSentence(a + "https://" + b) == ""
  {
    var s, t := a + "http://" + b, a + "https://" + b;
    assert "http://" <= s[|a|..] && "https://" <= t[|a|..];
  }

  /** No pattern is a prefix of another, so at most one pattern matches at any position
      and the argument order never decides between two matches. */
  lemma PatternsPrefixFree()
    ensures forall i, j | 0 <= i < |Table| && 0 <= j < |Table| && i != j :: !(Table[i].0 <= Table[j].0)
  {
    forall i, j | 0 <= i < |Table| && 0 <= j < |Table| && i != j
      ensures !(Table[i].0 <= Table[j].0)
    {
      assert Table[i].0[0] != Table[j].0[0] || Table[i].0[1] != Table[j].0[1];
    }
  }

  /** Two prefixes of the same text are prefixes of one another. */
  lemma CommonPrefixes(a: string, b: string, s: string)
    ensures a <= s && b <= s ==> a <= b || b <= a
  {
    if a <= s && b <= s && |a| <= |b| {
      assert forall i | 0 <= i < |a| :: a[i] == s[i] == b[i];
    } else if a <= s && b <= s {
      assert forall i | 0 <= i < |b| :: b[i] == s[i] == a[i];
    }
  }

  /** Rewrite applies the table: a pattern found at the start of `s` is consumed and replaced
      by its replacement, and when none is found one character is kept. */
  lemma RewriteFollowsTable(s: string)
    requires s != []
    ensures forall k | 0 <= k < |Table| && Table[k].0 <= s :: Rewrite(s) == (|Table[k].0|, Table[k].1)
    ensures (forall k | 0 <= k < |Table| :: !(Table[k].0 <= s)) ==> Rewrite(s) == (1, [s[0]])
  {
    forall k | 0 <= k < |Table| && Table[k].0 <= s ensures Rewrite(s) == (|Table[k].0|, Table[k].1) {
      PatternsPrefixFree();
      forall j | 0 <= j < |Table| && j != k ensures !(Table[j].0 <= s) {
        CommonPrefixes(Table[j].0, Table[k].0, s);
      }
      assert Table[0].0 == "!" && Table[1].0 == "?" && Table[2].0 == "，" && Table[3].0 == "．";
      assert Table[4].0 == "。" && Table[5].0 == "&lt;" && Table[6].0 == "&gt;";
      assert Table[7].0 == "&amp;" && Table[8].0 == "&nbsp;";
    }
    if forall k | 0 <= k < |Table| :: !(Table[k].0 <= s) {
      assert !(Table[0].0 <= s) && !(Table[1].0 <= s) && !(Table[2].0 <= s) && !(Table[3].0 <= s);
      assert !(Table[4].0 <= s) && !(Table[5].0 <= s) && !(Table[6].0 <= s);
      assert !(Table[7].0 <= s) && !(Table[8].0 <= s);
    }
  }

  /** No pattern occurs in `s`. */
  predicate PatternFree(s: string)
  {
    forall i, k | 0 <= i <= |s| && 0 <= k < |Table| :: !(Table[k].0 <= s[i..])
  }

  lemma {:induction false} ReplaceOfPatternFree(s: string)
    requires PatternFree(s)
    ensures Replace(s) == s
    decreases |s|
  {
    if s != [] {
      assert s[0..] == s;
      RewriteFollowsTable(s);
      assert PatternFree(s[1..]) by {
        forall i, k | 0 <= i <= |s[1..]| && 0 <= k < |Table| ensures !(Table[k].0 <= s[1..][i..]) {
          assert s[1..][i..] == s[i + 1..];
        }
      }
      ReplaceOfPatternFree(s[1..]);
    }
  }

  /** A URL-free sentence in which no pattern occurs is returned unchanged. */
  lemma UnchangedWithoutPatterns(s: string)
    requires !ContainsUrl(s) && PatternFree(s)
    ensures PreprocessSentence(s) == s
  {
    ReplaceOfPatternFree(s);
  }

  /** What one character becomes when it does not start an entity. */
  function CharImage(c: char): string
  {
    if c == '!' then "！"
    else if c == '?' then "？"
    else if c == '，' then "、"
    else if c == '．' then "。"
    else if c == '。' then "。\n"
    else [c]
  }

  /** The text rewritten character by character with CharImage. */
  function MapChars(s: string): string
  {
    if s == [] then [] else CharImage(s[0]) + MapChars(s[1..])
  }

  /** Away from '&' the replacer works on one character at a time. */
  lemma RewriteWithoutAmp(s: string)
    requires s != [] && s[0] != '&'
    ensures Rewrite(s) == (1, CharImage(s[0]))
  {
  }

  /** Without '&' the replacement works character by character: punctuation is widened,
      "．" becomes "。" and "。" becomes "。\n", and everything else is kept. */
  lemma {:induction false} ReplaceWithoutAmp(s: string)
    requires '&' !in s
    ensures Replace(s) == MapChars(s)
    decreases |s|
  {
    if s != [] {
      RewriteWithoutAmp(s);
      assert '&' !in s[1..] by {
        assert forall i | 0 <= i < |s[1..]| :: s[1..][i] == s[i + 1];
      }
      ReplaceWithoutAmp(s[1..]);
    }
  }

  /** No match runs across the end of a text free of '&', so the pass splits there. */
  lemma {:induction false} ReplaceSplits(a: string, b: string)
    requires '&' !in a
    ensures Replace(a + b) == Replace(a) + Replace(b)
    decreases |a|
  {
    if a == [] {
      assert a + b == b;
    } else {
      var s := a + b;
      assert s[0] == a[0] && s[1..] == a[1..] + b;
      assert '&' !in a[1..] by {
        assert forall i | 0 <= i < |a[1..]| :: a[1..][i] == a[i + 1];
      }
      calc {
        Replace(s);
        { RewriteWithoutAmp(s); }
        CharImage(a[0]) + Replace(a[1..] + b);
        { ReplaceSplits(a[1..], b); }
        CharImage(a[0]) + (Replace(a[1..]) + Replace(b));
        (CharImage(a[0]) + Replace(a[1..])) + Replace(b);
        { RewriteWithoutAmp(a); }
        Replace(a) + Replace(b);
      }
    }
  }

  /** The pass does not rescan what it wrote: "．" gives "。" without the newline that "。"
      itself gets. */
  lemma FullStopNotRescanned()
    ensures Replace("．") == "。"
    ensures Replace("。") == "。\n"
  {
    ReplaceWithoutAmp("．");
    ReplaceWithoutAmp("。");
    assert "．"[0] == '．' && "．"[1..] == [];
    assert "。"[0] == '。' && "。"[1..] == [];
  }

  /** An entity is decoded once: "&amp;lt;" gives "&lt;", not "<". */
  lemma EntityDecodedOnce()
    ensures Replace("&amp;lt;") == "&lt;"
  {
    var s := "&amp;lt;";
    assert Table[7] == ("&amp;", "&") && s[..5] == "&amp;";
    RewriteFollowsTable(s);
    var rest := s[5..];
    assert rest == "lt;";
    ReplaceWithoutAmp(rest);
    assert rest[0] == 'l' && rest[1..][0] == 't' && rest[1..][1..][0] == ';' && rest[1..][1..][1..] == [];
    assert MapChars(rest) == "l" + MapChars(rest[1..]) == "l" + "t" + MapChars(rest[1..][1..]);
    assert MapChars(rest[1..][1..]) == ";";
    assert Replace(s) == "&" + Replace(rest);
  }

  /** "&nbsp;" disappears. */
  lemma NbspDropped()
    ensures Replace("a&nbsp;b") == "ab"
  {
    var t := "a&nbsp;b";
    var u := t[1..];
    assert t[0] == 'a' && u == "&nbsp;b";
    RewriteWithoutAmp(t);
    assert Table[8] == ("&nbsp;", "") && u[..6] == "&nbsp;";
    RewriteFollowsTable(u);
    var v := u[6..];
    assert v == "b" && v[1..] == [];
    RewriteWithoutAmp(v);
    assert Replace(v) == "b";
    assert Replace(u) == "" + Replace(v);
    assert Replace(t) == "a" + Replace(u);
  }
}
