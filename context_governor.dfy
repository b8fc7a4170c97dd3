/** The context governor (src/guards/context_governor.py): assembles the
    prompt with two fixed safety anchors and refuses it when its word count
    exceeds the budget. */
module Context {

  import opened Values

  /** Python's `str.isspace()` for one character. */
  predicate IsSpace(c: char)
  {
    var n := c as int;
    n == 0x20 || 0x09 <= n <= 0x0D || 0x1C <= n <= 0x1F || n == 0x85 || n == 0xA0 || n == 0x1680 ||
    0x2000 <= n <= 0x200A || n == 0x2028 || n == 0x2029 || n == 0x202F || n == 0x205F || n == 0x3000
  }

  predicate IsWord(w: string)
  {
    w != [] && forall i :: 0 <= i < |w| ==> !IsSpace(w[i])
  }

  predicate AllSpace(s: string)
  {
    forall i :: 0 <= i < |s| ==> IsSpace(s[i])
  }

  /** The word in progress, if any, as a list. */
  function Flush(word: string): seq<string>
  {
    if word == [] then [] else [word]
  }

  /** `str.split()` over `s`, where `word` is the run of non-space
      characters read just before `s`. */
  function SplitFrom(s: string, word: string): (words: seq<string>)
    requires forall i :: 0 <= i < |word| ==> !IsSpace(word[i])
    ensures forall k :: 0 <= k < |words| ==> IsWord(words[k])
  {
    if s == [] then Flush(word)
    else if IsSpace(s[0]) then Flush(word) + SplitFrom(s[1..], [])
    else SplitFrom(s[1..], word + [s[0]])
  }

  /** `s.split()`: the maximal runs of non-whitespace characters. */
  function Split(s: string): (words: seq<string>)
    ensures forall k :: 0 <= k < |words| ==> IsWord(words[k])
  {
    SplitFrom(s, [])
  }

  /** Leading whitespace is skipped. */
  lemma {:induction false} SplitSkipsSpace(sp: string, s: string)
    requires AllSpace(sp)
    ensures SplitFrom(sp + s, []) == SplitFrom(s, [])
  {
    if sp != [] {
      assert (sp + s)[0] == sp[0] && IsSpace(sp[0]);
      assert (sp + s)[1..] == sp[1..] + s;
      assert SplitFrom(sp + s, []) == Flush([]) + SplitFrom(sp[1..] + s, []);
      assert Flush([]) == [];
      SplitSkipsSpace(sp[1..], s);
    } else {
      assert sp + s == s;
    }
  }

  lemma {:induction false} SplitFromJoin(a: string, sep: string, b: string, word: string)
    requires sep != [] && AllSpace(sep)
    requires forall i :: 0 <= i < |word| ==> !IsSpace(word[i])
    ensures SplitFrom(a + sep + b, word) == SplitFrom(a, word) + SplitFrom(b, [])
  {
    if a == [] {
      assert a + sep + b == sep + b;
      assert (sep + b)[0] == sep[0];
      assert (sep + b)[1..] == sep[1..] + b;
      SplitSkipsSpace(sep[1..], b);
    } else {
      assert (a + sep + b)[0] == a[0];
      assert (a + sep + b)[1..] == a[1..] + sep + b;
      if IsSpace(a[0]) {
        SplitFromJoin(a[1..], sep, b, []);
      } else {
        SplitFromJoin(a[1..], sep, b, word + [a[0]]);
      }
    }
  }

  /** Words on either side of a whitespace separator are counted separately. */
  lemma SplitJoin(a: string, sep: string, b: string)
    requires sep != [] && AllSpace(sep)
    ensures Split(a + sep + b) == Split(a) + Split(b)
  {
    SplitFromJoin(a, sep, b, []);
  }

  lemma {:induction false} SplitWord(w: string, word: string)
    requires IsWord(w)
    requires forall i :: 0 <= i < |word| ==> !IsSpace(word[i])
    ensures SplitFrom(w, word) == [word + w]
  {
    assert w[0] == w[0];
    if |w| == 1 {
      assert w[1..] == [];
      assert word + w == word + [w[0]];
    } else {
      assert word + w == (word + [w[0]]) + w[1..];
      SplitWord(w[1..], word + [w[0]]);
    }
  }

  /** Words joined by single spaces. */
  function Unwords(ws: seq<string>): string
  {
    if ws == [] then "" else if |ws| == 1 then ws[0] else ws[0] + " " + Unwords(ws[1..])
  }

  /** Splitting words joined by spaces gives back the words. */
  lemma {:induction false} SplitUnwords(ws: seq<string>)
    requires forall k :: 0 <= k < |ws| ==> IsWord(ws[k])
    ensures Split(Unwords(ws)) == ws
  {
    if |ws| == 1 {
      SplitWord(ws[0], []);
      assert [] + ws[0] == ws[0];
    } else if |ws| > 1 {
      SplitJoin(ws[0], " ", Unwords(ws[1..]));
      SplitWord(ws[0], []);
      assert [] + ws[0] == ws[0];
      SplitUnwords(ws[1..]);
    }
  }

  /** A word needs a character and a separator after it, except the last. */
  lemma {:induction false} SplitFromHalf(s: string, word: string)
    requires forall i :: 0 <= i < |word| ==> !IsSpace(word[i])
    ensures 2 * |SplitFrom(s, word)| <= |s| + (if word == [] then 1 else 2)
  {
    if s != [] {
      if IsSpace(s[0]) {
        SplitFromHalf(s[1..], []);
      } else {
        SplitFromHalf(s[1..], word + [s[0]]);
      }
    }
  }

  /** `_estimate_tokens`: `len(text.split())`. */
  function EstimateTokens(text: string): nat
  {
    |Split(text)|
  }

  /** `"\n".join(xs)` */
  function JoinLines(xs: seq<string>): string
  {
    if xs == [] then "" else if |xs| == 1 then xs[0] else xs[0] + "\n" + JoinLines(xs[1..])
  }

  /** A text of n characters has at most (n + 1) / 2 words. */
  lemma TokensAtMostHalf(text: string)
    ensures 2 * EstimateTokens(text) <= |text| + 1
  {
    SplitFromHalf(text, []);
  }

  /** The words of the two safety anchors; each anchor is its words joined
      by single spaces, "CRITICAL: Do not alter configuration files." and
      "CRITICAL: Only read from the designated sandboxed directory.". */
  const FirstAnchor: seq<string> := ["CRITICAL:", "Do", "not", "alter", "configuration", "files."]
  const SecondAnchor: seq<string> := ["CRITICAL:", "Only", "read", "from", "the", "designated", "sandboxed", "directory."]

  const SafetyAnchors: seq<string> := [Unwords(FirstAnchor), Unwords(SecondAnchor)]

  const DefaultMaxTokens: int := 4000

  /** The number of words in the two anchors together. */
  const AnchorWords: nat := 14

  lemma FirstAnchorIsWords()
    ensures forall k :: 0 <= k < |FirstAnchor| ==> IsWord(FirstAnchor[k])
  {
    assert IsWord(FirstAnchor[0]) && IsWord(FirstAnchor[1]) && IsWord(FirstAnchor[2]);
    assert IsWord(FirstAnchor[3]) && IsWord(FirstAnchor[4]) && IsWord(FirstAnchor[5]);
  }

  lemma SecondAnchorHeadIsWords()
    ensures IsWord(SecondAnchor[0]) && IsWord(SecondAnchor[1]) && IsWord(SecondAnchor[2]) && IsWord(SecondAnchor[3])
  {
  }

  lemma SecondAnchorIsWords()
    ensures forall k :: 0 <= k < |SecondAnchor| ==> IsWord(SecondAnchor[k])
  {
    SecondAnchorHeadIsWords();
    assert IsWord(SecondAnchor[4]) && IsWord(SecondAnchor[5]) && IsWord(SecondAnchor[6]) && IsWord(SecondAnchor[7]);
  }

  lemma AnchorBlockWords()
    ensures EstimateTokens(JoinLines(SafetyAnchors)) == AnchorWords
  {
    FirstAnchorIsWords();
    SplitUnwords(FirstAnchor);
    SecondAnchorIsWords();
    SplitUnwords(SecondAnchor);
    assert JoinLines(SafetyAnchors) == SafetyAnchors[0] + "\n" + SafetyAnchors[1];
    SplitJoin(SafetyAnchors[0], "\n", SafetyAnchors[1]);
  }

  datatype PromptContext = PromptContext(tokensUsed: int, safetyAnchors: seq<string>, workingMemory: string)

  /** The full string: anchors, a blank line, the system prompt, a blank line, the query. */
  function Assemble(dynamicQuery: string, systemPrompt: string): string
  {
    JoinLines(SafetyAnchors) + "\n\n" + systemPrompt + "\n\n" + dynamicQuery
  }

  lemma BlockTokens(block: string, dynamicQuery: string, systemPrompt: string)
    ensures EstimateTokens(block + "\n\n" + systemPrompt + "\n\n" + dynamicQuery) ==
            EstimateTokens(block) + EstimateTokens(systemPrompt) + EstimateTokens(dynamicQuery)
  {
    assert block + "\n\n" + systemPrompt + "\n\n" + dynamicQuery == block + "\n\n" + (systemPrompt + "\n\n" + dynamicQuery);
    SplitJoin(block, "\n\n", systemPrompt + "\n\n" + dynamicQuery);
    SplitJoin(systemPrompt, "\n\n", dynamicQuery);
  }

  /** The estimate of the assembled string is the sum over its three parts. */
  lemma AssembledTokens(dynamicQuery: string, systemPrompt: string)
    ensures EstimateTokens(Assemble(dynamicQuery, systemPrompt)) ==
            AnchorWords + EstimateTokens(systemPrompt) + EstimateTokens(dynamicQuery)
  {
    BlockTokens(JoinLines(SafetyAnchors), dynamicQuery, systemPrompt);
    AnchorBlockWords();
  }

  datatype ContextGovernor = ContextGovernor(maxTokens: int) {

    /** `validate_budget` */
    predicate ValidateBudget(proposedContextLen: int)
    {
      proposedContextLen <= maxTokens
    }

    /** `prepare_context`: None exactly when the assembled string is over budget. */
    function PrepareContext(dynamicQuery: string, systemPrompt: string): (r: Option<PromptContext>)
      ensures r.None? <==> EstimateTokens(Assemble(dynamicQuery, systemPrompt)) > maxTokens
      ensures r.Some? ==> r.value.tokensUsed == EstimateTokens(Assemble(dynamicQuery, systemPrompt))
      ensures r.Some? ==> r.value.tokensUsed <= maxTokens
      ensures r.Some? ==> r.value.safetyAnchors == SafetyAnchors && r.value.workingMemory == dynamicQuery
    {
      var estimatedTokens := EstimateTokens(Assemble(dynamicQuery, systemPrompt));
      if !ValidateBudget(estimatedTokens) then None
      else Some(PromptContext(estimatedTokens, SafetyAnchors, dynamicQuery))
    }
  }

  /** Python's `s * n` */
  function Repeat(s: string, n: nat): string
  {
    if n == 0 then "" else s + Repeat(s, n - 1)
  }

  lemma {:induction false} RepeatedWords(w: string, n: nat)
    requires IsWord(w)
    ensures EstimateTokens(Repeat(w + " ", n)) == n
  {
    if n > 0 {
      assert Repeat(w + " ", n) == w + " " + Repeat(w + " ", n - 1);
      SplitJoin(w, " ", Repeat(w + " ", n - 1));
      SplitWord(w, []);
      RepeatedWords(w, n - 1);
    }
  }

  /** The long query of test_phase3.py has at least its 100 repeated words. */
  lemma LongQueryWords()
    ensures EstimateTokens("Read this file: " + Repeat("word ", 100)) >= 100
  {
    assert "Read this file: " + Repeat("word ", 100) == "Read this file:" + " " + Repeat("word ", 100);
    SplitJoin("Read this file:", " ", Repeat("word ", 100));
    assert "word " == "word" + " ";
    assert IsWord("word");
    RepeatedWords("word", 100);
  }

  /** The two cases of test_phase3.py with a budget of 50: the short query
      passes with the anchors present, the long one is refused. */
  lemma GovernorExamples()
    ensures var ok := ContextGovernor(50).PrepareContext("Where is the logs folder?", "You are a helpful assistant.");
            ok.Some? && |ok.value.safetyAnchors| > 0
    ensures ContextGovernor(50).PrepareContext("Read this file: " + Repeat("word ", 100), "You are a helpful assistant.").None?
  {
    TokensAtMostHalf("You are a helpful assistant.");
    TokensAtMostHalf("Where is the logs folder?");
    LongQueryWords();
    AssembledTokens("Where is the logs folder?", "You are a helpful assistant.");
    AssembledTokens("Read this file: " + Repeat("word ", 100), "You are a helpful assistant.");
  }
}
