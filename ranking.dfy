/**
 * The keyword fallback ranker `_fallback_selection`: score each tool by the
 * distinct words of the user message that occur in its name and docstring,
 * stable-sort by score (highest first), keep the first `max_tools`, and turn
 * each kept tool into a `ToolSelection` with relevance `min(2 * score, 10)`.
 */
module Ranking {
  import opened Text
  import opened Metadata

  /** `ToolSelection`: a tool name, its toolkit and a relevance out of 10. */
  datatype ToolSelection = ToolSelection(name: string, toolkit: string, relevance: int)

  const MaxRelevance := 10
  const UnknownName := "unknown"

  /** The field constraint `ge=0, le=10` declared on `ToolSelection.relevance`. */
  predicate RelevanceInRange(s: ToolSelection) {
    0 <= s.relevance <= MaxRelevance
  }

  function Min(a: int, b: int): int {
    if a <= b then a else b
  }

  function Max(a: int, b: int): int {
    if a <= b then b else a
  }

  // ---------------------------------------------------------------------------
  // Scoring

  /** `set(user_message.lower().split())` */
  function MessageWords(msg: string): set<string> {
    set w | w in Words(Lower(msg))
  }

  /** How a docstring field renders in an f-string: a missing key gives the
      default `''`, a `None` value gives `"None"`. */
  function DocText(d: DocField): string {
    match d
    case DocMissing => ""
    case DocNone => "None"
    case Doc(s) => s
  }

  /** `f"{tool.get('name', '')} {tool.get('docstring', '')}".lower()` */
  function ToolText(r: Record): string {
    Lower(r.name.GetOr("") + " " + DocText(r.docstring))
  }

  /** The message words that occur in `text`. */
  function MatchedWords(words: set<string>, text: string): set<string> {
    set w | w in words && Contains(text, w)
  }

  /** A tool's score: the number of distinct message words found in its text. */
  function Score(words: set<string>, text: string): nat {
    |MatchedWords(words, text)|
  }

  /** An element of `scored_tools`: a tool and its score. */
  datatype Scored = Scored(tool: Record, score: nat)

  /** `scored_tools` before sorting: every tool with its score, in input order. */
  function ScoreAll(words: set<string>, tools: seq<Record>): seq<Scored> {
    seq(|tools|, i requires 0 <= i < |tools| => Scored(tools[i], Score(words, ToolText(tools[i]))))
  }

  // ---------------------------------------------------------------------------
  // Sorting: `scored_tools.sort(key=lambda x: x[1], reverse=True)`

  /** Inserts `x` into `s`, sorted by descending score, after every element with a strictly higher score. */
  function InsertDesc(x: Scored, s: seq<Scored>): seq<Scored>
    decreases |s|
  {
    if s == [] || x.score >= s[0].score then [x] + s
    else [s[0]] + InsertDesc(x, s[1..])
  }

  /** Python's stable sort by score with `reverse=True`. */
  function SortByScoreDesc(s: seq<Scored>): seq<Scored>
    decreases |s|
  {
    if s == [] then [] else InsertDesc(s[0], SortByScoreDesc(s[1..]))
  }

  /** Scores do not increase along the sequence. */
  predicate SortedDesc(s: seq<Scored>) {
    forall i, j :: 0 <= i < j < |s| ==> s[i].score >= s[j].score
  }

  /** The elements of `s` whose score is `v`, in order. */
  function WithScore(s: seq<Scored>, v: nat): seq<Scored>
    decreases |s|
  {
    if s == [] then []
    else (if s[0].score == v then [s[0]] else []) + WithScore(s[1..], v)
  }

  // ---------------------------------------------------------------------------
  // Truncation and conversion

  /** Python's slice `s[:n]`: a negative `n` drops that many elements from the end. */
  function SliceTo<T>(s: seq<T>, n: int): (r: seq<T>)
    ensures r <= s
    ensures n >= |s| ==> r == s
    ensures 0 <= n <= |s| ==> |r| == n
    ensures -|s| <= n < 0 ==> r + s[|s| + n..] == s
    ensures n < -|s| ==> r == []
  {
    if n >= 0 then s[..Min(n, |s|)] else s[..Max(0, |s| + n)]
  }

  /** `min(score * 2, 10)` */
  function Relevance(score: nat): int {
    Min(score * 2, MaxRelevance)
  }

  /** The `ToolSelection` built for one kept tool. */
  function Selection(st: Scored): ToolSelection {
    ToolSelection(st.tool.name.GetOr(UnknownName), st.tool.toolkit.GetOr(DefaultLabel), Relevance(st.score))
  }

  function ToSelections(s: seq<Scored>): seq<ToolSelection> {
    seq(|s|, i requires 0 <= i < |s| => Selection(s[i]))
  }

  /** `scored_tools` after the sort. */
  function Ranked(msg: string, tools: seq<Record>): seq<Scored> {
    SortByScoreDesc(ScoreAll(MessageWords(msg), tools))
  }

  /** What `_fallback_selection(user_message, available_tools, max_tools)` returns. */
  function Fallback(msg: string, tools: seq<Record>, maxTools: int): seq<ToolSelection> {
    ToSelections(SliceTo(Ranked(msg, tools), maxTools))
  }

  // ---------------------------------------------------------------------------
  // The ranker

  /**
   * `_fallback_selection`: the scoring loops as the source writes them, then
   * the sort, the slice and the conversion.
   */
  method FallbackSelection(userMessage: string, availableTools: seq<Record>, maxTools: int)
    returns (selections: seq<ToolSelection>)
    ensures selections == Fallback(userMessage, availableTools, maxTools)
    ensures maxTools >= 0 ==> |selections| == Min(|availableTools|, maxTools)
    ensures forall i :: 0 <= i < |selections| ==> RelevanceInRange(selections[i])
  {
    var messageWords := MessageWords(userMessage);
    var scoredTools: seq<Scored> := [];
    var i := 0;
    while i < |availableTools|
      invariant 0 <= i <= |availableTools|
      invariant scoredTools == ScoreAll(messageWords, availableTools[..i])
    {
      var tool := availableTools[i];
      var toolText := ToolText(tool);
      var score := 0;
      var remaining := messageWords;
      ghost var matched: set<string> := {};
      while remaining != {}
        invariant remaining <= messageWords
        invariant matched == MatchedWords(messageWords - remaining, toolText)
        invariant score == |matched|
        decreases remaining
      {
        var word :| word in remaining;
        if Contains(toolText, word) {
          score := score + 1;
          matched := matched + {word};
        }
        remaining := remaining - {word};
      }
      assert messageWords - remaining == messageWords;
      scoredTools := scoredTools + [Scored(tool, score)];
      i := i + 1;
    }
    assert availableTools[..i] == availableTools;
    var sorted := SortByScoreDesc(scoredTools);
    var selected := SliceTo(sorted, maxTools);
    selections := ToSelections(selected);
    FallbackLength(userMessage, availableTools, maxTools);
    FallbackRelevance(userMessage, availableTools, maxTools);
  }

  // ---------------------------------------------------------------------------
  // Lemmas about the sort

  lemma {:induction false} InsertDescPermutes(x: Scored, s: seq<Scored>)
    ensures multiset(InsertDesc(x, s)) == multiset(s) + multiset{x}
    ensures |InsertDesc(x, s)| == |s| + 1
    decreases |s|
  {
    if !(s == [] || x.score >= s[0].score) {
      InsertDescPermutes(x, s[1..]);
      assert s == [s[0]] + s[1..];
    }
  }

  lemma {:induction false} InsertDescSorted(x: Scored, s: seq<Scored>)
    requires SortedDesc(s)
    ensures SortedDesc(InsertDesc(x, s))
    decreases |s|
  {
    if !(s == [] || x.score >= s[0].score) {
      var rest := InsertDesc(x, s[1..]);
      InsertDescSorted(x, s[1..]);
      forall k | 0 <= k < |rest| ensures rest[k].score <= s[0].score {
        InsertDescBound(x, s, k);
      }
      SortedCons(s[0], rest);
    }
  }

  lemma InsertDescBound(x: Scored, s: seq<Scored>, k: int)
    requires SortedDesc(s) && s != [] && x.score < s[0].score
    requires 0 <= k < |InsertDesc(x, s[1..])|
    ensures InsertDesc(x, s[1..])[k].score <= s[0].score
  {
    var rest := InsertDesc(x, s[1..]);
    InsertDescPermutes(x, s[1..]);
    assert rest[k] in multiset(rest);
    if rest[k] != x {
      assert rest[k] in multiset(s[1..]);
      var m :| 0 <= m < |s[1..]| && s[1..][m] == rest[k];
      assert s[m + 1] == rest[k];
    }
  }

  lemma SortedCons(e: Scored, rest: seq<Scored>)
    requires SortedDesc(rest)
    requires forall k :: 0 <= k < |rest| ==> rest[k].score <= e.score
    ensures SortedDesc([e] + rest)
  {
  }

  lemma WithScoreCons(e: Scored, s: seq<Scored>, v: nat)
    ensures WithScore([e] + s, v) == (if e.score == v then [e] else []) + WithScore(s, v)
  {
  }

  /** Inserting `x` keeps it ahead of the equal-score elements that follow it. */
  lemma {:induction false} InsertDescKeepsOrder(x: Scored, s: seq<Scored>, v: nat)
    ensures WithScore(InsertDesc(x, s), v) == WithScore([x] + s, v)
    decreases |s|
  {
    if !(s == [] || x.score >= s[0].score) {
      var rest := InsertDesc(x, s[1..]);
      calc {
        WithScore(InsertDesc(x, s), v);
        WithScore([s[0]] + rest, v);
      == { WithScoreCons(s[0], rest, v); }
        (if s[0].score == v then [s[0]] else []) + WithScore(rest, v);
      == { InsertDescKeepsOrder(x, s[1..], v); WithScoreCons(x, s[1..], v); }
        (if s[0].score == v then [s[0]] else []) + ((if x.score == v then [x] else []) + WithScore(s[1..], v));
      ==
        (if x.score == v then [x] else []) + ((if s[0].score == v then [s[0]] else []) + WithScore(s[1..], v));
      == { assert s == [s[0]] + s[1..]; WithScoreCons(s[0], s[1..], v); }
        (if x.score == v then [x] else []) + WithScore(s, v);
      == { WithScoreCons(x, s, v); }
        WithScore([x] + s, v);
      }
    }
  }

  /** The sort returns a permutation of its input. */
  lemma {:induction false} SortPermutes(s: seq<Scored>)
    ensures multiset(SortByScoreDesc(s)) == multiset(s)
    ensures |SortByScoreDesc(s)| == |s|
    decreases |s|
  {
    if s != [] {
      SortPermutes(s[1..]);
      InsertDescPermutes(s[0], SortByScoreDesc(s[1..]));
      assert s == [s[0]] + s[1..];
    }
  }

  /** The sort orders by non-increasing score. */
  lemma {:induction false} SortIsSorted(s: seq<Scored>)
    ensures SortedDesc(SortByScoreDesc(s))
    decreases |s|
  {
    if s != [] {
      SortIsSorted(s[1..]);
      InsertDescSorted(s[0], SortByScoreDesc(s[1..]));
    }
  }

  /** The sort is stable: elements of equal score keep their input order. */
  lemma {:induction false} SortIsStable(s: seq<Scored>, v: nat)
    ensures WithScore(SortByScoreDesc(s), v) == WithScore(s, v)
    decreases |s|
  {
    if s != [] {
      var rest := SortByScoreDesc(s[1..]);
      calc {
        WithScore(SortByScoreDesc(s), v);
        WithScore(InsertDesc(s[0], rest), v);
      == { InsertDescKeepsOrder(s[0], rest, v); }
        WithScore([s[0]] + rest, v);
      == { WithScoreCons(s[0], rest, v); SortIsStable(s[1..], v); }
        (if s[0].score == v then [s[0]] else []) + WithScore(s[1..], v);
      == { assert s == [s[0]] + s[1..]; WithScoreCons(s[0], s[1..], v); }
        WithScore(s, v);
      }
    }
  }

  // ---------------------------------------------------------------------------
  // Lemmas about scores

  /** `Contains` agrees with "occurs somewhere in the text", so a score counts
      the distinct message words that occur in the tool's text. */
  lemma ScoreCountsOccurringWords(words: set<string>, text: string)
    ensures Score(words, text) == |(set w | w in words && (exists i :: OccursAt(text, w, i)))|
  {
    forall w ensures Contains(text, w) <==> exists i :: OccursAt(text, w, i) {
      ContainsIsSubstring(text, w);
    }
    assert MatchedWords(words, text) == set w | w in words && (exists i :: OccursAt(text, w, i));
  }

  lemma SubsetCard<T>(a: set<T>, b: set<T>)
    requires a <= b
    ensures |a| <= |b|
  {
    assert b == a + (b - a);
  }

  /** A score never exceeds the number of distinct message words. */
  lemma ScoreAtMostWordCount(words: set<string>, text: string)
    ensures Score(words, text) <= |words|
  {
    SubsetCard(MatchedWords(words, text), words);
  }

  /** An empty or all-whitespace message has no words, so every score is 0. */
  lemma BlankMessageScoresZero(msg: string, text: string)
    requires AllSpace(msg)
    ensures MessageWords(msg) == {}
    ensures Score(MessageWords(msg), text) == 0
  {
    assert AllSpace(Lower(msg));
    WordsEmptyIff(Lower(msg));
  }

  /**
   * Repeating one of the message's words adds a word to the split but not to
   * the word set, so no score changes.
   */
  lemma RepeatedWordNoGain(msg: string, w: string, text: string)
    requires w in Words(Lower(msg))
    ensures Words(Lower(msg + " " + w)) == Words(Lower(msg)) + [w]
    ensures MessageWords(msg + " " + w) == MessageWords(msg)
    ensures Score(MessageWords(msg + " " + w), text) == Score(MessageWords(msg), text)
  {
    WordsWellFormed(Lower(msg));
    WordsNoUpper(Lower(msg));
    LowerOfNoUpper(w);
    LowerAppend(msg + " ", w);
    LowerAppend(msg, " ");
    assert Lower(" ") == " ";
    WordsJoin(Lower(msg), ' ', w);
    assert Lower(msg + " " + w) == Lower(msg) + [' '] + w;
    WordsOfWord(w);
  }

  // ---------------------------------------------------------------------------
  // Lemmas about the fallback result

  /**
   * `Ranked` is the scored input list, stable-sorted by score, highest first.
   */
  lemma RankedIsStableSort(msg: string, tools: seq<Record>)
    ensures multiset(Ranked(msg, tools)) == multiset(ScoreAll(MessageWords(msg), tools))
    ensures SortedDesc(Ranked(msg, tools))
    ensures forall v: nat :: WithScore(Ranked(msg, tools), v) == WithScore(ScoreAll(MessageWords(msg), tools), v)
  {
    var s := ScoreAll(MessageWords(msg), tools);
    SortPermutes(s);
    SortIsSorted(s);
    forall v: nat ensures WithScore(Ranked(msg, tools), v) == WithScore(s, v) {
      SortIsStable(s, v);
    }
  }

  /** The fallback keeps `min(len(available_tools), max_tools)` tools for a
      non-negative `max_tools`, and Python's slice length for a negative one. */
  lemma FallbackLength(msg: string, tools: seq<Record>, maxTools: int)
    ensures |Fallback(msg, tools, maxTools)| ==
      if maxTools >= 0 then Min(|tools|, maxTools) else Max(0, |tools| + maxTools)
    ensures |Fallback(msg, tools, maxTools)| <= |tools|
  {
    SortPermutes(ScoreAll(MessageWords(msg), tools));
  }

  /**
   * Selection `i` is ranked tool `i`: its name (or "unknown"), its toolkit
   * (or "default") and relevance `min(2 * score, 10)`, which lies in 0..10.
   */
  lemma FallbackFields(msg: string, tools: seq<Record>, maxTools: int, i: int)
    requires 0 <= i < |Fallback(msg, tools, maxTools)|
    ensures i < |Ranked(msg, tools)|
    ensures var st := Ranked(msg, tools)[i]; var sel := Fallback(msg, tools, maxTools)[i];
      && sel.name == st.tool.name.GetOr("unknown")
      && sel.toolkit == st.tool.toolkit.GetOr("default")
      && sel.relevance == Min(2 * st.score, 10)
      && RelevanceInRange(sel)
  {
  }

  /** Every relevance lies in 0..10, and relevances do not increase along the list. */
  lemma FallbackRelevance(msg: string, tools: seq<Record>, maxTools: int)
    ensures forall i :: 0 <= i < |Fallback(msg, tools, maxTools)| ==>
      RelevanceInRange(Fallback(msg, tools, maxTools)[i])
    ensures forall i, j :: 0 <= i < j < |Fallback(msg, tools, maxTools)| ==>
      Fallback(msg, tools, maxTools)[i].relevance >= Fallback(msg, tools, maxTools)[j].relevance
  {
    var r := Ranked(msg, tools);
    var kept := SliceTo(r, maxTools);
    SortIsSorted(ScoreAll(MessageWords(msg), tools));
    forall i, j | 0 <= i < j < |kept|
      ensures Selection(kept[i]).relevance >= Selection(kept[j]).relevance
    {
      assert kept[i] == r[i] && kept[j] == r[j];
    }
  }

  /**
   * Top-k: the kept tools and the dropped ones together are exactly the scored
   * input, and no dropped tool scores higher than a kept one.
   */
  lemma FallbackTopK(msg: string, tools: seq<Record>, maxTools: int)
    ensures var r := Ranked(msg, tools); var kept := SliceTo(r, maxTools);
      && ToSelections(kept) == Fallback(msg, tools, maxTools)
      && multiset(kept) + multiset(r[|kept|..]) == multiset(ScoreAll(MessageWords(msg), tools))
      && forall i, j :: 0 <= i < |kept| <= j < |r| ==> r[j].score <= kept[i].score
  {
    var s := ScoreAll(MessageWords(msg), tools);
    var r := Ranked(msg, tools);
    var kept := SliceTo(r, maxTools);
    SortPermutes(s);
    SortIsSorted(s);
    assert r == kept + r[|kept|..];
  }

  /** A blank message gives every kept tool relevance 0, in input order. */
  lemma BlankMessageKeepsInputOrder(msg: string, tools: seq<Record>, maxTools: int)
    requires AllSpace(msg)
    ensures forall i :: 0 <= i < |Fallback(msg, tools, maxTools)| ==>
      Fallback(msg, tools, maxTools)[i].relevance == 0
    ensures Ranked(msg, tools) == ScoreAll(MessageWords(msg), tools)
  {
    var s := ScoreAll(MessageWords(msg), tools);
    forall i | 0 <= i < |s| ensures s[i].score == 0 {
      BlankMessageScoresZero(msg, ToolText(tools[i]));
    }
    AllZeroSortIsIdentity(s);
  }

  lemma {:induction false} AllZeroSortIsIdentity(s: seq<Scored>)
    requires forall i :: 0 <= i < |s| ==> s[i].score == 0
    ensures SortByScoreDesc(s) == s
    decreases |s|
  {
    if s != [] {
      AllZeroSortIsIdentity(s[1..]);
      assert s == [s[0]] + s[1..];
    }
  }
}
