/** The keyword mode classifier of evaluator.py: every mode scores the
    number of its trigger phrases found in the lower-cased, trimmed input,
    and the first mode with the best positive score wins. */
module Evaluator {
  import opened Strings

  /** MODE_KEYWORDS in its insertion order: concise, detailed, creative,
      technical.  Each mode's phrase set is written as a sequence of
      distinct phrases. */
  const Table: seq<(string, seq<string>)> := [
    ("concise", ["brief", "short", "quick", "summary", "tldr", "one line"]),
    ("detailed", ["explain", "deep", "detail", "step by step", "comprehensive", "thorough", "compare"]),
    ("creative", ["story", "poem", "creative", "idea", "brainstorm", "imagine", "fiction"]),
    ("technical", ["code", "python", "bug", "error", "api", "architecture", "algorithm", "database", "optimize"])
  ]

  /** A keyword table: modes in order, each with its trigger phrases. */
  type ModeTable = seq<(string, seq<string>)>

  /** The modes of a table in table order; the ensures only unfolds the
      comprehension for callers. */
  function ModesOf(table: ModeTable): (ms: seq<string>)
    ensures |ms| == |table|
    ensures forall i :: 0 <= i < |table| ==> ms[i] == table[i].0
  {
    seq(|table|, i requires 0 <= i < |table| => table[i].0)
  }

  /** How many of the phrases `ks` occur in `text`. */
  function CountFound(ks: seq<string>, text: string): (n: nat)
    ensures n <= |ks|
  {
    if ks == [] then 0
    else CountFound(ks[..|ks| - 1], text) + (if Contains(text, ks[|ks| - 1]) then 1 else 0)
  }

  /** The score of every mode, in table order; the ensures only unfolds
      the comprehension, and `ScoreCountsPhrases` says what a score means. */
  function Scores(table: ModeTable, text: string): (s: seq<nat>)
    ensures |s| == |table|
    ensures forall i :: 0 <= i < |table| ==> s[i] == CountFound(table[i].1, text)
  {
    seq(|table|, i requires 0 <= i < |table| => CountFound(table[i].1, text))
  }

  /** `b` is where Python's `max(scores, key=scores.get)` stops: a maximal
      score, and the first one. */
  ghost predicate IsFirstMax(s: seq<nat>, b: int) {
    0 <= b < |s|
    && (forall j :: 0 <= j < |s| ==> s[j] <= s[b])
    && (forall j :: 0 <= j < b ==> s[j] < s[b])
  }

  /** The index `max` picks: scanning left to right, a later entry replaces
      the current best only when it is strictly larger. */
  function FirstMax(s: seq<nat>): (b: nat)
    requires |s| > 0
    ensures IsFirstMax(s, b)
  {
    if |s| == 1 then 0
    else
      var b := FirstMax(s[..|s| - 1]);
      assert forall j :: 0 <= j < |s| - 1 ==> s[..|s| - 1][j] == s[j];
      if s[|s| - 1] > s[b] then |s| - 1 else b
  }

  /** The classifier over any non-empty keyword table. */
  function Classify(table: ModeTable, userInput: string, fallback: string): string
    requires |table| > 0
  {
    var text := Trim(Lower(userInput));
    if text == [] then fallback
    else
      var scores := Scores(table, text);
      var best := FirstMax(scores);
      if scores[best] > 0 then table[best].0 else fallback
  }

  /** `choose_mode(user_input, fallback)` as a value. */
  function ModeChoice(userInput: string, fallback: string): string {
    Classify(Table, userInput, fallback)
  }

  /** `choose_mode`: a `scores` table filled by nested loops over modes and
      phrases, then the first maximal entry. */
  method ChooseMode(userInput: string, fallback: string) returns (mode: string)
    ensures mode == ModeChoice(userInput, fallback)
  {
    mode := ChooseModeIn(Table, userInput, fallback);
  }

  /** The body of `choose_mode`, over the table it reads. */
  method ChooseModeIn(table: ModeTable, userInput: string, fallback: string) returns (mode: string)
    requires |table| > 0
    ensures mode == Classify(table, userInput, fallback)
  {
    var text := Trim(Lower(userInput));
    if text == [] {
      return fallback;
    }
    var scores: seq<nat> := [];
    var m := 0;
    while m < |table|
      invariant 0 <= m <= |table| && |scores| == m
      invariant forall i :: 0 <= i < m ==> scores[i] == CountFound(table[i].1, text)
    {
      var score := CountPhrases(table[m].1, text);
      scores := scores + [score];
      m := m + 1;
    }
    assert scores == Scores(table, text);
    var best := BestIndex(scores);
    mode := if scores[best] > 0 then table[best].0 else fallback;
  }

  /** The inner loop of `choose_mode`: one mode's score, raised by one for
      every phrase that occurs in the text. */
  method CountPhrases(keywords: seq<string>, text: string) returns (score: nat)
    ensures score == CountFound(keywords, text)
  {
    score := 0;
    var k := 0;
    while k < |keywords|
      invariant 0 <= k <= |keywords|
      invariant score == CountFound(keywords[..k], text)
    {
      assert keywords[..k + 1][..k] == keywords[..k];
      if Contains(text, keywords[k]) {
        score := score + 1;
      }
      k := k + 1;
    }
    assert keywords[..k] == keywords;
  }

  /** `max(scores, key=scores.get)` over the scores in table order. */
  method BestIndex(scores: seq<nat>) returns (best: nat)
    requires |scores| > 0
    ensures best == FirstMax(scores)
  {
    best := 0;
    var i := 1;
    while i < |scores|
      invariant 1 <= i <= |scores|
      invariant best == FirstMax(scores[..i])
    {
      assert scores[..i + 1][..i] == scores[..i];
      if scores[i] > scores[best] {
        best := i;
      }
      i := i + 1;
    }
    assert scores[..i] == scores;
  }

  // Properties of the classifier

  /** Phrases listed without repetition, as in a Python set. */
  ghost predicate Distinct(ks: seq<string>) {
    forall i, j :: 0 <= i < j < |ks| ==> ks[i] != ks[j]
  }

  /** The phrases of `ks` that occur in `text`. */
  ghost function FoundSet(ks: seq<string>, text: string): set<string> {
    set k | k in ks && Contains(text, k)
  }

  /** The phrases of `ks` that are contiguous slices of `text`. */
  ghost function SliceSet(ks: seq<string>, text: string): set<string> {
    set k | k in ks && exists p :: OccursAt(text, k, p)
  }

  /** A mode's score is the number of distinct phrases of its set that
      occur in the text. */
  lemma {:induction false} CountFoundIsSetSize(ks: seq<string>, text: string)
    requires Distinct(ks)
    ensures CountFound(ks, text) == |FoundSet(ks, text)|
  {
    if ks != [] {
      var init, last := ks[..|ks| - 1], ks[|ks| - 1];
      assert Distinct(init);
      CountFoundIsSetSize(init, text);
      assert last !in init;
      assert last !in FoundSet(init, text);
      assert ks == init + [last];
      var extra: set<string> := if Contains(text, last) then {last} else {};
      assert FoundSet(ks, text) == FoundSet(init, text) + extra;
      assert |FoundSet(init, text) + extra| == |FoundSet(init, text)| + |extra|;
    }
  }

  /** Every phrase set of MODE_KEYWORDS is free of repetitions. */
  lemma TablePhrasesDistinct()
    ensures forall i :: 0 <= i < |Table| ==> Distinct(Table[i].1)
  {
  }

  /** For MODE_KEYWORDS: the score of mode `i` counts exactly its phrases
      that are contiguous slices of the normalised text. */
  lemma ScoreCountsPhrases(text: string, i: int)
    requires 0 <= i < |Table|
    ensures Scores(Table, text)[i] == |SliceSet(Table[i].1, text)|
  {
    TablePhrasesDistinct();
    CountFoundIsSetSize(Table[i].1, text);
    forall k ensures Contains(text, k) <==> exists p :: OccursAt(text, k, p) {
      ContainsIffSlice(text, k);
    }
    assert FoundSet(Table[i].1, text) == SliceSet(Table[i].1, text);
  }

  /** The result is the fallback when the input is blank or nothing scores;
      otherwise it is the first mode with the best score, which is positive. */
  lemma ClassifyChoosesFirstBest(table: ModeTable, userInput: string, fallback: string)
    requires |table| > 0
    ensures var text := Trim(Lower(userInput));
      (text == [] || forall i :: 0 <= i < |table| ==> Scores(table, text)[i] == 0)
      ==> Classify(table, userInput, fallback) == fallback
    ensures var text := Trim(Lower(userInput));
      (text != [] && exists i :: 0 <= i < |table| && Scores(table, text)[i] > 0)
      ==> exists b :: IsFirstMax(Scores(table, text), b) && Scores(table, text)[b] > 0
                      && Classify(table, userInput, fallback) == table[b].0
  {
    var text := Trim(Lower(userInput));
    if text != [] {
      var b := FirstMax(Scores(table, text));
      if exists i :: 0 <= i < |table| && Scores(table, text)[i] > 0 {
        assert Scores(table, text)[b] > 0;
      }
    }
  }

  /** Only one index is the first maximum, so the tie-break is determined. */
  lemma FirstMaxUnique(s: seq<nat>, a: int, b: int)
    requires IsFirstMax(s, a) && IsFirstMax(s, b)
    ensures a == b
  {
    assert s[a] <= s[b] && s[b] <= s[a];
  }

  /** Among modes sharing the best score, the one earliest in the table is
      chosen. */
  lemma TieGoesToEarliest(table: ModeTable, userInput: string, fallback: string, i: int)
    requires |table| > 0 && Trim(Lower(userInput)) != []
    requires IsFirstMax(Scores(table, Trim(Lower(userInput))), i)
    requires Scores(table, Trim(Lower(userInput)))[i] > 0
    ensures Classify(table, userInput, fallback) == table[i].0
  {
    var s := Scores(table, Trim(Lower(userInput)));
    FirstMaxUnique(s, FirstMax(s), i);
  }

  /** The result is the fallback or one of the table's modes. */
  lemma ClassifyResultRange(table: ModeTable, userInput: string, fallback: string)
    requires |table| > 0
    ensures Classify(table, userInput, fallback) == fallback
            || Classify(table, userInput, fallback) in ModesOf(table)
  {
  }

  /** Whitespace-only (or empty) input gives the fallback without scoring. */
  lemma BlankInputFallback(userInput: string, fallback: string)
    requires forall i :: 0 <= i < |userInput| ==> IsSpace(userInput[i])
    ensures ModeChoice(userInput, fallback) == fallback
  {
    assert forall i :: 0 <= i < |userInput| ==> IsSpace(Lower(userInput)[i]);
    TrimFacts(Lower(userInput));
  }

  /** Classification ignores letter case. */
  lemma CaseInsensitive(userInput: string, fallback: string)
    ensures ModeChoice(userInput, fallback) == ModeChoice(Lower(userInput), fallback)
  {
    LowerIdempotent(userInput);
  }

  /** Between detailed and technical on an equal best score, detailed wins,
      being earlier in the table: e.g. "explain ... in detail" against
      "architecture" and "database". */
  lemma DetailedWinsTieWithTechnical(userInput: string, fallback: string)
    requires Trim(Lower(userInput)) != []
    requires var s := Scores(Table, Trim(Lower(userInput)));
      s[1] > 0 && s[1] == s[3] && s[0] < s[1] && s[2] <= s[1]
    ensures ModeChoice(userInput, fallback) == "detailed"
  {
    var s := Scores(Table, Trim(Lower(userInput)));
    assert IsFirstMax(s, 1);
    TieGoesToEarliest(Table, userInput, fallback, 1);
  }

  /** One phrase found is enough for a positive score. */
  lemma {:induction false} FoundPhraseScores(ks: seq<string>, text: string, i: int)
    requires 0 <= i < |ks| && Contains(text, ks[i])
    ensures CountFound(ks, text) > 0
    decreases |ks|
  {
    if i < |ks| - 1 {
      assert ks[..|ks| - 1][i] == ks[i];
      FoundPhraseScores(ks[..|ks| - 1], text, i);
    }
  }

  /** Phrases match inside words too: "api" makes "rapid" score for
      technical. */
  lemma PhraseMatchesInsideWord()
    ensures Scores(Table, "rapid")[3] > 0
  {
    assert OccursAt("rapid", "api", 1);
    ContainsIffSlice("rapid", "api");
    assert Table[3].1[4] == "api";
    FoundPhraseScores(Table[3].1, "rapid", 4);
  }
}
