/**
 * The keyword-overlap RAG pipeline (core/nexusmind/rag/nexus_rag.py): chunks
 * of a fixed knowledge base are scored by the number of distinct lowercase
 * words they share with the question, the positive ones are stably sorted
 * by descending score, and the best three go into the prompt.
 */
module CoreRag {
  import opened Records
  import opened Text
  import opened Endpoint
  import opened Storage
  import opened Brains
  import opened Seqs

  /** How many chunks `_retrieve` returns at most. */
  const MaxResults := 3

  const NoEndpoint := "LLM endpoint not initialized in Brain."
  const PromptHead := "Based on the following context:\n---\n\n"
  const PromptRule := "\n---\n\n\n"
  const AnswerCue := "Please answer the question: "

  /** An entry `(score, chunk)` of `scored_chunks`. */
  datatype Scored = Scored(score: nat, chunk: Chunk)

  /** `len(question_keywords.intersection(chunk_keywords))`. */
  function Score(questionKeywords: set<string>, content: string): nat {
    |questionKeywords * Keywords(content)|
  }

  /** A chunk scores above zero exactly when it shares a lowercased word with the question. */
  lemma ScorePositive(questionKeywords: set<string>, content: string)
    ensures Score(questionKeywords, content) > 0 <==> exists w :: w in questionKeywords && w in Keywords(content)
  {
    var common := questionKeywords * Keywords(content);
    if Score(questionKeywords, content) > 0 {
      var w :| w in common;
    } else {
      assert common == {};
      forall w | w in questionKeywords ensures w !in Keywords(content) {
        assert w !in common;
      }
    }
  }

  /** The scoring loop: the chunks with a positive score, paired with it, in knowledge-base order. */
  function ScoreChunks(knowledgeBase: seq<Chunk>, questionKeywords: set<string>): (r: seq<Scored>)
    ensures |r| <= |knowledgeBase|
    ensures forall i :: 0 <= i < |r| ==>
      r[i].score > 0 && r[i].score == Score(questionKeywords, r[i].chunk.content) && r[i].chunk in knowledgeBase
    decreases |knowledgeBase|
  {
    if knowledgeBase == [] then []
    else
      var init := knowledgeBase[..|knowledgeBase| - 1];
      var last := knowledgeBase[|knowledgeBase| - 1];
      var prev := ScoreChunks(init, questionKeywords);
      assert forall c :: c in init ==> c in knowledgeBase;
      var s := Score(questionKeywords, last.content);
      if s > 0 then prev + [Scored(s, last)] else prev
  }

  /** Every chunk with a positive score is kept. */
  lemma {:induction false} ScoreChunksComplete(knowledgeBase: seq<Chunk>, questionKeywords: set<string>, i: nat)
    requires i < |knowledgeBase| && Score(questionKeywords, knowledgeBase[i].content) > 0
    ensures Scored(Score(questionKeywords, knowledgeBase[i].content), knowledgeBase[i]) in ScoreChunks(knowledgeBase, questionKeywords)
    decreases |knowledgeBase|
  {
    var init := knowledgeBase[..|knowledgeBase| - 1];
    if i < |knowledgeBase| - 1 {
      ScoreChunksComplete(init, questionKeywords, i);
      assert init[i] == knowledgeBase[i];
    }
  }

  /** One turn of the scoring loop: the next chunk is added with its score when that score is positive. */
  lemma ScoreChunksStep(knowledgeBase: seq<Chunk>, i: nat, questionKeywords: set<string>)
    requires i < |knowledgeBase|
    ensures var s := Score(questionKeywords, knowledgeBase[i].content);
      ScoreChunks(knowledgeBase[..i + 1], questionKeywords)
        == ScoreChunks(knowledgeBase[..i], questionKeywords) + if s > 0 then [Scored(s, knowledgeBase[i])] else []
  {
    assert knowledgeBase[..i + 1][..i] == knowledgeBase[..i];
  }

  predicate NonIncreasing(xs: seq<Scored>) {
    forall i, j :: 0 <= i < j < |xs| ==> xs[i].score >= xs[j].score
  }

  /** Inserts `x` after every leading entry whose score is at least its own. */
  function Insert(ys: seq<Scored>, x: Scored): (r: seq<Scored>)
    ensures multiset(r) == multiset(ys) + multiset{x}
    ensures |r| == |ys| + 1
    decreases |ys|
  {
    if ys == [] || ys[0].score < x.score then [x] + ys
    else
      assert ys == [ys[0]] + ys[1..];
      [ys[0]] + Insert(ys[1..], x)
  }

  /** `list.sort(key=score, reverse=True)`: descending and stable, as an insertion sort. */
  function SortDesc(xs: seq<Scored>): (r: seq<Scored>)
    ensures multiset(r) == multiset(xs) && |r| == |xs|
    decreases |xs|
  {
    if xs == [] then []
    else
      assert xs == xs[..|xs| - 1] + [xs[|xs| - 1]];
      Insert(SortDesc(xs[..|xs| - 1]), xs[|xs| - 1])
  }

  /** The entries of score `s`, in order. */
  function WithScore(xs: seq<Scored>, s: nat): seq<Scored>
    decreases |xs|
  {
    if xs == [] then [] else (if xs[0].score == s then [xs[0]] else []) + WithScore(xs[1..], s)
  }

  lemma {:induction false} WithScoreAppend(a: seq<Scored>, b: seq<Scored>, s: nat)
    ensures WithScore(a + b, s) == WithScore(a, s) + WithScore(b, s)
    decreases |a|
  {
    if a == [] {
      assert a + b == b;
    } else {
      var head := if a[0].score == s then [a[0]] else [];
      assert (a + b)[0] == a[0];
      assert (a + b)[1..] == a[1..] + b;
      assert WithScore(a + b, s) == head + WithScore(a[1..] + b, s);
      WithScoreAppend(a[1..], b, s);
      assert WithScore(a, s) == head + WithScore(a[1..], s);
      assert head + (WithScore(a[1..], s) + WithScore(b, s)) == (head + WithScore(a[1..], s)) + WithScore(b, s);
    }
  }

  lemma {:induction false} WithScoreNone(xs: seq<Scored>, s: nat)
    requires forall k :: 0 <= k < |xs| ==> xs[k].score < s
    ensures WithScore(xs, s) == []
    decreases |xs|
  {
    if xs != [] {
      WithScoreNone(xs[1..], s);
    }
  }

  lemma {:induction false} InsertSorted(ys: seq<Scored>, x: Scored)
    requires NonIncreasing(ys)
    ensures NonIncreasing(Insert(ys, x))
    decreases |ys|
  {
    if ys != [] && ys[0].score >= x.score {
      var t := Insert(ys[1..], x);
      InsertSorted(ys[1..], x);
      forall k | 0 <= k < |t| ensures t[k].score <= ys[0].score {
        assert t[k] in multiset(t);
        if t[k] != x {
          assert t[k] in multiset(ys[1..]);
          var m :| 0 <= m < |ys[1..]| && ys[1..][m] == t[k];
          assert ys[m + 1] == t[k];
        }
      }
      assert Insert(ys, x) == [ys[0]] + t;
    }
  }

  lemma {:induction false} InsertStable(ys: seq<Scored>, x: Scored, s: nat)
    requires NonIncreasing(ys)
    ensures WithScore(Insert(ys, x), s) == WithScore(ys, s) + (if x.score == s then [x] else [])
    decreases |ys|
  {
    if ys == [] || ys[0].score < x.score {
      if x.score == s {
        WithScoreNone(ys, s);
      }
      InsertFrontStable(ys, x, s);
    } else {
      InsertStable(ys[1..], x, s);
      InsertBehindStable(ys, x, s);
    }
  }

  /** `x` goes in front: it follows every entry of its score, since there are none. */
  lemma InsertFrontStable(ys: seq<Scored>, x: Scored, s: nat)
    requires ys == [] || ys[0].score < x.score
    requires x.score == s ==> WithScore(ys, s) == []
    ensures WithScore(Insert(ys, x), s) == WithScore(ys, s) + (if x.score == s then [x] else [])
  {
    assert Insert(ys, x) == [x] + ys;
    WithScoreAppend([x], ys, s);
    WithScoreSingle(x, s);
  }

  /** `x` goes behind the head: the head keeps its place. */
  lemma InsertBehindStable(ys: seq<Scored>, x: Scored, s: nat)
    requires ys != [] && ys[0].score >= x.score
    requires WithScore(Insert(ys[1..], x), s) == WithScore(ys[1..], s) + (if x.score == s then [x] else [])
    ensures WithScore(Insert(ys, x), s) == WithScore(ys, s) + (if x.score == s then [x] else [])
  {
    var t := Insert(ys[1..], x);
    assert Insert(ys, x) == [ys[0]] + t;
    WithScoreCons(ys[0], t, s);
    WithScoreCons(ys[0], ys[1..], s);
    assert [ys[0]] + ys[1..] == ys;
    var h := if ys[0].score == s then [ys[0]] else [];
    var rest := WithScore(ys[1..], s);
    var tail := if x.score == s then [x] else [];
    AppendAssoc(h, rest, tail);
  }

  lemma WithScoreCons(y: Scored, t: seq<Scored>, s: nat)
    ensures WithScore([y] + t, s) == (if y.score == s then [y] else []) + WithScore(t, s)
  {
    assert ([y] + t)[0] == y && ([y] + t)[1..] == t;
  }

  lemma WithScoreSingle(x: Scored, s: nat)
    ensures WithScore([x], s) == if x.score == s then [x] else []
  {
    assert [x][1..] == [];
  }

  /** The sort orders by non-increasing score. */
  lemma {:induction false} SortDescSorted(xs: seq<Scored>)
    ensures NonIncreasing(SortDesc(xs))
    decreases |xs|
  {
    if xs != [] {
      SortDescSorted(xs[..|xs| - 1]);
      InsertSorted(SortDesc(xs[..|xs| - 1]), xs[|xs| - 1]);
    }
  }

  /** The sort is stable: the entries of any one score keep their order. */
  lemma {:induction false} SortDescStable(xs: seq<Scored>, s: nat)
    ensures WithScore(SortDesc(xs), s) == WithScore(xs, s)
    decreases |xs|
  {
    if xs != [] {
      var init := xs[..|xs| - 1];
      var last := xs[|xs| - 1];
      SortDescStable(init, s);
      SortDescSorted(init);
      InsertStable(SortDesc(init), last, s);
      assert xs == init + [last];
      WithScoreAppend(init, [last], s);
      assert WithScore([last], s) == (if last.score == s then [last] else []) by {
        assert [last][1..] == [];
      }
    }
  }

  /** The `(score, chunk)` pairs `_retrieve` keeps: the first three of the sorted positive ones. */
  function TopScored(knowledgeBase: seq<Chunk>, question: string): seq<Scored> {
    var sorted := SortDesc(ScoreChunks(knowledgeBase, Keywords(question)));
    sorted[..if |sorted| < MaxResults then |sorted| else MaxResults]
  }

  function ChunksOf(xs: seq<Scored>): (r: seq<Chunk>)
    ensures |r| == |xs| && forall i :: 0 <= i < |xs| ==> r[i] == xs[i].chunk
  {
    seq(|xs|, i requires 0 <= i < |xs| => xs[i].chunk)
  }

  /**
   * At most three results, as many as there are (up to three) chunks sharing
   * a word with the question; each comes from the knowledge base, carries its
   * own score, and shares a word with the question.
   */
  lemma TopScoredRelevant(knowledgeBase: seq<Chunk>, question: string)
    ensures var top := TopScored(knowledgeBase, question);
      var positives := ScoreChunks(knowledgeBase, Keywords(question));
      && |top| == (if |positives| < MaxResults then |positives| else MaxResults)
      && forall i :: 0 <= i < |top| ==>
           && top[i].chunk in knowledgeBase
           && top[i].score == Score(Keywords(question), top[i].chunk.content) > 0
           && exists w :: w in Keywords(question) && w in Keywords(top[i].chunk.content)
  {
    var qk := Keywords(question);
    var positives := ScoreChunks(knowledgeBase, qk);
    var sorted := SortDesc(positives);
    var top := TopScored(knowledgeBase, question);
    forall i | 0 <= i < |top|
      ensures top[i].chunk in knowledgeBase && top[i].score == Score(qk, top[i].chunk.content) > 0
      ensures exists w :: w in qk && w in Keywords(top[i].chunk.content)
    {
      assert top[i] == sorted[i];
      SortedFromPositives(positives, i);
      ScorePositive(qk, top[i].chunk.content);
    }
  }

  /** Every sorted entry is one of the entries sorted. */
  lemma SortedFromPositives(positives: seq<Scored>, i: nat)
    requires i < |SortDesc(positives)|
    ensures SortDesc(positives)[i] in positives
  {
    assert SortDesc(positives)[i] in multiset(SortDesc(positives));
  }

  /** What `_retrieve` returns: at most three chunks of the knowledge base, each sharing a word with the question. */
  lemma RetrievedRelevant(knowledgeBase: seq<Chunk>, question: string)
    ensures var top := ChunksOf(TopScored(knowledgeBase, question));
      && |top| <= MaxResults
      && (forall i :: 0 <= i < |top| ==> top[i] in knowledgeBase && Score(Keywords(question), top[i].content) > 0)
      && (knowledgeBase == [] ==> top == [])
  {
    TopScoredRelevant(knowledgeBase, question);
  }

  /** The results are in non-increasing score order. */
  lemma TopScoredSorted(knowledgeBase: seq<Chunk>, question: string)
    ensures NonIncreasing(TopScored(knowledgeBase, question))
  {
    var positives := ScoreChunks(knowledgeBase, Keywords(question));
    SortDescSorted(positives);
  }

  /** Results of equal score come in knowledge-base order: for each score, they are the first entries of that score. */
  lemma TopScoredStable(knowledgeBase: seq<Chunk>, question: string, s: nat)
    ensures WithScore(TopScored(knowledgeBase, question), s) <= WithScore(ScoreChunks(knowledgeBase, Keywords(question)), s)
  {
    var positives := ScoreChunks(knowledgeBase, Keywords(question));
    var sorted := SortDesc(positives);
    var top := TopScored(knowledgeBase, question);
    var rest := sorted[|top|..];
    assert sorted == top + rest;
    SortDescStable(positives, s);
    WithScoreAppend(top, rest, s);
  }

  /** In a sorted sequence, an entry outside the first `n` scores no higher than any of them. */
  lemma PrefixBest(sorted: seq<Scored>, n: nat, x: Scored, i: nat)
    requires NonIncreasing(sorted) && i < n <= |sorted|
    requires x in multiset(sorted) - multiset(sorted[..n])
    ensures x.score <= sorted[i].score
  {
    var rest := sorted[n..];
    assert sorted == sorted[..n] + rest;
    assert multiset(sorted) == multiset(sorted[..n]) + multiset(rest);
    assert x in multiset(rest);
    var m :| 0 <= m < |rest| && rest[m] == x;
    assert sorted[n + m] == x;
  }

  /** No positively scored chunk left out scores higher than a returned one. */
  lemma TopScoredBest(knowledgeBase: seq<Chunk>, question: string, x: Scored, i: nat)
    requires x in multiset(ScoreChunks(knowledgeBase, Keywords(question))) - multiset(TopScored(knowledgeBase, question))
    requires i < |TopScored(knowledgeBase, question)|
    ensures x.score <= TopScored(knowledgeBase, question)[i].score
  {
    var positives := ScoreChunks(knowledgeBase, Keywords(question));
    var top := TopScored(knowledgeBase, question);
    assert top == SortDesc(positives)[..|top|];
    SortedPrefixBest(positives, top, x, i);
  }

  /** A prefix of the descending sort of `positives` scores at least as high as anything of `positives` it leaves out. */
  lemma SortedPrefixBest(positives: seq<Scored>, top: seq<Scored>, x: Scored, i: nat)
    requires |top| <= |positives| && top == SortDesc(positives)[..|top|]
    requires x in multiset(positives) - multiset(top) && i < |top|
    ensures x.score <= top[i].score
  {
    var sorted := SortDesc(positives);
    SortDescSorted(positives);
    assert multiset(sorted) == multiset(positives);
    PrefixBest(sorted, |top|, x, i);
  }

  /** `_generate_prompt`; the model reads each line break inside the source's literal as a newline character. */
  function GeneratePrompt(question: string, contextChunks: seq<Chunk>): string {
    PromptHead + Join("\n", Contents(contextChunks)) + PromptRule + (AnswerCue + question)
  }

  /** The prompt ends with the question. */
  lemma PromptEnds(question: string, contextChunks: seq<Chunk>)
    ensures EndsWith(GeneratePrompt(question, contextChunks), AnswerCue + question)
  {
    ConcatEnds(PromptHead + Join("\n", Contents(contextChunks)), PromptRule, AnswerCue + question);
  }

  /** The prompt contains every context chunk's content. */
  lemma PromptContainsChunk(question: string, contextChunks: seq<Chunk>, i: nat)
    requires i < |contextChunks|
    ensures Contains(GeneratePrompt(question, contextChunks), contextChunks[i].content)
  {
    var context := Join("\n", Contents(contextChunks));
    var pat := contextChunks[i].content;
    JoinContains("\n", Contents(contextChunks), i);
    ContainsIff(context, pat);
    var at :| OccursAt(context, pat, at);
    OccursInMiddle(PromptHead, context, PromptRule, pat, at);
    OccursInPrefix(PromptHead + context + PromptRule, AnswerCue + question, pat, |PromptHead| + at);
    OccursContains(GeneratePrompt(question, contextChunks), pat, |PromptHead| + at);
  }

  class NexusRAG {
    const brain: Brain
    const knowledgeBase: seq<Chunk>

    /** `knowledge_base or []`. */
    constructor(brain: Brain, knowledgeBase: Option<seq<Chunk>>)
      ensures this.brain == brain
      ensures this.knowledgeBase == if knowledgeBase.Some? then knowledgeBase.value else []
    {
      this.brain := brain;
      this.knowledgeBase := if knowledgeBase.Some? then knowledgeBase.value else [];
    }

    /** `_retrieve`: the chunks of the best (at most three) positive scores; none from an empty knowledge base. */
    method Retrieve(question: string) returns (top: seq<Chunk>)
      ensures top == ChunksOf(TopScored(knowledgeBase, question))
      ensures |top| <= MaxResults
      ensures forall i :: 0 <= i < |top| ==> top[i] in knowledgeBase && Score(Keywords(question), top[i].content) > 0
      ensures knowledgeBase == [] ==> top == []
    {
      var questionKeywords := Keywords(question);
      var scored: seq<Scored> := [];
      var i := 0;
      while i < |knowledgeBase|
        invariant 0 <= i <= |knowledgeBase|
        invariant scored == ScoreChunks(knowledgeBase[..i], questionKeywords)
      {
        var chunk := knowledgeBase[i];
        var score := Score(questionKeywords, chunk.content);
        ScoreChunksStep(knowledgeBase, i, questionKeywords);
        if score > 0 {
          scored := scored + [Scored(score, chunk)];
        }
        i := i + 1;
      }
      assert knowledgeBase[..i] == knowledgeBase;
      var sorted := SortDesc(scored);
      var n := if |sorted| < MaxResults then |sorted| else MaxResults;
      top := ChunksOf(sorted[..n]);
      RetrievedRelevant(knowledgeBase, question);
    }

    /**
     * `generate_answer`: fails without an endpoint, leaving the history
     * alone; otherwise appends exactly one entry and returns the reply verbatim.
     */
    method GenerateAnswer(question: string) returns (r: Result<string, string>)
      modifies brain
      ensures brain.llmEndpoint == old(brain.llmEndpoint) && brain.vectorStore == old(brain.vectorStore)
      ensures brain.name == old(brain.name)
      ensures brain.llmEndpoint.None? ==> r == Err(NoEndpoint) && brain.history == old(brain.history)
      ensures brain.llmEndpoint.Some? ==>
        var prompt := GeneratePrompt(question, ChunksOf(TopScored(knowledgeBase, question)));
        && r == Ok(brain.llmEndpoint.value.chatCompletion([Message("user", prompt)]))
        && brain.history == old(brain.history) + [Exchange(question, r.value)]
    {
      var retrieved := Retrieve(question);
      var prompt := GeneratePrompt(question, retrieved);
      var messages := [Message("user", prompt)];
      if brain.llmEndpoint.None? {
        return Err(NoEndpoint);
      }
      var answer := brain.llmEndpoint.value.chatCompletion(messages);
      brain.history := brain.history + [Exchange(question, answer)];
      return Ok(answer);
    }
  }
}
