/**
 * The vector-store RAG pipeline (src/nexusmind/rag/nexus_rag.py): retrieval
 * through the brain's vector store, a prompt around a fixed sensor-log
 * context, one chat completion, and one history entry.
 */
module SrcRag {
  import opened Records
  import opened Text
  import opened Endpoint
  import opened VectorIndex
  import opened Storage
  import opened Brains

  /** The sensor log that every prompt carries, whatever was retrieved. */
  const InterviewContext: string :=
    "2025-09-05 14:32:15.123 INFO [Sensor: CB-Motor-01] Status: OK, Speed: 1.2 m/s, Temp: 55C\n" +
    "2025-09-05 14:32:16.456 INFO [Sensor: CB-Scale-01] Status: OK, Weight: 2.5 kg, PackageID: PKG-AX123\n" +
    "2025-09-05 14:32:17.789 WARN [Sensor: CB-PhotoEye-02] Status: OBSTRUCTED, Duration: 3.2s, RetryCount: 1, Details: Possible package jam near junction B.\n" +
    "2025-09-05 14:32:18.123 INFO [Sensor: CB-Motor-01] Status: OK, Speed: 1.2 m/s, Temp: 56C\n" +
    "2025-09-05 14:32:19.345 ERROR [Sensor: CB-Divert-03] Status: FAILED, ErrorCode: E502, Attempt: 3, Msg: Sorter arm failed to actuate. Maintenance required.\n" +
    "2025-09-05 14:32:20.678 INFO [Sensor: CB-Scale-02] Status: OK, Weight: 1.8 kg, PackageID: PKG-BY456\n" +
    "2025-09-05 14:32:21.901 INFO [Sensor: CB-Motor-02] Status: OK, Speed: 1.5 m/s, Temp: 60C\n" +
    "2025-09-05 14:32:22.234 WARN [Sensor: CB-PhotoEye-02] Status: CLEAR, Duration: 4.7s, RetryCount: 1, Details: Obstruction cleared, resuming normal operation.\n" +
    "2025-09-05 14:32:23.567 INFO [Sensor: CB-Motor-01] Status: OK, Speed: 1.2 m/s, Temp: 57C\n" +
    "2025-09-05 14:32:24.890 INFO [SystemController] Action: Rerouting packages from Diverter-03 to backup lane.\n" +
    "2025-09-05 14:32:25.123 INFO [Sensor: CB-Scale-01] Status: OK, Weight: 3.1 kg, PackageID: PKG-CZ789\n" +
    "2025-09-05 14:32:26.456 ERROR [Sensor: CB-Divert-03] Status: OFFLINE, ErrorCode: E502, Msg: Service locked out. Awaiting manual reset."

  /** Separates retrieved contents: a backslash followed by 'n', two characters, not a line break. */
  const EscapedNewline := "\\n"

  const RetrievedHeader := "\\n\\n--- (Content retrieved from vector store) ---\\n"
  const PromptHead := "Based on the following context:\n---\n"
  const PromptRule := "\n---\n\n"
  const AnswerCue := "Please answer the question: "
  const NoVectorStore := "Vector store not initialized in Brain."
  const NoEndpoint := "LLM endpoint not initialized in Brain."

  /** The default `k` of `similarity_search`. */
  const DefaultK := 5

  /**
   * `_generate_prompt` with the fixed context as a parameter. The parts are
   * grouped as header and context, retrieved section and rule, question; the
   * string is the one the source's template yields.
   */
  function Prompt(context: string, question: string, contextChunks: seq<Chunk>): (prompt: string)
  {
    var retrieved := Join(EscapedNewline, Contents(contextChunks));
    var extra := if retrieved != [] then RetrievedHeader + retrieved else "";
    (PromptHead + context) + (extra + PromptRule) + (AnswerCue + question)
  }

  /** `_generate_prompt`. */
  function GeneratePrompt(question: string, contextChunks: seq<Chunk>): string {
    Prompt(InterviewContext, question, contextChunks)
  }

  /** The prompt opens with the header and the fixed sensor log, and closes with the question. */
  lemma PromptFrame(context: string, question: string, contextChunks: seq<Chunk>)
    ensures StartsWith(Prompt(context, question, contextChunks), PromptHead + context)
    ensures EndsWith(Prompt(context, question, contextChunks), AnswerCue + question)
  {
    var retrieved := Join(EscapedNewline, Contents(contextChunks));
    var extra := if retrieved != [] then RetrievedHeader + retrieved else "";
    ConcatEnds(PromptHead + context, extra + PromptRule, AnswerCue + question);
  }

  /** Every retrieved chunk's content appears in the prompt. */
  lemma PromptContainsChunk(context: string, question: string, contextChunks: seq<Chunk>, i: nat)
    requires i < |contextChunks|
    ensures Contains(Prompt(context, question, contextChunks), contextChunks[i].content)
  {
    var contents := Contents(contextChunks);
    var retrieved := Join(EscapedNewline, contents);
    var pat := contextChunks[i].content;
    var prompt := Prompt(context, question, contextChunks);
    JoinContains(EscapedNewline, contents, i);
    ContainsIff(retrieved, pat);
    var at :| OccursAt(retrieved, pat, at);
    if retrieved == [] {
      assert OccursAt(prompt, pat, 0);
      OccursContains(prompt, pat, 0);
    } else {
      ContainsInSection(PromptHead + context, RetrievedHeader, retrieved, PromptRule, AnswerCue + question, pat, at);
    }
  }

  /** An occurrence inside a section's body is one in the text that surrounds the section. */
  lemma ContainsInSection(front: string, header: string, body: string, rule: string, back: string, pat: string, at: int)
    requires OccursAt(body, pat, at)
    ensures Contains(front + (header + body + rule) + back, pat)
  {
    OccursInMiddle(header, body, rule, pat, at);
    OccursInMiddle(front, header + body + rule, back, pat, |header| + at);
    OccursContains(front + (header + body + rule) + back, pat, |front| + |header| + at);
  }

  /**
   * The retrieved section is added exactly when the joined contents are
   * non-empty: unless nothing was retrieved or the one retrieved chunk is
   * empty, the prompt is longer than the bare template.
   */
  lemma RetrievedSectionIff(context: string, question: string, contextChunks: seq<Chunk>)
    ensures Prompt(context, question, contextChunks) == (PromptHead + context) + PromptRule + (AnswerCue + question)
      <==> |contextChunks| == 0 || (|contextChunks| == 1 && contextChunks[0].content == [])
  {
    var contents := Contents(contextChunks);
    JoinEmpty(EscapedNewline, contents);
    if |contextChunks| == 1 && contextChunks[0].content == [] {
      assert contents == [[]];
    }
    if contents == [[]] {
      assert contextChunks[0].content == [];
    }
    var retrieved := Join(EscapedNewline, contents);
    if retrieved != [] {
      assert |Prompt(context, question, contextChunks)| > |(PromptHead + context) + PromptRule + (AnswerCue + question)|;
    } else {
      assert "" + PromptRule == PromptRule;
    }
  }

  /** Retrieved contents are separated by the two characters '\' and 'n', never by a line break. */
  lemma RetrievedSeparator(context: string, question: string, a: Chunk, b: Chunk)
    requires a.content != []
    ensures Contains(Prompt(context, question, [a, b]), a.content + ['\\', 'n'] + b.content)
  {
    var contents := Contents([a, b]);
    assert contents == [a.content, b.content];
    var retrieved := Join(EscapedNewline, contents);
    assert contents[1..] == [b.content];
    assert retrieved == a.content + EscapedNewline + b.content;
    assert OccursAt(retrieved, retrieved, 0);
    ContainsInSection(PromptHead + context, RetrievedHeader, retrieved, PromptRule, AnswerCue + question, retrieved, 0);
  }

  class NexusRAG {
    const brain: Brain

    constructor(brain: Brain)
      ensures this.brain == brain
    {
      this.brain := brain;
    }

    /**
     * `generate_answer`: fails without a vector store, or with the search's
     * own error; otherwise builds the prompt from the `k = 5` search for the
     * question, fails without an endpoint, and else sends the prompt as one
     * user message, appends exactly one history entry and returns the reply
     * verbatim. On every failure the history is unchanged.
     */
    method GenerateAnswer(question: string) returns (r: Result<string, string>)
      modifies brain
      ensures brain.vectorStore == old(brain.vectorStore) && brain.llmEndpoint == old(brain.llmEndpoint)
      ensures brain.name == old(brain.name)
      ensures brain.vectorStore == null ==> r == Err(NoVectorStore)
      ensures r.Err? ==> brain.history == old(brain.history)
      ensures brain.vectorStore != null ==>
        var store := brain.vectorStore;
        var found := Search(store.index, store.indexToChunk, store.endpoint.embedding, store.rank, question, DefaultK);
        && (found.Err? ==> r == Err(found.error))
        && (found.Ok? && brain.llmEndpoint.None? ==> r == Err(NoEndpoint))
        && (found.Ok? && brain.llmEndpoint.Some? ==>
              && r == Ok(brain.llmEndpoint.value.chatCompletion([Message("user", GeneratePrompt(question, found.value))]))
              && brain.history == old(brain.history) + [Exchange(question, r.value)])
    {
      if brain.vectorStore == null {
        return Err(NoVectorStore);
      }
      var found := brain.vectorStore.SimilaritySearch(question, DefaultK);
      if found.Err? {
        return Err(found.error);
      }
      var prompt := GeneratePrompt(question, found.value);
      var messages := [Message("user", prompt)];
      if brain.llmEndpoint.None? {
        return Err(NoEndpoint);
      }
      var answer := brain.llmEndpoint.value.chatCompletion(messages);
      brain.history := brain.history + [Exchange(question, answer)];
      return Ok(answer);
    }
  }
}
