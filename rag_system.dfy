/** The consultation orchestration (`ZodiacRAGSystem`) around the external
    retrieval-and-generation chain: binding a chain over the vector store,
    building the sign-specific prompt, the single retry on a weak answer, and
    the shape of the returned payload. The chain itself is an oracle: a fixed
    function from the bound chain and the query to the dictionary it returns. */
module ZodiacRag {
  import opened Wrappers
  import opened PyText
  import opened Calendar
  import opened Errors

  /** `UserProfile`: a birth date, the sign it classifies to, an optional name. */
  datatype UserProfile = UserProfile(birthDate: DateTime, zodiacSign: string, name: Option<string>)

  /** A retrieved passage; only its `page_content` is used. */
  datatype Document = Document(pageContent: string)

  /** The dictionary `qa_chain.invoke` returns: the "result" and
      "source_documents" entries, each `None` when the key is absent. */
  datatype ChainResult = ChainResult(result: Option<string>, sourceDocuments: Option<seq<Document>>)

  /** The FAISS index built from the zodiac document, given by its chunks. */
  datatype VectorStore = VectorStore(chunks: seq<Document>)

  /** The retriever `as_retriever` builds: over a store, a search kind and a result count. */
  datatype Retriever = Retriever(store: VectorStore, searchType: string, k: nat)

  /** The `RetrievalQA` chain: its retriever, chain kind and whether it returns its sources. */
  datatype QaChain = QaChain(retriever: Retriever, chainType: string, returnSourceDocuments: bool)

  /** Number of passages the retriever returns. */
  const RetrievalK: nat := 5

  /** A stripped answer shorter than this is weak and triggers the retry. */
  const WeakAnswerThreshold: nat := 25

  /** The answer reported when the chain's dictionary has no "result" key. */
  const NoInfoAnswer: string := "No relevant info found."

  /** The chain `create_zodiac_specific_retriever` binds over a store:
      similarity search for the five nearest passages, "stuff" chain, sources returned. */
  function ChainFor(store: VectorStore): (chain: QaChain)
    ensures chain.retriever.store == store
    ensures chain.retriever.searchType == "similarity" && chain.retriever.k == RetrievalK == 5
    ensures chain.chainType == "stuff" && chain.returnSourceDocuments
  {
    QaChain(Retriever(store, "similarity", RetrievalK), "stuff", true)
  }

  lemma OccursFront(t: string, after: string)
    ensures Occurs(t, t + after)
  {
    assert OccursAt(t, t + after, 0);
  }

  lemma OccursExtend(t: string, before: string, s: string)
    requires Occurs(t, s)
    ensures Occurs(t, before + s)
  {
    var i :| 0 <= i <= |s| - |t| && OccursAt(t, s, i);
    assert (before + s)[|before| + i..|before| + i + |t|] == s[i..i + |t|];
    assert OccursAt(t, before + s, |before| + i);
  }

  /** The fixed text of the first prompt around the sign and the question. */
  const FirstOpening: string := "\n        I am a "
  const FirstAfterSign: string := " zodiac horoscope. "
  const FirstAfterQuestion: string := "\n\n        Please provide advice specifically tailored to "
  const FirstClosing: string := " zodiac horoscope traits.\n        "

  /** The fixed text of the retry prompt around the sign and the quoted question. */
  const RetryIndent: string := "\n            "
  const RetryOpening: string := RetryIndent + "Provide a detailed and helpful answer **only** for the zodiac sign: "
  const RetryAfterSign: string := ".\n            Original user query: "
  const RetryAfterQuestion: string := "\n\n            If not in the documents, still infer advice based on "
  const RetryClosing: string := "'s general traits.\n            "

  /** The first prompt: the question framed as coming from the sign, asking for sign-specific advice. */
  function EnhancedQuestion(sign: string, question: string): (prompt: string)
    ensures Occurs(sign, prompt) && Occurs(question, prompt)
  {
    var tail := question + (FirstAfterQuestion + (sign + FirstClosing));
    OccursFront(sign, FirstAfterSign + tail);
    OccursExtend(sign, FirstOpening, sign + (FirstAfterSign + tail));
    OccursFront(question, FirstAfterQuestion + (sign + FirstClosing));
    OccursExtend(question, FirstAfterSign, tail);
    OccursExtend(question, sign, FirstAfterSign + tail);
    OccursExtend(question, FirstOpening, sign + (FirstAfterSign + tail));
    FirstOpening + (sign + (FirstAfterSign + tail))
  }

  /** The retry prompt: the answer restricted to the sign, the original question repeated in quotes. */
  function RetryQuestion(sign: string, question: string): (prompt: string)
    ensures Occurs(sign, prompt) && Occurs("\"" + question + "\"", prompt)
  {
    var quoted := "\"" + question + "\"";
    var tail := quoted + (RetryAfterQuestion + (sign + RetryClosing));
    OccursFront(sign, RetryAfterSign + tail);
    OccursExtend(sign, RetryOpening, sign + (RetryAfterSign + tail));
    OccursFront(quoted, RetryAfterQuestion + (sign + RetryClosing));
    OccursExtend(quoted, RetryAfterSign, tail);
    OccursExtend(quoted, sign, RetryAfterSign + tail);
    OccursExtend(quoted, RetryOpening, sign + (RetryAfterSign + tail));
    RetryOpening + (sign + (RetryAfterSign + tail))
  }

  /** The retry sends a query different from every first query, so the chain is really asked again. */
  lemma RetryDiffersFromFirst(sign: string, question: string, sign': string, question': string)
    ensures EnhancedQuestion(sign, question) != RetryQuestion(sign', question')
  {
    var first, retry := EnhancedQuestion(sign, question), RetryQuestion(sign', question');
    assert |FirstOpening| > 9 && FirstOpening[9] == 'I';
    assert RetryIndent[9] == ' ';
    assert RetryOpening[9] == ' ';
    assert first[9] == FirstOpening[9];
    assert retry[9] == RetryOpening[9];
  }

  /** The weak-answer test: no "result", an empty one, or one whose stripped length is below 25. */
  predicate IsWeak(answer: Option<string>) {
    answer.None? || answer.value == [] || |Strip(answer.value)| < WeakAnswerThreshold
  }

  /** A present answer is weak exactly when it has fewer than 25 characters besides the whitespace at its ends. */
  lemma WeakMeansShortCore(s: string)
    ensures IsWeak(Some(s)) <==> |Strip(s)| < WeakAnswerThreshold
  {
  }

  /** An answer with fewer than 25 characters is always weak (a 10-character stub triggers the retry). */
  lemma ShortAnswerIsWeak(s: string)
    requires |s| < WeakAnswerThreshold
    ensures IsWeak(Some(s))
  {
  }

  /** An answer of 25 characters or more with no whitespace at its ends is strong (a 50-character stub does not retry). */
  lemma LongAnswerIsStrong(s: string)
    requires |s| >= WeakAnswerThreshold
    requires !IsSpace(s[0]) && !IsSpace(s[|s| - 1])
    ensures !IsWeak(Some(s))
  {
    StripNoEdgeSpace(s);
  }

  /** The page contents of retrieved documents, in retrieval order. */
  function PageContents(docs: seq<Document>): (texts: seq<string>)
    ensures |texts| == |docs|
    ensures forall i :: 0 <= i < |docs| ==> texts[i] == docs[i].pageContent
  {
    if docs == [] then [] else [docs[0].pageContent] + PageContents(docs[1..])
  }

  /** The dictionary `get_zodiac_advice` returns. */
  datatype AdvicePayload = AdvicePayload(answer: string, zodiacSign: string, sourceDocuments: seq<string>, question: string)

  /** The payload built from the last chain result: its answer or the fallback
      text, the profile's sign, the source passages' texts, the original question. */
  function ShapeAnswer(profile: UserProfile, question: string, result: ChainResult): (p: AdvicePayload)
    ensures p.answer == if result.result.Some? then result.result.value else NoInfoAnswer
    ensures p.zodiacSign == profile.zodiacSign && p.question == question
    ensures result.sourceDocuments.None? ==> p.sourceDocuments == []
    ensures result.sourceDocuments.Some? ==> p.sourceDocuments == PageContents(result.sourceDocuments.value)
  {
    var answer := match result.result case Some(a) => a case None => NoInfoAnswer;
    var docs := match result.sourceDocuments case Some(d) => d case None => [];
    AdvicePayload(answer, profile.zodiacSign, PageContents(docs), question)
  }

  /** The queries `get_zodiac_advice` sends to a bound chain: the first
      prompt, and the retry prompt after it only when the first answer is weak. */
  function QueriesSent(invoke: (QaChain, string) -> ChainResult, c: QaChain,
                       profile: UserProfile, question: string): (queries: seq<string>)
    ensures 1 <= |queries| <= 2
    ensures queries[0] == EnhancedQuestion(profile.zodiacSign, question)
    ensures |queries| == 2 <==> IsWeak(invoke(c, queries[0]).result)
    ensures |queries| == 2 ==> queries[1] == RetryQuestion(profile.zodiacSign, question) && queries[1] != queries[0]
  {
    var first := EnhancedQuestion(profile.zodiacSign, question);
    if IsWeak(invoke(c, first).result) then
      RetryDiffersFromFirst(profile.zodiacSign, question, profile.zodiacSign, question);
      [first, RetryQuestion(profile.zodiacSign, question)]
    else
      [first]
  }

  /** The payload `get_zodiac_advice` returns from a bound chain: the first
      answer when it is strong, otherwise the retry's answer. */
  function Advice(invoke: (QaChain, string) -> ChainResult, c: QaChain,
                  profile: UserProfile, question: string): (p: AdvicePayload)
    ensures var queries := QueriesSent(invoke, c, profile, question);
      p == ShapeAnswer(profile, question, invoke(c, queries[|queries| - 1]))
    ensures p.zodiacSign == profile.zodiacSign && p.question == question
  {
    var result := invoke(c, EnhancedQuestion(profile.zodiacSign, question));
    if IsWeak(result.result) then
      ShapeAnswer(profile, question, invoke(c, RetryQuestion(profile.zodiacSign, question)))
    else
      ShapeAnswer(profile, question, result)
  }

  /** The RAG system: the store, the bound chain and the sign it was bound for,
      with the external services as the oracle `invoke`. */
  class ZodiacRagSystem {
    /** What the external retriever and language model return for a query sent to a bound chain. */
    const invoke: (QaChain, string) -> ChainResult
    var vectorStore: Option<VectorStore>
    var qaChain: Option<QaChain>
    /** `current_zodiac_sign`, an attribute that exists only once a chain is bound. */
    var currentZodiacSign: Option<string>

    /** `__init__` after `_setup_rag_components`: no store and no chain yet. */
    constructor (invoke: (QaChain, string) -> ChainResult)
      ensures this.invoke == invoke
      ensures vectorStore.None? && qaChain.None? && currentZodiacSign.None?
    {
      this.invoke := invoke;
      vectorStore := None;
      qaChain := None;
      currentZodiacSign := None;
    }

    /** `load_and_process_documents`: install the store built from the
        document's chunks, or fail when the document is missing (`loaded` is `None`). */
    method LoadAndProcessDocuments(loaded: Option<VectorStore>) returns (r: Result<(), Error>)
      modifies this
      ensures loaded.None? ==> r == Err(DocumentNotFound) && vectorStore == old(vectorStore)
      ensures loaded.Some? ==> r == Ok(()) && vectorStore == loaded
      ensures qaChain == old(qaChain) && currentZodiacSign == old(currentZodiacSign)
    {
      if loaded.None? {
        return Err(DocumentNotFound);
      }
      vectorStore := loaded;
      r := Ok(());
    }

    /** `create_zodiac_specific_retriever`: fails without a store; otherwise
        binds the chain over the store and records the sign. */
    method CreateZodiacSpecificRetriever(zodiacSign: string) returns (r: Result<(), Error>)
      modifies this
      ensures vectorStore == old(vectorStore)
      ensures old(vectorStore).None? ==>
        r == Err(VectorStoreNotInitialized) && qaChain == old(qaChain) && currentZodiacSign == old(currentZodiacSign)
      ensures old(vectorStore).Some? ==>
        r == Ok(()) && qaChain == Some(ChainFor(vectorStore.value)) && currentZodiacSign == Some(zodiacSign)
    {
      if vectorStore.None? {
        return Err(VectorStoreNotInitialized);
      }
      qaChain := Some(ChainFor(vectorStore.value));
      currentZodiacSign := Some(zodiacSign);
      r := Ok(());
    }

    /** `get_zodiac_advice`: fails while no chain is bound; otherwise sends
        the enhanced prompt, sends the retry prompt once more only when the
        first answer is weak, and shapes the last result. `queries` lists the
        prompts sent to the chain, in order. */
    method GetZodiacAdvice(userProfile: UserProfile, question: string)
      returns (r: Result<AdvicePayload, Error>, ghost queries: seq<string>)
      ensures qaChain.None? ==> r == Err(QaChainNotInitialized)
      ensures qaChain.Some? ==> r == Ok(Advice(invoke, qaChain.value, userProfile, question))
      ensures qaChain.None? ==> queries == []
      ensures qaChain.Some? ==> queries == QueriesSent(invoke, qaChain.value, userProfile, question)
    {
      if qaChain.None? {
        return Err(QaChainNotInitialized), [];
      }
      var chain := qaChain.value;
      var enhancedQuestion := EnhancedQuestion(userProfile.zodiacSign, question);
      var result := invoke(chain, enhancedQuestion);
      queries := [enhancedQuestion];
      if IsWeak(result.result) {
        var retryQuestion := RetryQuestion(userProfile.zodiacSign, question);
        result := invoke(chain, retryQuestion);
        queries := queries + [retryQuestion];
      }
      r := Ok(ShapeAnswer(userProfile, question, result));
    }
  }
}
