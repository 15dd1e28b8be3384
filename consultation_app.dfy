/** The consultation wrapper (`ZodiacConsultationApp`): one date manager, one
    RAG system, and the currently registered user, whose sign is the one the
    RAG system's chain is bound for. */
module ZodiacConsultation {
  import opened Wrappers
  import opened Calendar
  import opened Errors
  import opened ZodiacTable
  import opened ZodiacDates
  import opened ZodiacRag

  /** The dictionary `get_user_info` returns: the name, the birth date as
      `%Y-%m-%d` text, and the sign. */
  datatype UserInfo = UserInfo(name: Option<string>, birthDate: string, zodiacSign: string)

  class ZodiacConsultationApp {
    const zodiacManager: ZodiacDateManager
    const ragSystem: ZodiacRagSystem
    var currentUser: Option<UserProfile>

    /** The store is loaded, and a registered user's sign is the one its birth
        date classifies to and the one the bound chain was created for. */
    ghost predicate Valid()
      reads this, ragSystem
    {
      && ragSystem.vectorStore.Some?
      && (currentUser.Some? ==>
            && ClassifyRows(zodiacManager.zodiacData, currentUser.value.birthDate) == Ok(currentUser.value.zodiacSign)
            && ragSystem.qaChain == Some(ChainFor(ragSystem.vectorStore.value))
            && ragSystem.currentZodiacSign == Some(currentUser.value.zodiacSign))
    }

    /** `__init__`: the manager over the CSV rows, the RAG system over the
        external services, the documents loaded, and no user yet. */
    constructor (rows: seq<Row>, invoke: (QaChain, string) -> ChainResult, loaded: VectorStore)
      ensures Valid()
      ensures zodiacManager.zodiacData == rows && ragSystem.invoke == invoke
      ensures ragSystem.vectorStore == Some(loaded) && ragSystem.qaChain.None?
      ensures currentUser.None?
      ensures fresh(ragSystem)
    {
      zodiacManager := new ZodiacDateManager(rows);
      var rag := new ZodiacRagSystem(invoke);
      var loadResult := rag.LoadAndProcessDocuments(Some(loaded));
      ragSystem := rag;
      currentUser := None;
    }

    /** `register_user`: classify the birth date, bind the chain for the sign,
        and make the new profile current. When classification fails nothing
        changes and the error is returned. */
    method RegisterUser(birthDate: DateTime, name: Option<string>) returns (r: Result<UserProfile, Error>)
      requires Valid()
      modifies this, ragSystem
      ensures Valid()
      ensures ragSystem.vectorStore == old(ragSystem.vectorStore)
      ensures ClassifyRows(zodiacManager.zodiacData, birthDate).Err? ==>
        && r == Err(ClassifyRows(zodiacManager.zodiacData, birthDate).error)
        && currentUser == old(currentUser)
        && ragSystem.qaChain == old(ragSystem.qaChain)
        && ragSystem.currentZodiacSign == old(ragSystem.currentZodiacSign)
      ensures ClassifyRows(zodiacManager.zodiacData, birthDate).Ok? ==>
        var profile := UserProfile(birthDate, ClassifyRows(zodiacManager.zodiacData, birthDate).value, name);
        && r == Ok(profile)
        && currentUser == Some(profile)
        && ragSystem.qaChain == Some(ChainFor(ragSystem.vectorStore.value))
        && ragSystem.currentZodiacSign == Some(profile.zodiacSign)
    {
      var sign := zodiacManager.GetZodiacSign(birthDate);
      if sign.Err? {
        return Err(sign.error);
      }
      var profile := UserProfile(birthDate, sign.value, name);
      var bound := ragSystem.CreateZodiacSpecificRetriever(sign.value);
      // The store was loaded at construction and is never removed, so binding succeeds.
      assert bound.Ok?;
      currentUser := Some(profile);
      r := Ok(profile);
    }

    /** `ask_question`: fails with no registered user; otherwise the advice
        for the current profile. `queries` lists the prompts sent to the chain. */
    method AskQuestion(question: string) returns (r: Result<AdvicePayload, Error>, ghost queries: seq<string>)
      ensures currentUser.None? ==> r == Err(NoUserRegistered)
      ensures currentUser.Some? && ragSystem.qaChain.None? ==> r == Err(QaChainNotInitialized)
      ensures currentUser.Some? && ragSystem.qaChain.Some? ==>
        r == Ok(Advice(ragSystem.invoke, ragSystem.qaChain.value, currentUser.value, question))
      ensures Valid() && currentUser.Some? ==> r.Ok? && r.value.zodiacSign == currentUser.value.zodiacSign
      ensures currentUser.None? ==> queries == []
      ensures currentUser.Some? && ragSystem.qaChain.Some? ==>
        queries == QueriesSent(ragSystem.invoke, ragSystem.qaChain.value, currentUser.value, question)
    {
      if currentUser.None? {
        return Err(NoUserRegistered), [];
      }
      r, queries := ragSystem.GetZodiacAdvice(currentUser.value, question);
    }

    /** `get_user_info`: nothing before registration; otherwise the current
        profile's name, ISO-formatted birth date and sign. */
    method GetUserInfo() returns (r: Option<UserInfo>)
      ensures currentUser.None? ==> r.None?
      ensures currentUser.Some? ==>
        && r.Some?
        && r.value.name == currentUser.value.name
        && r.value.zodiacSign == currentUser.value.zodiacSign
        && r.value.birthDate == FormatIsoDate(currentUser.value.birthDate)
    {
      if currentUser.None? {
        return None;
      }
      var user := currentUser.value;
      r := Some(UserInfo(user.name, FormatIsoDate(user.birthDate), user.zodiacSign));
    }
  }
}
