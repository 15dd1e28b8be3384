/** The exceptions the core raises, one constructor per raise site kind,
    each carrying the value the Python message names. */
module Errors {
  import opened Calendar

  datatype Error =
    /** IndexError: `parts[index]` of a boundary string that has too few tokens. */
    | MissingToken(index: nat)
    /** ValueError from `int()`: the day token is not a decimal literal. */
    | InvalidLiteral(token: string)
    /** ValueError: "Invalid month abbreviation: <abbr>". */
    | InvalidMonthAbbreviation(abbr: string)
    /** ValueError: "Unable to determine zodiac sign for date: <date>". */
    | UnableToDetermineSign(birthDate: Date)
    /** FileNotFoundError: the zodiac information document is missing. */
    | DocumentNotFound
    /** ValueError: the retriever is requested before any vector store exists. */
    | VectorStoreNotInitialized
    /** ValueError: advice is requested before a QA chain is bound. */
    | QaChainNotInitialized
    /** ValueError: a question is asked before any user is registered. */
    | NoUserRegistered
}
