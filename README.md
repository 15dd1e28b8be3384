# Zodiac consultation core in Dafny

This project models the core of a zodiac consultation service, a Flask app in
front of a retrieval-augmented language model:

- **The birth-date classifier (`ZodiacDateManager`).** It parses boundary
  strings such as `"Mar 21"` into `(month, day)` pairs, tests whether a
  birth date falls inside a row's range (a range may wrap from December into
  January), and returns the sign of the first row of the table whose range
  holds the date.
- **The sign table.** Twelve rows of `"Date begin"`, `"Date End"`, `"Zodiac"`,
  written to the CSV file the classifier reads.
- **The RAG orchestration (`ZodiacRAGSystem`).** It binds a retrieval chain
  over the vector store; the chain does not depend on the sign, which is only
  recorded beside it. It asks a sign-specific prompt, asks a
  stronger prompt exactly once more when the first answer is weak, and shapes
  the answer into the returned payload.
- **The consultation wrapper (`ZodiacConsultationApp`).** It registers a user,
  meaning it classifies the user's birth date and binds the chain. It answers
  questions for the current user and reports the user's data.

Modules, each in its own file:

| file | module | contents |
|---|---|---|
| `wrappers.dfy` | `Wrappers` | `Option`, `Result` |
| `errors.dfy` | `Errors` | the exceptions raised, as one `Error` datatype |
| `py_text.dfy` | `PyText` | Python's `str.isspace`, `strip()`, `split()`, `replace(',', '')`, `int()` and `str(n)`, as used by the core |
| `calendar.dfy` | `Calendar` | `datetime` dates, leap-aware month lengths, `strftime("%Y-%m-%d")` |
| `zodiac_table.dfy` | `ZodiacTable` | the twelve table rows |
| `zodiac_dates.dfy` | `ZodiacDates` | parsing, the range test, the lookup, class `ZodiacDateManager` |
| `table_facts.dfy` | `ZodiacTableFacts` | what the table and the classifier together guarantee |
| `rag_system.dfy` | `ZodiacRag` | profiles, chain results, prompts, the retry rule, payloads, class `ZodiacRagSystem` |
| `consultation_app.dfy` | `ZodiacConsultation` | class `ZodiacConsultationApp` |

How the outside world is modelled:

- **The language model and the vector search.** Behind `qa_chain.invoke`, these
  are the oracle `ZodiacRagSystem.invoke`. It is a fixed function from the bound
  chain and the query text to the dictionary the chain returns. Each advice call
  returns a ghost log of the queries it sent, so the number and the text of the
  calls are stated in its contract.
- **The CSV file.** Its stripped cells are the `rows` the date manager is built
  from. `ZodiacTable.ZodiacRows` is what the generator script writes.
- **The document.** Its loaded chunks are the `VectorStore` given to the
  constructor.

Two details of `_parse_date_range` that the model keeps as the code has them:

- **Error message.** An unknown month abbreviation raises an error naming only
  the abbreviation token (`"Xyz"` for `"Xyz 5"`), not the whole boundary string.
- **Error order.** The day token goes through `int()` before the month is
  looked up, so `"Xyz abc"` fails on the day.

## Model

| member | source | states |
|---|---|---|
| PyText.IsSpace | app.py:62 | the whitespace that `split()` and `strip()` act on: the code points `str.isspace` accepts (tab to carriage return, the file/group/record/unit separators, space, NEL, no-break space, the Unicode space separators, and the line and paragraph separators U+2028 and U+2029) |
| PyText.Strip | app.py:175 | `strip()` returns a piece of the input with no whitespace at either end, and only whitespace was cut around it |
| PyText.StripNoEdgeSpace | app.py:175 | a string with no whitespace at its ends is unchanged by `strip()` |
| PyText.Split | app.py:62 | every part produced by `split()` is a non-empty run of non-whitespace characters |
| PyText.SplitKeepsNonSpace | app.py:62 | joining the parts gives back exactly the non-whitespace characters of the input, in order |
| PyText.SplitLeadingSpace | app.py:62 | whitespace in front of a string does not change its split; with `SplitWordThen` this fixes the parts as the maximal non-whitespace runs |
| PyText.SplitWordThen | app.py:62 | a word followed by nothing or by whitespace splits into that word followed by the parts of the rest |
| PyText.SplitTwoWords | app.py:62 | two words joined by a space split into exactly those two words |
| PyText.RemoveAll | app.py:62 | `replace(',', '')` leaves no comma and does not lengthen the string |
| PyText.RemoveAllKeepsOthers | app.py:62 | every character other than the removed one keeps its number of occurrences |
| PyText.RemoveAllAppend | app.py:62 | the removal distributes over concatenation |
| PyText.ParseIntLiteral | app.py:70 | `int()` succeeds only on a token holding at least one digit |
| PyText.ParseNatToString | app.py:70 | `int(str(n)) == n` and `int('-' + str(n)) == -n` |
| PyText.ParseIntRejects | app.py:70 | a token with a character that is neither a digit, an underscore nor a leading sign makes `int()` fail |
| PyText.ParseIntRejectsMalformed | app.py:70 | `int()` rejects the empty token, a lone sign, and a leading, trailing or doubled underscore, with or without a sign |
| PyText.ParseWellFormedDigits | app.py:70 | digits with single underscores between them, unsigned or after `+` or `-`, convert to their (negated) decimal value |
| PyText.UnderscoreIgnored | app.py:70 | an underscore between digits does not change the value (`"2_1"` is 21) |
| PyText.ParseZeroPadded | app.py:70 | leading zeros and a leading `+` are accepted: `"07"` and `"+07"` convert to 7, `"-07"` to -7 |
| PyText.NatToString | create_zodic.py:5-16 | the day digits of a boundary string: `str(n)` is a comma-free word of decimal digits with no superfluous leading zero whose value is `n` |
| Calendar.DaysInMonth | app.py:21 | month lengths are 28 to 31 days, and February has 29 days exactly in leap years |
| Calendar.ValidDateMonthDay | app.py:21 | every date a `datetime` can hold has a (month, day) that is valid in a leap year |
| Calendar.FormatIsoDate | app.py:226 | `%Y-%m-%d` is ten characters, with dashes at positions 4 and 7, and the year, month and day fields read back to the date's fields; every other character is a decimal digit |
| ZodiacDates.MonthMapFacts | app.py:63-67 | every key of the month map is a single comma-free word mapped to a month number from 1 to 12 |
| ZodiacDates.ParseDateRange | app.py:57-75 | a parse that succeeds yields a month from 1 to 12; a failure is a missing token, an invalid day literal or an unknown abbreviation |
| ZodiacDates.ParseTwoWords | app.py:62-75 | for "word word", the day token is converted first, and then the abbreviation is looked up |
| ZodiacDates.ParseWellFormed | app.py:57-75 | "<Mmm> <d>" with a known abbreviation parses to (month number, d), so the parse inverts formatting |
| ZodiacDates.ParseIgnoresComma | app.py:62 | a comma anywhere in the string does not change the parse |
| ZodiacDates.ParseTrailingComma | app.py:60-62 | "Mar 21," parses like "Mar 21" |
| ZodiacDates.ParseUnknownMonth | app.py:71-73 | an unknown abbreviation followed by a number fails, naming exactly the abbreviation |
| ZodiacDates.ParseBadDay | app.py:70 | a day token that `int()` rejects fails with that token, whatever the month |
| ZodiacDates.ParseSingleWord | app.py:69-70 | a string with a single token fails because the day token is missing |
| ZodiacDates.IsDateInRange | app.py:77-90 | the range test with the code's three clauses in each of its two branches; what it means is stated by the three `InRange` lemmas below |
| ZodiacDates.InRangeWrapping | app.py:83-86 | for a range that wraps the year end, the test holds exactly for dates on or after the start or on or before the end, in month-then-day order |
| ZodiacDates.InRangeNonWrapping | app.py:87-90 | for a range whose end month is after its start month, the test holds exactly for dates between the bounds, in month-then-day order |
| ZodiacDates.InRangeSameMonth | app.py:87-90 | when start and end share a month, the test holds exactly for the days of that month on or after the start day or on or before the end day; that is every day of the month only when the start day is at most one past the end day |
| ZodiacDates.SameMonthRangeIsNotInterval | app.py:88-89 | Mar 1 passes the test for Mar 5 to Mar 10 although it lies before the start |
| ZodiacDates.RowParseError | app.py:48-49 | a row that fails to parse reports the start string's error when there is one, and otherwise the end string's |
| ZodiacDates.ClassifyRows | app.py:43-55 | a sign that is returned is the sign of a row that parses and contains the date |
| ZodiacDates.ClassifyFindsFirst | app.py:47-53 | when every earlier row parses and misses the date, the first containing row's sign is returned |
| ZodiacDates.ClassifyStopsAtMalformed | app.py:47-49 | a malformed row reached before any match makes the lookup raise that row's parse error |
| ZodiacDates.ClassifyNoMatch | app.py:55 | when every row parses and none contains the date, the lookup raises "unable to determine" for that date |
| ZodiacDates.ClassifyUnordered | app.py:47-55 | for well-formed rows that do not overlap at the date, the result is the sign of any containing row, or the error when none contains it |
| ZodiacDates.ClassifyOrderIndependent | app.py:47-55 | for well-formed rows that do not overlap at the date, any reordering of the rows gives the same result |
| ZodiacDates.ZodiacDateManager.constructor | app.py:30-31 | the manager holds exactly the rows it was given |
| ZodiacDates.ZodiacDateManager.GetZodiacSign | app.py:43-55 | the row-by-row loop returns what the in-order lookup specifies: the first containing row's sign, the first parse error, or the "unable to determine" error |
| ZodiacTableFacts.TableShape | create_zodic.py:4-17 | the table has twelve rows with twelve distinct signs |
| ZodiacTableFacts.RowParsesToBounds | create_zodic.py:5-16 | each row's two boundary strings parse to the listed (month, day) bounds |
| ZodiacTableFacts.TableParses | create_zodic.py:5-16 | every boundary parses, and each is a day that exists in a leap year |
| ZodiacTableFacts.OnlyCapricornWraps | create_zodic.py:14 | Capricorn, Dec 22 to Jan 19, is the only row whose start month is after its end month |
| ZodiacTableFacts.TableContiguous | create_zodic.py:5-16 | every row starts the day after the previous row ends, and Aries starts the day after Pisces ends |
| ZodiacTableFacts.RowOf | create_zodic.py:5-16 | every valid (month, day) falls in some row's range |
| ZodiacTableFacts.TablePartitionsYear | create_zodic.py:5-16 | every valid (month, day), Feb 29 included, lies in exactly one row's range |
| ZodiacTableFacts.TableClassifies | create_zodic.py:4-17 | the lookup over the table returns the sign of the one row holding the date, and no two rows overlap there |
| ZodiacTableFacts.TableTotal | app.py:55 | the lookup over the table never raises for a date a `datetime` can hold |
| ZodiacTableFacts.BoundaryDates | create_zodic.py:13-15 | Dec 21 is Sagittarius, Dec 22 and Jan 19 are Capricorn, and Jan 20 is Aquarius, in any year |
| ZodiacTableFacts.TableOrderIrrelevant | create_zodic.py:4-17 | listing the table's rows in any order gives every valid date the same sign |
| ZodiacRag.ChainFor | app.py:147-158 | the chain uses similarity search over the store, five passages, the "stuff" chain type, and returns its sources |
| ZodiacRag.EnhancedQuestion | app.py:165-169 | the first prompt contains the sign and the question |
| ZodiacRag.RetryQuestion | app.py:179-184 | the retry prompt contains the sign and the question in double quotes |
| ZodiacRag.RetryDiffersFromFirst | app.py:165-184 | no retry prompt equals any first prompt, so the retry really asks something new |
| ZodiacRag.IsWeak | app.py:175 | the retry condition: no "result", an empty one, or fewer than 25 characters after `strip()`; its consequences are stated by the three lemmas below |
| ZodiacRag.WeakMeansShortCore | app.py:175 | a present answer is weak exactly when it has fewer than 25 characters once stripped |
| ZodiacRag.ShortAnswerIsWeak | app.py:175 | an answer shorter than 25 characters always triggers the retry |
| ZodiacRag.LongAnswerIsStrong | app.py:175 | an answer of 25 or more characters with no whitespace at its ends never triggers the retry |
| ZodiacRag.PageContents | app.py:191 | the source texts are the page contents of the returned documents, in order |
| ZodiacRag.ShapeAnswer | app.py:188-193 | the payload holds the chain's answer or "No relevant info found.", the profile's sign, the source texts (empty when absent) and the original question |
| ZodiacRag.QueriesSent | app.py:171-186 | one or two queries are sent: the first prompt, then the retry prompt exactly when the first answer is weak, and the retry differs from the first query |
| ZodiacRag.Advice | app.py:171-193 | the payload is shaped from the answer to the last query sent, and carries the profile's sign and the original question |
| ZodiacRag.ZodiacRagSystem.constructor | app.py:97-124 | a new RAG system has no vector store and no chain |
| ZodiacRag.ZodiacRagSystem.LoadAndProcessDocuments | app.py:126-141 | a missing document raises and leaves the store unchanged; otherwise the loaded store is installed |
| ZodiacRag.ZodiacRagSystem.CreateZodiacSpecificRetriever | app.py:143-158 | without a store the call raises and changes nothing; otherwise it binds the chain over the store and records the sign |
| ZodiacRag.ZodiacRagSystem.GetZodiacAdvice | app.py:160-193 | with no chain bound the call raises and sends nothing; otherwise it returns the advice payload of the bound chain and sends exactly the queries specified for it |
| ZodiacConsultation.ZodiacConsultationApp.constructor | app.py:198-206 | the app starts with the given rows and oracle, with the store loaded, no chain and no user |
| ZodiacConsultation.ZodiacConsultationApp.RegisterUser | app.py:208-214 | a date the lookup rejects raises and changes nothing. Otherwise the profile for its sign becomes current, the chain is bound for that sign, and the registration invariant is kept |
| ZodiacConsultation.ZodiacConsultationApp.AskQuestion | app.py:216-219 | with no user the call raises "no user registered"; otherwise it returns the advice for the current profile, and in a consistent state a registered user always gets a payload for their sign |
| ZodiacConsultation.ZodiacConsultationApp.GetUserInfo | app.py:221-228 | `None` before registration; afterwards the user's name, sign and `%Y-%m-%d` birth date |

## Left out

- Flask routes, the HTML page and the markdown rendering around the core: these are presentation and HTTP handling.
- The Gemini client, the embeddings, the text splitter and FAISS indexing: these are external services. Their behaviour is the oracle `invoke`, and the given `VectorStore` holds the loaded chunks.
- Reading the CSV file and stripping its cells with pandas: this is file I/O. The manager receives the rows directly.
- horo.py and the module-level app construction: they are not part of the core.
- Concurrency between requests sharing one app object: the model is sequential.
- Printed progress messages: they are I/O with no effect on state.
- ZodiacConsultation.ZodiacConsultationApp.constructor: the missing-document failure inside `__init__` is not modelled. That failure means no app object exists, so the constructor takes a loaded store. `LoadAndProcessDocuments` models the failure itself.
- ZodiacRag.ChainResult: a "result" key present with the value `None` is not told apart from an absent key. Likewise, a "source_documents" key holding `None`, on which the list comprehension in `get_zodiac_advice` would raise, is treated as no key.
- PyText.ParseIntLiteral: models `int()` on ASCII digits only, and with no limit on the number of digits: CPython 3.11 and later raise ValueError for a decimal literal of more than 4300 digits. Non-ASCII Unicode decimal digits, which Python also accepts, are left out. The tokens reaching it never contain whitespace, because they come from `split()`.
- Calendar.FormatIsoDate: always pads the year to four digits. The C library's `%Y` may print years below 1000 without padding.
- ZodiacRag.EnhancedQuestion and ZodiacRag.RetryQuestion: their contracts state what the prompts contain, not their full text. Their bodies build the exact strings of the f-strings.
- Chain invocation errors (network failures, quota errors): these are outside the oracle, which always returns a dictionary.
