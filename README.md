# AI agent chatbot: verified model of its request and form logic

This project is a Dafny model of the deterministic logic of a small chat
application. The application has a React/TypeScript front end and a
FastAPI back end. The model covers five pieces:

- **API client** (`src/services/api.ts`):
  - the error-message extractor;
  - the model allow-list;
  - the coercion of the chat list, the message history and the generated title into shape;
  - the upload-before-send ordering of `sendMessage`.

  JavaScript values are modelled by a `Value` datatype. `String()` and
  `JSON.stringify` have concrete definitions for these values. A thrown
  exception is a `Completion`. An HTTP reply is an input, either a
  response (ok flag plus body) or a rejected fetch.
- **Back-end request logic** (`backend/main.py`):
  - the model allow-list;
  - the per-conversation message cache. The class `ChatBackend.ChatServer`
    holds a `map` from chat id to message list and updates it in place:
    create, rebuild from the database history, trim, append, replace or
    insert the system prompt, delete;
  - title post-processing;
  - scrape-text cleaning.

  MongoDB, Gemini, Groq and the retrieval/web-search router are a record of
  deterministic functions passed in (`ChatBackend.Services`). Each service
  call either returns a value or raises with a message. Python's `strip`,
  `split()`, `split("  ")`, `splitlines`, `replace` and slicing are written
  out in `PyStrings`.

  The client and the back end each write out the same two-name model
  allow-list; the model defines it once, in `ModelNames`.
- **Greeting lookups** (`src/components/PersonalizedMessage.tsx`):
  - the three table lookups with their fallbacks;
  - the heading, vibe and closing lines.
- **Greeting form** (`src/components/GreetingForm.tsx`):
  - the four-field record;
  - the single-field update;
  - the submit guard and the disabled button.
- **Index page** (`src/pages/Index.tsx`): a class with the two state
  fields and the invariant `!showForm ==> greetingData != null`. That
  invariant justifies the non-null assertion on line 33.

## Code versus its documented behaviour

Where the description of the system and the code differ, the model follows the code:

- `extractErrorMessage` reads the `msg` field of an error object, not
  `message`.
- Every `catch` that rethrows `new Error(extractErrorMessage(error))` calls
  `String()` on an `Error` object, and that string starts with `"Error: "`.
  So a failing upload reaches the caller of `sendMessage` as
  `"Error: Error: <detail>"` (`ApiSend.SendMessageUploadErrorText`).
- An upload failure whose body is not JSON leaves `{}` as the error data,
  and that data is truthy. The message then becomes `"[object Object]"`
  (`ApiSend.UploadFailureMalformed`).
- Message content `0` or `false` becomes `""`. Content `null` is an object
  to `typeof`, so it is stringified to `"null"` (`ApiNormalise.ContentTextCases`).
- A successful `/chat` reply whose `content` is `0`, `false`, `""` or `null`
  keeps that value: the guard `data.content && typeof data.content !== 'string'`
  only rewrites truthy non-string content (`ApiSend.FinishSendKeepsReply`).
- The 400 "URL is required" raised in `scrape_url` is caught by the same
  handler and re-raised as a 500. The detail is `"Failed to scrape URL: 400: URL is required"`.
- A model failure in `chat` is re-raised by the outer handler. The
  response is a 500 whose detail is `"500: Model <m> is currently unavailable. ..."`.
- A chat rebuilt from the database whose record has no `system_prompt` gets
  a system message with `None` content, as `chat_data.get('system_prompt')` gives.
- In the system-prompt PATCH body, a missing `system_prompt` key gives `""`
  and an explicit `null` gives `None`.
- Every cache entry starts with a system message and holds at most 18
  messages (`ChatBackend.WellFormedCache`). So `update_system_prompt`
  always rewrites index 0, and its insert branch cannot be reached from
  states the server produces.

The text of `str(HTTPException)` is taken to be `"<status>: <detail>"`.

## Model

| member | source | states |
|---|---|---|
| ApiErrors.ExtractErrorMessage | src/services/api.ts:5-33 | a string is returned unchanged; an object with truthy `msg` yields `msg`'s text; a non-object non-string yields `String(error)`; it throws a TypeError exactly when the value or a nested `detail` exposes `null` |
| ApiErrors.ExtractFollowsDetail | src/services/api.ts:26-29 | an object whose `msg` is falsy and whose `detail` is truthy gives exactly the message of its `detail` |
| ApiErrors.ExtractPlainObject | src/services/api.ts:22-32 | an object with neither a truthy `msg` nor a truthy `detail` gives `String(error)`, "[object Object]" |
| ApiErrors.Segment | src/services/api.ts:13-17 | one array element's text; throws a TypeError exactly when the element is `null` (`null.msg`) |
| ApiErrors.Segments | src/services/api.ts:13-18 | the mapped array has one segment per element, and throws exactly when some element is `null` |
| ApiErrors.ElementTexts | src/services/api.ts:13-17 | reference mapping: element i's text is `msg` of an object with truthy `msg`, else `String(element)` |
| ApiErrors.ExtractArrayJoinsElements | src/services/api.ts:12-18 | for an array without `null`, the result is the n element texts, in order, joined with ", " |
| ApiErrors.SegmentsAreElementTexts | src/services/api.ts:13-18 | the mapped segments equal the reference element texts |
| ApiErrors.SegmentIsElementText | src/services/api.ts:13-17 | a non-null element's segment is its reference text |
| ApiErrors.ExtractSeesThroughDetail | src/services/api.ts:26-29 | wrapping a truthy value in any number of `{detail: ...}` layers does not change the extracted message |
| ApiErrors.ExtractArrayExample | src/services/api.ts:12-19 | `["bad", {msg: "bad2"}]` gives "bad, bad2" |
| ApiErrors.ExtractDetailExample | src/services/api.ts:21-29 | `{detail: {msg: "x"}}` gives "x" |
| ApiErrors.ExtractNumberExample | src/services/api.ts:31-32 | `42` gives "42" |
| ApiErrors.ServerErrorMessage | src/services/api.ts:68-69 | the detail, else the data, else the fallback: `null` data throws, a truthy `detail` is extracted first, otherwise truthy data is extracted itself, and falsy data gives the fallback |
| ApiErrors.Rethrown | src/services/api.ts:88 | the rethrown value is always an Error; rethrowing an Error gives an Error whose message is that Error's `String()` |
| ApiErrors.RethrownPrefixesName | src/services/api.ts:88 | rethrowing `Error(m)` yields `Error("Error: " + m)` |
| ModelNames.SafeModel | src/services/api.ts:44-45 | the result is always a supported model; members pass unchanged and everything else becomes `gemini-2.0-flash` |
| ApiNormalise.NormaliseChat | src/services/api.ts:135-140 | a chat normalises to a summary with string `title` and `model`; it throws exactly on `null`/`undefined` |
| ApiNormalise.ChatPropsFields | src/services/api.ts:135-140 | `title` is kept if a string else "New Chat", `model` kept if a string else `gemini-2.0-flash`, `system_prompt` kept if a string else undefined; every other field is the spread original |
| ApiNormalise.MapOrThrow | src/services/api.ts:135-140 | `items.map(f)` with a throwing callback: it throws exactly when the callback throws on some element; otherwise the result has the same length and element i is the callback's value on element i |
| ApiNormalise.GetChats | src/services/api.ts:122-145 | a failed or non-JSON reply gives `[]`; every returned element is a chat summary |
| ApiNormalise.GetChatsOfList | src/services/api.ts:130-140 | a body that is not an object or a non-array `chats` gives `[]`; an array gives its elements normalised, same length and order |
| ApiNormalise.GetChatsNullElement | src/services/api.ts:135-143 | a `null` element makes the mapping throw, and the catch returns `[]` |
| ApiNormalise.ChatTitleExamples | src/services/api.ts:137 | a numeric title becomes "New Chat"; a string title is kept |
| ApiNormalise.ContentTextCases | src/services/api.ts:162-164 | string content kept; object or array content JSON-stringified; `null` becomes "null"; falsy content becomes ""; a number becomes its decimal text |
| ApiNormalise.NormaliseMessage | src/services/api.ts:160-166 | a message normalises to one with string `content` and `role`; it throws exactly on `null`/`undefined` |
| ApiNormalise.MessagePropsFields | src/services/api.ts:160-166 | `content` is the coerced text, `role` kept if a string else "user"; other fields are the spread original |
| ApiNormalise.GetChatHistory | src/services/api.ts:147-171 | a failed reply gives `[]`; every returned element is a normalised message |
| ApiNormalise.GetChatHistoryOfList | src/services/api.ts:155-166 | a body that is not an object, a non-array `messages` or an array holding `null` gives `[]`; an array gives its elements normalised in order |
| ApiNormalise.GenerateTitle | src/services/api.ts:237-264 | the result always has a string `title`; a failed reply or `null`/`undefined` data gives exactly `{title: 'New Chat'}` |
| ApiNormalise.GenerateTitleOfObject | src/services/api.ts:254-259 | for object data the title is `data.title` when a string, else "New Chat", and all other fields are kept |
| ApiSend.UploadRequestFor | src/services/api.ts:266-279 | the upload names the file and uses the given chat id when non-empty, else the clock value |
| ApiSend.UploadDocument | src/services/api.ts:266-295 | an ok JSON reply gives its body; every failure throws an Error |
| ApiSend.UploadFailureWith | src/services/api.ts:281-293 | a failed upload whose error data gives message m rejects with `Error("Error: " + m)`; a body that is not JSON counts as `{}` |
| ApiSend.UploadFailureMessage | src/services/api.ts:281-293 | a failure with `{detail: d}` throws `Error("Error: " + d)` after the inner throw and the catch |
| ApiSend.UploadFailureMalformed | src/services/api.ts:282-293 | a failure with a non-JSON body throws `Error("Error: [object Object]")` |
| ApiSend.UploadFailureFallback | src/services/api.ts:283 | a failure with falsy data uses "Failed to upload document" |
| ApiSend.CreateChatRequestFor | src/services/api.ts:92-109 | the request carries the allow-listed model, the given title and the clock id |
| ApiSend.CreateChat | src/services/api.ts:111-119 | a rejected fetch is rethrown unchanged; a non-ok reply throws "Failed to create chat"; an ok reply gives its body |
| ApiSend.UploadTarget | src/services/api.ts:50 | the upload target (the conversation id, or "temp" when it is empty) is never empty |
| ApiSend.ChatRequestFor | src/services/api.ts:54-64 | the chat POST uses the allow-listed model and omits an empty conversation id |
| ApiSend.UploadRequests | src/services/api.ts:49-51 | one upload request per file, in array order, all to the same target |
| ApiSend.FinishSend | src/services/api.ts:67-89 | every failure is an Error; a rejected fetch, a non-ok status and a body that is not JSON always fail; a normal result's `content` is a string or the reply's own falsy value |
| ApiSend.WithContent | src/services/api.ts:77 | the object's `content` is replaced by the given text |
| ApiSend.FinishSendStringifiesContent | src/services/api.ts:76-78 | truthy non-string content (object, array, number, `true`) is replaced by its JSON text and every other field is kept |
| ApiSend.FinishSendKeepsReply | src/services/api.ts:71-85 | every other successful reply (string or falsy content, or a JSON value that is neither an object nor `null`) is returned unchanged |
| ApiSend.FinishSendNullData | src/services/api.ts:76-88 | a successful `null` reply fails on reading `content`, and the `catch` wraps the TypeError |
| ApiSend.FinishSendFailureWith | src/services/api.ts:67-88 | a non-ok reply whose error data gives message m rejects with `Error("Error: " + m)` |
| ApiSend.FinishSendFailureMessage | src/services/api.ts:67-88 | a non-ok reply `{detail: d}` throws `Error("Error: " + d)` |
| ApiSend.SendMessageUploadErrorText | src/services/api.ts:50-293 | a failed upload reaches the caller of `sendMessage` as `"Error: Error: " + d` |
| ApiSend.SendMessage | src/services/api.ts:35-90 | if all uploads succeed, the requests issued are the uploads in file order then the chat POST, and the result is the POST's outcome; otherwise the first failing upload k ends the call, only uploads 0..k were issued, no POST is sent, and its error is rethrown |
| BackendTypes.ErrorText | backend/main.py:289 | `str(HTTPException)`: the text ends with the detail after a status prefix |
| ModelNames.ClientModelsAreKept | backend/main.py:166-168 | the backend's check of the same list keeps every name the client's allow-list produced |
| ChatBackend.Trim | backend/main.py:204-205 | lists of at most 16 are untouched; longer lists become the first element then the last 15 (length 16) |
| ChatBackend.TrimBounds | backend/main.py:204-205 | a trimmed non-empty list has 1..16 elements, keeps its head, and trimming is idempotent |
| ChatBackend.NonSystemMembers | backend/main.py:197-202 | a message is kept exactly when it is in the history and is not a system message |
| ChatBackend.NonSystemAppend | backend/main.py:197-202 | filtering distributes over concatenation, so order is preserved |
| ChatBackend.NonSystemKeepsOthers | backend/main.py:197-202 | a history without system messages is kept whole |
| ChatBackend.RebuiltEntry | backend/main.py:187-202 | a rebuilt entry is one system message with the stored prompt, then the non-system history in order |
| ChatBackend.OpeningEntry | backend/main.py:183-186 | a new entry is one system message: the given prompt if non-empty, else the default prompt |
| ChatBackend.FirstSystemIndex | backend/main.py:344-345 | the index found is the first system message; none is found exactly when there is none |
| ChatBackend.FirstSystemIndexAt | backend/main.py:344-345 | the first system message at k is what the search finds |
| ChatBackend.WithSystemPrompt | backend/main.py:346-349 | with a system message, the first one's content is replaced and length and other entries are kept; without, one is inserted at 0 and the rest shift |
| ChatBackend.WithSystemPromptInstalls | backend/main.py:346-349 | after the update, the first system message carries the new prompt |
| ChatBackend.WithSystemPromptTwice | backend/main.py:346-349 | a second update overrides the first |
| ChatBackend.WithSystemPromptOnWellFormed | backend/main.py:343-349 | on a well-formed entry the update rewrites index 0 and keeps the entry well-formed |
| ChatBackend.ConverseAppends | backend/main.py:241-271 | the entry after a turn is the trimmed entry extended by the user message and, on success, the assistant reply |
| ChatBackend.ResolvedEntryStartsWithSystem | backend/main.py:176-202 | in a well-formed cache, the entry a request resolves to is non-empty and starts with a system message |
| ChatBackend.ChatKeepsCacheWellFormed | backend/main.py:158-289 | a chat request keeps every cache entry starting with a system message and at most 18 long |
| ChatBackend.ChatChangesOneEntry | backend/main.py:183-268 | a chat request changes at most one cache entry |
| ChatBackend.ChatAnswered | backend/main.py:241-284 | a successful answer has role assistant and a supported model; the entry ends with the user then the assistant message; a given conversation id is echoed back |
| ChatBackend.TrimOfResolved | backend/main.py:187-205 | the trimmed entry is non-empty, and an existing cached entry is the one trimmed |
| ChatBackend.ChatModelFailure | backend/main.py:263-289 | a model error yields a 500 "Model m is currently unavailable" wrapped by the outer handler; the user message stays appended |
| ChatBackend.ChatRebuildsUncached | backend/main.py:187-205 | an uncached id is rebuilt from the history and record, then trimmed |
| ChatBackend.ChatServer.constructor | backend/main.py:48 | the cache starts empty |
| ChatBackend.ChatServer.Chat | backend/main.py:158-289 | the new cache and the answer are those of the specification `ChatOutcome`, and the cache stays well-formed |
| ChatBackend.ChatServer.OpenConversation | backend/main.py:176-202 | creating or rebuilding the entry matches the specification `Resolve` |
| ChatBackend.ChatServer.Rebuild | backend/main.py:192-202 | the loop leaves the entry equal to the system message with the given prompt followed by the non-system history in order, and changes nothing else |
| ChatBackend.ChatServer.TrimEntry | backend/main.py:204-205 | the entry is replaced by its trimmed form and nothing else changes |
| ChatBackend.ChatServer.Respond | backend/main.py:204-284 | trim, append, ask and append change only this entry, as `Converse` specifies |
| ChatBackend.ChatServer.DeleteChat | backend/main.py:327-335 | the entry is removed exactly when the database delete returned true; otherwise the cache is unchanged; a raise becomes a 500 |
| ChatBackend.ChatServer.UpdateSystemPrompt | backend/main.py:337-353 | on database success the cached entry gets the prompt by replace-or-insert; other entries and failures leave the cache unchanged; well-formedness is kept |
| BackendText.Unquoted | backend/main.py:145 | the stripped title has no `"` and no `'` |
| BackendText.TitleWords | backend/main.py:146 | at most 4 whitespace-free words, without quotes |
| BackendText.CleanTitle | backend/main.py:145-150 | no quotes, at most 30 characters, at most 4 words, single-spaced; a short join keeps exactly the first 4 words; a long one becomes its first 27 characters plus "..." |
| BackendText.CappedTitleShape | backend/main.py:147-150 | the capped join of clean words keeps every cleanliness property |
| BackendText.TitleHasNoQuotes | backend/main.py:147 | joining quote-free words with spaces adds no quote |
| BackendText.CutTitleWordCount | backend/main.py:149-150 | cutting to 27 characters plus "..." does not add words |
| BackendText.CleanTitleKeepsClean | backend/main.py:145-150 | a title that is already clean is a fixed point |
| BackendText.UnquotedOfClean | backend/main.py:145 | a clean title is unchanged by strip and quote removal |
| BackendText.JoinedWordsAreClean | backend/main.py:146-147 | at most 4 clean words within 30 characters survive cleanup unchanged |
| BackendText.CleanTitleIdempotent | backend/main.py:145-150 | cleaning twice is cleaning once |
| BackendText.FallbackTitleIsClean | backend/main.py:156 | "New Chat" is a clean title |
| BackendText.GenerateTitle | backend/main.py:125-156 | the title is always clean; a failed model call gives "New Chat"; otherwise it is the cleaned reply |
| BackendText.StripEach | backend/main.py:395 | each line is stripped, same count |
| BackendText.NonEmpty | backend/main.py:397 | only non-empty chunks are kept |
| BackendText.PhrasesShape | backend/main.py:396 | phrases split on double spaces contain no double space and no line break |
| BackendText.StrippedLinesHaveNoBreaks | backend/main.py:395 | stripped `splitlines` pieces contain no line break |
| BackendText.ChunksShape | backend/main.py:395-397 | every chunk is non-empty, stripped, without line break or double space |
| BackendText.JoinOfChunksHasNoBreak | backend/main.py:397 | joining chunks with one space adds no line break |
| BackendText.JoinOfChunksHasNoDoubleSpace | backend/main.py:397 | joining chunks with one space creates no double space |
| BackendText.JoinOfChunksEnds | backend/main.py:397 | a join of chunks is empty or has no whitespace at either end |
| BackendText.CleanPageTextShape | backend/main.py:395-397 | the cleaned text has no line break, no double space and no space at either end |
| BackendText.NonSpaceOfStripEach | backend/main.py:395 | stripping removes only spaces |
| BackendText.ConcatOfNonEmpty | backend/main.py:397 | dropping empty chunks removes no characters |
| BackendText.NonSpaceOfPhrases | backend/main.py:396 | splitting into phrases keeps every non-space character in order |
| BackendText.CleanPageTextKeepsContent | backend/main.py:395-397 | the cleaned text has the same non-space characters, in order, as the page text |
| BackendText.CleanPageTextEmpty | backend/main.py:395-397 | the cleaned text is empty exactly when the page text is all whitespace |
| BackendText.CapPageText | backend/main.py:399-400 | text of at most 5000 characters is kept; longer text becomes its first 5000 plus "..." |
| BackendText.UrlRequiredText | backend/main.py:375-376 | the text of the 400 raised for a missing URL is "400: URL is required" |
| BackendText.ScrapeUrlWithoutUrl | backend/main.py:373-411 | a missing or empty url gives a 500 whose detail is "Failed to scrape URL: 400: URL is required" |
| BackendText.ScrapeUrl | backend/main.py:371-411 | a missing or empty url fails; every failure is a 500 with that prefix; success echoes the url and title, and the content is "Title: t", a blank line, then the capped clean text |
| PyStrings.StripLeft | backend/main.py:145 | the result is a suffix of the text that is empty or starts with a non-space |
| PyStrings.StripLeftRemovesSpaces | backend/main.py:145 | everything `lstrip` removes is whitespace |
| PyStrings.StripRight | backend/main.py:145 | the result is a prefix of the text that is empty or ends with a non-space |
| PyStrings.StripRightRemovesSpaces | backend/main.py:145 | everything `rstrip` removes is whitespace |
| PyStrings.Strip | backend/main.py:395-396 | the result is empty or starts and ends with a non-space |
| PyStrings.StripIsSlice | backend/main.py:395-396 | the stripped text is a slice of the original |
| PyStrings.SliceChars | backend/main.py:145 | a slice's characters and neighbour pairs come from the original |
| PyStrings.StripOfSingleSpaced | backend/main.py:145 | stripping a single-spaced string changes nothing |
| PyStrings.Take | backend/main.py:146 | Python `[:n]`: a prefix of length min(n, len) |
| PyStrings.RemoveChar | backend/main.py:145 | `replace(c, '')` leaves no `c` and adds no character |
| PyStrings.WordLength | backend/main.py:146 | the length of the leading run of non-space characters |
| PyStrings.Split | backend/main.py:146 | `split()` gives non-empty whitespace-free words drawn from the string |
| PyStrings.JoinOfWordsIsSingleSpaced | backend/main.py:147 | words joined by " " form a single-spaced string |
| PyStrings.SplitAfterSpace | backend/main.py:146 | leading whitespace does not change the words of `split()` |
| PyStrings.SplitOfJoin | backend/main.py:146-147 | splitting a space-join of words gives the words back |
| PyStrings.FirstWordOfSingleSpaced | backend/main.py:146 | a single-spaced string is its first word, then a space and the rest |
| PyStrings.JoinOfSplitSingleSpaced | backend/main.py:146-147 | joining the words of a single-spaced string gives it back |
| PyStrings.WordCountOfSingleSpaced | backend/main.py:146 | a single-spaced string has one more word than spaces |
| PyStrings.SingleSpacedCut | backend/main.py:150 | a cut of a single-spaced string plus "..." stays single-spaced |
| PyStrings.SpaceCountOfPrefix | backend/main.py:150 | a prefix has no more spaces than the whole |
| PyStrings.JoinEnds | backend/main.py:397 | a join of non-empty parts starts with the first part's first character and ends with the last part's last |
| PyStrings.JoinKeepsPairs | backend/main.py:397 | a property of neighbour pairs holds for a join when it holds inside parts and across separators |
| PyStrings.FindDoubleSpace | backend/main.py:396 | finds the first "  " or reports there is none |
| PyStrings.SplitOnDoubleSpace | backend/main.py:396 | `split("  ")` has at least one piece |
| PyStrings.SplitOnDoubleSpaceJoin | backend/main.py:396 | joining the pieces with two spaces gives the original back |
| PyStrings.SplitOnDoubleSpacePieces | backend/main.py:396 | no piece contains a double space |
| PyStrings.SplitOnDoubleSpaceSlices | backend/main.py:396 | every piece is a slice of the original |
| PyStrings.LineLength | backend/main.py:395 | the length up to the first line break |
| PyStrings.AfterBreak | backend/main.py:395 | consumes one break, with `\r\n` counted as one |
| PyStrings.SplitLines | backend/main.py:395 | `splitlines()` gives pieces without break characters |
| PyStrings.LineBreakIsSpace | backend/main.py:395 | every line-break character is whitespace |
| PyStrings.NonSpaceAppend | backend/main.py:395-397 | non-space filtering distributes over concatenation |
| PyStrings.NonSpaceOfBlank | backend/main.py:396-397 | an all-space string has no non-space characters |
| PyStrings.NonSpaceOfStripLeft | backend/main.py:395 | left-stripping keeps every non-space character |
| PyStrings.NonSpaceOfStripRight | backend/main.py:395 | right-stripping keeps every non-space character |
| PyStrings.NonSpaceOfStrip | backend/main.py:395-396 | stripping keeps every non-space character |
| PyStrings.NonSpaceOfJoin | backend/main.py:396-397 | joining with a whitespace separator keeps exactly the parts' non-space characters |
| PyStrings.ConcatAppend | backend/main.py:397 | concatenation distributes over appending lists |
| PyStrings.NonSpaceOfSplitLines | backend/main.py:395 | splitting into lines loses only break characters |
| PyStrings.NonSpaceOfBreak | backend/main.py:395 | a consumed break holds no non-space character |
| PyStrings.BreakIsBlank | backend/main.py:395 | the text from a line boundary on has the same content as the text after it |
| PyStrings.SliceOfSlice | backend/main.py:395-396 | a slice of a slice is a slice |
| Joining.JoinWith | backend/main.py:147 | `sep.join`: the empty list joins to "" and one part to itself |
| Joining.JoinWithSnoc | src/services/api.ts:18 | joining with one more part appends the separator and the part |
| Joining.JoinWithLength | backend/main.py:147 | the joined length is the parts' total plus one separator between neighbours |
| Joining.JoinWithChars | backend/main.py:147 | every character of a join comes from a part or the separator |
| JsValues.TypeOf | src/services/api.ts:7-22 | `typeof` is "object" exactly for null, arrays, objects and errors |
| JsValues.Lookup | src/services/api.ts:14-27 | a property read is undefined or some property's value |
| JsValues.Get | src/services/api.ts:14-27 | reading a property throws a TypeError exactly on null/undefined |
| JsValues.LookupSetSame | src/services/api.ts:77 | a written property reads back |
| JsValues.LookupSetOther | src/services/api.ts:77 | writing one property leaves the others |
| JsValues.NatToDecimal | src/services/api.ts:17 | decimal text is never empty |
| JsValues.IntToDecimal | src/services/api.ts:17 | decimal text of an integer is never empty |
| JsValues.Stringify | src/services/api.ts:77 | JSON text of a defined value is never empty |
| JsValues.DefinedProps | src/services/api.ts:77 | JSON output keeps only the defined properties |
| PersonalizedMessage.TimeGreeting | src/components/PersonalizedMessage.tsx:26-34 | morning/afternoon/evening/night give "Good " + the key; anything else gives "Hello"; never empty |
| PersonalizedMessage.MoodMessage | src/components/PersonalizedMessage.tsx:36-46 | each of the six moods gives its sentence, distinct from the fallback; anything else gives "You're amazing just as you are!" |
| PersonalizedMessage.ColorEmoji | src/components/PersonalizedMessage.tsx:48-59 | each of the seven colours gives its emoji, distinct from the fallback; anything else gives the fallback emoji |
| PersonalizedMessage.MoodMessagesAreDistinct | src/components/PersonalizedMessage.tsx:37-44 | different known moods give different sentences |
| PersonalizedMessage.ColorEmojisAreDistinct | src/components/PersonalizedMessage.tsx:49-57 | different known colours give different emoji |
| PersonalizedMessage.HeadingOpening | src/components/PersonalizedMessage.tsx:69-70 | the heading opens with "Hello, " exactly when the time of day is unknown, else with "Good <time>, " |
| PersonalizedMessage.HeadingParts | src/components/PersonalizedMessage.tsx:69-70 | the heading is the greeting, ", ", the name, "!" and the emoji |
| PersonalizedMessage.Closing | src/components/PersonalizedMessage.tsx:91 | the closing line embeds the time of day and ends with the name and "!" |
| GreetingForm.Update | src/components/GreetingForm.tsx:36-38 | the named field takes the value and the other three are unchanged |
| GreetingForm.HandleSubmit | src/components/GreetingForm.tsx:29-34 | the record is forwarded, unchanged, exactly when all four fields are non-empty |
| GreetingForm.DisabledIffNotForwarded | src/components/GreetingForm.tsx:129 | the button is disabled exactly when submit would not forward |
| GreetingForm.InitialCannotSubmit | src/components/GreetingForm.tsx:22-31 | the fresh form cannot submit and its button is disabled |
| GreetingForm.FillingEveryFieldSubmits | src/components/GreetingForm.tsx:31-38 | setting all four fields to non-empty values, in any order, enables submit |
| GreetingForm.UpdatesCommute | src/components/GreetingForm.tsx:36-38 | updates of different fields commute and a later update of one field overrides an earlier one |
| IndexPage.Page.constructor | src/pages/Index.tsx:14-15 | the page starts with no data and the form shown |
| IndexPage.Page.HandleGreetingSubmit | src/pages/Index.tsx:17-20 | the data is stored and the form hidden |
| IndexPage.Page.HandleReset | src/pages/Index.tsx:22-25 | from any state, back to no data and the form shown |
| IndexPage.Page.SubmitForm | src/pages/Index.tsx:17-31 | a complete form moves to the display; an incomplete one changes nothing; the invariant holds |
| IndexPage.Page.Rendered | src/pages/Index.tsx:30-34 | the form is rendered exactly when `showForm`; otherwise the display of the stored data, which the invariant guarantees exists |

## Left out

- Network, `fetch`, `FormData`, `response.json()` and service handles: replies are inputs, and the back-end services are deterministic functions passed in.
- Logging and `console`: no observable effect on results.
- `Date.now()` and `time.time()`: the generated id is a parameter (`clock`); `response_time` is not modelled because it does not reach a result.
- `deleteChat`, `updateSystemPrompt`, `saveMessage`, `scrapeUrl` and `webSearch` of the API client: they wrap one request with no normalisation beyond what the modelled operations show.
- Back-end endpoints without cache logic (health, web search, `upload_document`, `get_chats`, `create_chat`, `get_chat_history`, `save_message`, the document endpoints): they forward to the stubbed services.
- The retrieval and web-search routing of `chat` (main.py:207-239): it depends only on the services, so the router is one stubbed function giving the enhanced message and the two flags.
- HTML fetching and parsing in `scrape_url`: the page's title tag and `get_text()` are the result of a stubbed `fetch`.
- FastAPI routing, CORS and pydantic validation; a non-string `url` or `system_prompt` in a raw dict body is not modelled.
- Async interleaving: the modelled handlers run their steps in order, and `sendMessage` awaits each upload before the next.
- JavaScript numbers are integers here: floating point, `NaN` and exponent notation in `String()` are not modelled.
- Key order of JavaScript objects for integer-like keys, and inherited prototype keys (such as `"constructor"`) in the lookup tables of PersonalizedMessage.tsx.
- The live clock (`setInterval`, `toLocaleTimeString`) and the CSS `capitalize` of the vibe line.
- ModelInfo.tsx, ThemeSelector.tsx, GreetingDisplay.tsx and backend/check_imports.py: presentation and import probing.
