# Agriculture chat façade: fallback policy and conversation context in Dafny

This project models the decision logic of a small HTTP façade over a local
language model (`API/app.py`) and of its Streamlit chat front-end
(`API/chatbot.py`):

- **Ordered model fallback** (`Api.Resolve`, used by `Api.GenerateEssay` and
  `Api.GenerateTestCases`): the candidates `llama3.2`, `llama3`, `llama2`,
  `mistral` are tried in order; the first success is returned at once; every
  failure is absorbed and its message kept in `lastError`; when all fail the
  handler returns a deterministic template built from the topic, still with
  status 200. The model call is a parameter `invoke: (model, prompt) -> Outcome`,
  and every handler returns the list of models it invoked, so "which
  candidates were tried, and in what order" is part of each contract.
- **Keyword gate and canned answers** (`Api.Chat`): an off-topic question (no
  term of the 29-term agriculture list occurs in the lower-cased question)
  gets the fixed refusal and no model call; otherwise exactly one call to
  `llama3.2` is made, and if it fails the answer is the entry of the first key,
  in table order, that occurs in the question, or a general text.
- **Conversation context** (`Chatbot.Session`): a class whose fields are the
  transcript, `topicsDiscussed`, `lastQuestion` and `followUpSuggestions`.
  `ProcessInput` appends the user's message and, for a status-200 reply with an
  "output", the assistant's message; the context is updated only when that
  output is a string (for any other JSON value the update's `lower` raises
  before anything changes);
  `ExtractTopicsAndSuggestFollowUps` records the topics found in the answer
  (via `RecordTopics`, the append loop) and rebuilds the suggestions (via
  `BuildFollowUps`, the four conditional appends) truncated to three.

The request body is abstracted to what the handlers look at: `Body.Unparsable`
stands for every exception raised while reading it (not JSON, body or `input`
not an object), and the looked-up value is `Missing`, a string, or a non-string
JSON value (`NonText`, with its Python type name and its f-string rendering).
Following the code, a non-string topic reaches the model in its rendered form;
if every model then fails, the essay handler's `capitalize` call raises and
the response is a 500, while the test-case handler, whose template calls no
string method, still answers 200. A non-string chat question fails at `lower`
before the gate, so it is a 500 and no model is called.

Python's `str.lower` and `str.capitalize` are modelled on ASCII letters
(`Strings.Lower`, `Strings.Capitalize`); Python's substring test `a in b` is
`Strings.Contains`, proved equal to "occurs at some offset".

The gate's keyword list has 29 terms (API/app.py:147-152). The code never
passes an empty candidate list; `Api.Resolve` on one reports no answer and no
error.

## Model

| member | source | states |
|---|---|---|
| `Strings.Lower` | API/app.py:155 | same length; each upper-case ASCII letter becomes its lower-case partner (code point + 32) and every other character is kept |
| `Strings.Capitalize` | API/app.py:67 | same length; a lower-case first letter becomes its upper-case partner (code point - 32), any other first character is kept, and the rest is the lower-cased rest |
| `Strings.Contains` | API/app.py:155 | Python's `part in text`, a recursive scan; `Strings.ContainsIff` states what it means |
| `Strings.SelectMatching` | API/app.py:199 | the comprehension `[k for k in keys if k in text]`; `Strings.SelectMatchingPositions` states which keys it keeps and in what order |
| `Strings.ContainsIff` | API/app.py:155 | the recursive substring scan holds exactly when the part occurs at some offset of the text |
| `Strings.ContainsInfix` | API/app.py:66-70 | a text built as `before + part + after` contains `part` |
| `Strings.SelectMatchingPositions` | API/app.py:199 | the comprehension `[k for k in keys if k in text]` keeps exactly the keys that occur, in key order: the kept positions are strictly increasing and a position is kept iff its key occurs |
| `Strings.FirstMatchIsEarliest` | API/app.py:199-203 | the first kept key is the earliest key in list order that occurs; no earlier key occurs |
| `Strings.SelectMatchingEmpty` | API/app.py:201-206 | nothing is kept exactly when no key occurs |
| `Strings.SelectMatchingSound` | API/chatbot.py:99 | every kept key is one of the keys and occurs in the text |
| `Api.FirstSuccess` | API/app.py:48-63 | reference definition of the fallback policy; `Api.FirstSuccessIndex` characterises it and `Api.Resolve` is proved equal to it |
| `Api.EssayPrompt` | API/app.py:54 | the essay prompt text for a topic, the one `Api.GenerateEssay`'s contract says every candidate is invoked with |
| `Api.TestCasePrompt` | API/app.py:99 | the test-case prompt text for a topic, the one `Api.GenerateTestCases`'s contract says every candidate is invoked with |
| `Api.ChatPrompt` | API/app.py:168-174 | the chat prompt around the question, the one `Api.Chat`'s contract says llama3.2 is invoked with |
| `Api.EssayFallback` | API/app.py:66-70 | the essay template; `Api.EssayFallbackMentionsTopic` states its properties |
| `Api.TestCaseFallback` | API/app.py:111-127 | the test-case template; `Api.TestCaseFallbackMentionsTopic` and `Api.TestCaseFallbackSections` state its properties |
| `Api.OnTopic` | API/app.py:147-155 | the gate: some keyword occurs in the lower-cased question; `Api.Chat` and `Api.OnTopicIgnoresCase` state its use and its case-insensitivity |
| `Api.FieldText` | API/app.py:42 | `body.get("input", {}).get(key, default)` as substituted into an f-string: the default when the key is absent, the string itself, or a non-string's rendering; `Api.GenerateEssay`, `Api.GenerateTestCases` and `Api.Chat` state the defaults "general topic" (also line 87) and "Tell me something about agriculture" (line 144) |
| `Api.NoAttribute` | API/app.py:75-79 | `str(e)` of the AttributeError raised by calling a string method on a non-string, the `{"error": ...}` text; `Api.GenerateEssay` states it for `capitalize` (line 67) and `Api.Chat` for `lower` (line 155, reported at lines 211-215) |
| `Api.Lookup` | API/app.py:203 | the entry of the first pair whose key matches; the table's keys are distinct (`Api.FallbackKeysDistinct`), so this is the dict literal's entry for the key; `Api.LookupFirst` states what it returns |
| `Api.FallbackKeysDistinct` | API/app.py:185-196 | the ten keys of the canned-answer table are pairwise distinct |
| `Api.CannedAnswer` | API/app.py:199-206 | the entry of the first matched key or the general text; `Api.CannedAnswerChoice` states which entry that is |
| `Api.FirstSuccessIndex` | API/app.py:48-63 | the reference policy picks the candidate `k` before which every candidate fails and which succeeds, or reports no answer when all fail |
| `Api.Resolve` | API/app.py:45-63 | candidates are invoked as a prefix of the list, in order; all but the last invoked fail; on success the last invoked produced the answer and nothing later was invoked; on total failure every candidate was invoked and `lastError` holds the last candidate's message (none for an empty list); the answer equals the reference policy |
| `Api.GenerateEssay` | API/app.py:38-79 | malformed body: 500 with its message and no model call; otherwise models invoked in order with first success returned; on total failure the essay template for the topic (default "general topic") with status 200, except a 500 with the `capitalize` AttributeError message for a non-string topic |
| `Api.GenerateTestCases` | API/app.py:83-136 | malformed body: 500 and no model call; otherwise always status 200: the first success, or after every candidate failed the test-case template for the topic (default "general topic") |
| `Api.EssayFallbackMentionsTopic` | API/app.py:66-70 | the essay template starts with the fallback notice and contains the topic |
| `Api.TestCaseFallbackMentionsTopic` | API/app.py:111 | the test-case template starts with the fallback notice and contains the topic |
| `Api.TestCaseFallbackSections` | API/app.py:112-127 | the headings "Test Case 1: Basic Functionality", "Test Case 2: Edge Cases", "Test Case 3: Performance" occur in the template at strictly increasing offsets |
| `Api.Chat` | API/app.py:140-215 | at most one model call, only to llama3.2; malformed body or non-string question: 500 and no call; off-topic question (default "Tell me something about agriculture"): the refusal and no call; on-topic: one call, whose text is the answer, or the canned answer for the question if it fails |
| `Api.OnTopicIgnoresCase` | API/app.py:155 | the gate gives the same verdict for a question and its lower-cased form |
| `Api.LookupFirst` | API/app.py:203 | every key of the table is listed, and looking it up returns the entry stored under its first occurrence |
| `Api.CannedAnswerChoice` | API/app.py:185-206 | the canned answer is the entry of the earliest table key (soil, crop, irrigation, fertilizer, pest, organic, sustainable, livestock, harvest, seed) occurring in the lower-cased question, and the general text when none occurs |
| `Chatbot.TopicsDistinct` | API/chatbot.py:95-96 | the ten topics are pairwise distinct |
| `Chatbot.FoundTopics` | API/chatbot.py:95-99 | the topics found in the lower-cased response; `Chatbot.FoundTopicsExact` states which |
| `Chatbot.Record` | API/chatbot.py:103-104 | one step of the loop: append the topic when not already discussed; the `Chatbot.RecordAll...` lemmas state its effect over a whole list |
| `Chatbot.Take` | API/chatbot.py:118 | the slice `[:n]`: at most `n` items, a prefix of the list, the whole list when it is no longer than `n`, and exactly `n` items otherwise |
| `Chatbot.RecordAll` | API/chatbot.py:101-104 | the topics list after recording the found topics; the `Chatbot.RecordAll...` lemmas below state its properties and `Chatbot.Session.RecordTopics` is proved to compute it |
| `Chatbot.FollowUpsFor` | API/chatbot.py:107-115 | the follow-ups of a priority table for the found topics; `Chatbot.FollowUpsForTable` and `Chatbot.BuildFollowUps` tie it to the four appends |
| `Chatbot.Suggestions` | API/chatbot.py:107-118 | the follow-ups truncated to three; `Chatbot.SuggestionsBounded` and `Chatbot.FirstThreeWin` state its properties |
| `Chatbot.Shown` | API/chatbot.py:70-78 | the assistant message appended: any "output" of a status-200 reply |
| `Chatbot.Answer` | API/chatbot.py:70-81 | the text the context is updated from: a string "output" of a status-200 reply |
| `Chatbot.FoundTopicsExact` | API/chatbot.py:95-99 | a topic is found iff it is one of the ten topics and occurs in the lower-cased response; found topics are distinct; the question plays no part |
| `Chatbot.RecordAllKeepsOld` | API/chatbot.py:101-104 | the previous topics stay an unchanged prefix, and afterwards a topic is discussed iff it was before or was found |
| `Chatbot.RecordAllNoDups` | API/chatbot.py:101-104 | recording never introduces a duplicate |
| `Chatbot.RecordAllAppendsUnseen` | API/chatbot.py:101-104 | with distinct found topics, exactly the found topics not discussed before are appended, in found order |
| `Chatbot.RecordAllAbsorbed` | API/chatbot.py:101-104 | recording topics already discussed changes nothing |
| `Chatbot.RecordAllIdempotent` | API/chatbot.py:101-104 | recording the same found topics twice gives the same list as recording them once |
| `Chatbot.FollowUpsForMembership` | API/chatbot.py:107-115 | the suggestions depend only on which topics were found, not on their order or repetition |
| `Chatbot.FollowUpsForSound` | API/chatbot.py:107-115 | every suggestion is the follow-up of a table topic that was found; there are no more than table entries |
| `Chatbot.SuggestionsBounded` | API/chatbot.py:107-118 | at most three suggestions, each the follow-up of a found topic |
| `Chatbot.FollowUpsForTable` | API/chatbot.py:107-115 | the priority table yields the soil, crop, irrigation, fertilizer follow-ups, in that order, for those found |
| `Chatbot.FirstThreeWin` | API/chatbot.py:107-118 | whenever soil, crop and irrigation are found (in any order), the suggestions are exactly theirs in priority order, so fertilizer's is the one cut off |
| `Chatbot.BuildFollowUps` | API/chatbot.py:107-115 | the four conditional appends produce the priority-table suggestions for the found topics |
| `Chatbot.Session.constructor` | API/chatbot.py:12-21 | a new session has an empty transcript and context `{[], "", []}` and satisfies the context invariant |
| `Chatbot.Session.Clear` | API/chatbot.py:199-205 | "Clear Conversation" empties the transcript and resets the context to `{[], "", []}` |
| `Chatbot.Session.RecordTopics` | API/chatbot.py:101-104 | the append loop leaves `topicsDiscussed` as the recording of the found topics, keeps it duplicate-free, and changes nothing else |
| `Chatbot.Session.ExtractTopicsAndSuggestFollowUps` | API/chatbot.py:93-118 | topics become the old topics with the response's found topics recorded; suggestions are rebuilt from the found topics alone; transcript and last question unchanged; invariant kept |
| `Chatbot.Session.ProcessInput` | API/chatbot.py:46-90 | the user message is always appended and becomes the last question; any "output" of a status-200 reply is appended as the assistant message; the context is updated from it only when it is a string, and is otherwise unchanged; the transcript only grows |

## Left out

- The FastAPI application, its routes and the `GET /` liveness handler, uvicorn start-up and the permissive CORS middleware: framework plumbing.
- The Ollama/LangChain call: a foreign call, replaced by the `invoke` parameter; a timeout or a retry on the same model does not exist in the code and is not modelled.
- JSON parsing and `JSONResponse` construction: the body is abstracted as `Body`, and the exact text of a parse exception is carried as `Unparsable(message)` rather than derived.
- The `print` of `last_error` after a fallback: output with no effect on the response; `Api.Resolve` still returns `lastError`.
- Unicode case mapping: `Strings.Lower` and `Strings.Capitalize` change ASCII letters only, whereas Python's methods also map other scripts.
- Streamlit rendering in the chat front-end (titles, images, buttons, expanders, the quick-question, sidebar and follow-up dispatch through session keys, the rerun) and the sidebar's capitalised topic list: user interface.
- The HTTP requests from the chat front-end: the reply is the `Reply` parameter of `ProcessInput`; a JSON body without "output" and one that does not decode are both `Received(status, Absent)`.
- A non-string "output" (which the façade itself never sends) is held in the transcript as its rendered text, where the front-end keeps the JSON value itself.
- API/client.py: two thin HTTP clients that only display what the façade returns.
- Chatbot.Session.ProcessInput: the transcript's append-only property is stated per call (old transcript plus one or two messages), not as a separate lemma over sequences of turns.
