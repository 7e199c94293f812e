# Mental-health support app: chat, mood and resource state

This project models the stateful core of a two-tier mental-health support web app.

- **The React client** (`frontend/src/App.js`), in module `App`. This is the component's state:
  - the chat transcript, the input box, the session id and the busy flag;
  - the mood form;
  - the selected resource category and the category list.

  These become the fields of the class `App.AppState`.
  - Chat: `sendMessage` is split at its one `await`.
    - `BeginSend` is the synchronous prefix.
    - `CompleteSend` continues after a response body was parsed.
    - `FailSend` continues after `fetch` or JSON decoding threw.
  - Mood: `logMood`'s continuation is `SettleLogMood`.
  - Resources: `handleCategoryChange` and the `loadCategories` prepend are methods too.
  - The view expressions are pure functions: the emoji, the colour band, the resource URL, the preview, the labels, the `tel:` link and the history window.
- **The FastAPI server** (`backend/server.py`), in module `Server`.
  - Each MongoDB collection is an in-memory sequence of documents in insertion order. The sequences are fields of the class `Server.Database`.
  - The write handlers (`chat_with_ai`, `log_mood`, `create_resource`, `init_sample_resources`) are methods. Each is specified by a normalisation function.
  - The read handlers are functions over the stored sequences: `get_chat_history`, `get_mood_history`, `get_resources` and `get_resource_categories`.
- **`ClientServer`** connects the two sides:
  - the URL the client builds is read back by the server as the chosen category;
  - the session id the server picks is the one the client keeps;
  - the mood panel's ten entries are the server's ten newest.

Supporting modules:
- `Common`: `Option` and JavaScript/Python truthiness of an optional string.
- `Seqs`: a stable insertion sort, filter, limit and first-occurrence distinct, with multiset contracts for the sort, the filter and the limit, and no-repeats-same-members for distinct.
- `JsString`: ECMAScript `trim`, first-occurrence `replace` of one character, and the `/[^\d]/g` digit filter.

Modelling choices:
- Timestamps are integers. Fresh `uuid4` values and clock readings are parameters. The LLM's answer, or the exception it raises, is an input.
- `fetch` resolves on any HTTP status. So a 500 from `chat_with_ai` reaches the client's success path:
  - its body `{"detail": ...}` has neither `response` nor `session_id`;
  - the client appends an empty ai turn and adopts no session.
  
  `ClientServer.ReplyOf` and `CompleteSend` model exactly this. Only a thrown error produces the apology.
- `limit` in `get_mood_history` follows pymongo: 0 means no limit, and a negative `n` means `|n|`. For a positive limit this is "at most `limit`, exactly `limit` when there are that many".
- MongoDB leaves the order of equal timestamps and of `distinct` open. The model fixes one order, but no contract depends on it:
  - the sorted reads state sortedness and the multiset of results;
  - `Categories` and `SampleCategoriesListed` state no repeats and the membership;
  - `ChatHistoryInSendOrder` assumes strictly increasing timestamps;
  - `RecentWindowIsTenNewest` states the window by its size, its order and its newest-ness, not by which of several equal timestamps it shows;
  - `DistinctOfDistinct` is used only to count the seeded categories.

## Model

| member | source | states |
|---|---|---|
| App.ApiBaseUrl | frontend/src/App.js:4 | the environment URL when it is set and non-empty, else `http://localhost:8001`; never empty |
| App.ResourcesUrl | frontend/src/App.js:34-36 | always starts with `base/api/resources`; has `?category=<c>` appended exactly when the category is truthy and not `all`, and nothing appended otherwise |
| App.MoodEmoji | frontend/src/App.js:150-153 | always one of the five emojis; the neutral emoji for any level outside 1..10 |
| App.MoodTone | frontend/src/App.js:155-161 | the colour band of a level is its emoji index `floor((level-1)/2)` clamped to the five bands |
| App.MoodColorClass | frontend/src/App.js:155-161 | the class returned is `text-<colour>-500` for the colour of the level's band, the band being the clamped emoji index |
| App.MoodToneMonotone | frontend/src/App.js:155-161 | a higher level never gets a lower colour band |
| App.MoodEmojiFollowsTone | frontend/src/App.js:150-161 | on 1..10 the emoji is the one at the colour band's index |
| App.MoodEmojiPairs | frontend/src/App.js:150-153 | levels 2k-1 and 2k show the k-th emoji, so 1-2 show the first and 9-10 the last |
| App.Preview | frontend/src/App.js:479-482 | content of at most 200 characters is shown whole; longer content is shown as its first 200 characters followed by `...` |
| App.PreviewIdempotent | frontend/src/App.js:479-482 | previewing a preview changes nothing |
| App.CategoryLabel | frontend/src/App.js:459 | same length; the first character upper-cased; after it, only the first hyphen becomes a space |
| App.CategoryBadge | frontend/src/App.js:470 | same length; the first hyphen becomes a space and every other character is kept, so exactly one hyphen fewer when there is one |
| App.TelHref | frontend/src/App.js:572 | `tel:` followed by digits only |
| App.TollFreeHref | frontend/src/App.js:556-572 | `1-aaa-bbb-cccc` is dialled as `tel:1aaabbbcccc` |
| App.WordsBeforeNumberDropped | frontend/src/App.js:551-572 | a text line such as `Text HOME to 741741` becomes a link to the number alone |
| App.RecentWindow | frontend/src/App.js:413 | the first ten history entries, or all of them when there are fewer |
| App.UserTurnAlternates | frontend/src/App.js:65-78 | a settled alternating transcript followed by a sendable user turn is alternating and awaits a reply |
| App.AiTurnAlternates | frontend/src/App.js:92-116 | an awaiting alternating transcript followed by any ai turn is alternating and settled |
| App.AdoptSession | frontend/src/App.js:94-96 | a held truthy session id is kept; otherwise the returned one is taken |
| App.AdoptionIsFinal | frontend/src/App.js:94-96 | once a session id is held, no later reply changes it |
| App.AppState.constructor | frontend/src/App.js:4-17 | the initial state: empty transcript and input, no session, not busy, mood 5 with empty notes, category `all`, no categories |
| App.AppState.EditInput | frontend/src/App.js:325 | typing replaces the input and keeps the state invariant |
| App.AppState.BeginSend | frontend/src/App.js:65-90 | blank input or a send while busy changes nothing and sends nothing; otherwise exactly one user turn holding the trimmed input is appended, the input is cleared, the busy flag is raised, and the request carries the trimmed text and the held session id |
| App.AppState.PostUserTurn | frontend/src/App.js:68-78 | the echo of a sendable text: exactly one user turn holding it is appended, the input is cleared and the busy flag raised, keeping the transcript alternating |
| App.AppState.CompleteSend | frontend/src/App.js:92-116 | exactly one ai turn holding the reply (empty when absent) is appended to the unchanged transcript; the session is adopted only when none is held; the busy flag is lowered |
| App.AppState.FailSend | frontend/src/App.js:106-116 | exactly one ai turn holding the fixed apology is appended; the busy flag is lowered; the session is untouched |
| App.AppState.SetMoodLevel | frontend/src/App.js:374 | the slider sets the mood level within 1..10 |
| App.AppState.EditNotes | frontend/src/App.js:389 | typing replaces the mood notes |
| App.AppState.MoodRequest | frontend/src/App.js:126-130 | the body posted carries the current level and notes and no activities, and its level is within 1..10 while the state invariant holds |
| App.AppState.SettleLogMood | frontend/src/App.js:119-143 | only an ok response resets the notes to empty and the level to 5, asks for the history to be reloaded and shows the success alert; a non-ok response changes nothing and shows no alert; only a thrown error shows the failure alert |
| App.AppState.HandleCategoryChange | frontend/src/App.js:145-148 | the chosen category is selected, and its resources are fetched from `ResourcesUrl` for that category |
| App.AppState.CategoriesLoaded | frontend/src/App.js:45-49 | the category list is `all` followed by the server's categories, so it always starts with the sentinel |
| JsString.Trim | frontend/src/App.js:66-68 | the result has no leading or trailing white space and is no longer than the input |
| JsString.TrimEmpty | frontend/src/App.js:66-68 | the trim is empty exactly when the input is all white space, which is when the send is ignored |
| JsString.TrimOfPadded | frontend/src/App.js:66-68 | trimming white-space padding returns the text between the padding |
| JsString.TrimIdempotent | frontend/src/App.js:66-68 | trimming a trimmed string changes nothing |
| JsString.ReplaceFirst | frontend/src/App.js:459 | `replace` with a string pattern changes only the first occurrence |
| JsString.ReplaceFirstCount | frontend/src/App.js:470 | `replace` removes exactly one occurrence of the pattern when there is one |
| JsString.DigitsOnly | frontend/src/App.js:572 | `replace(/[^\d]/g, '')` leaves only digits |
| JsString.DigitsOnlyKeepsDigits | frontend/src/App.js:572 | every digit is kept, as many times as it occurs, and nothing else is |
| JsString.DigitsOnlyAppend | frontend/src/App.js:572 | the filter distributes over concatenation |
| JsString.TollFreeDigits | frontend/src/App.js:556-572 | the hyphens of a `1-aaa-bbb-cccc` number are dropped |
| Server.SessionFor | backend/server.py:150 | the given session id when it is non-empty, else the fresh one, so never empty |
| Server.NewMoodRecord | backend/server.py:194-200 | the level is copied unchecked; absent or empty notes become `""` and absent activities `[]` |
| Server.NewResourceRecord | backend/server.py:239-247 | title, category, description and content are copied; an absent url becomes `""` |
| Server.ChatHistory | backend/server.py:183-186 | exactly that session's conversations, each as often as stored, in ascending timestamp order |
| Server.ChatHistoryInSendOrder | backend/server.py:166-186 | when every insert is stamped later than the one before, a session's history is its messages in the order they were sent; with distinct timestamps this does not depend on how ties are ordered |
| Server.MoodHistory | backend/server.py:209-214 | newest first; length `limit` (absolute value, 0 meaning all) capped by the store size; drawn from the stored entries |
| Server.MoodHistoryKeepsNewest | backend/server.py:213-214 | every left-out entry is no newer than every returned one |
| Server.MoodHistoryExactLimit | backend/server.py:211-214 | a positive limit within the store size yields exactly that many entries |
| Server.ResourcesIn | backend/server.py:219-223 | newest first; each stored resource matching the query (any, when the category is absent or empty) appears as often as stored, and nothing else appears |
| Server.ResourcesOfCategory | backend/server.py:222-223 | for a non-empty category, exactly the stored resources of that category |
| Server.ResourcesOfAll | backend/server.py:221-223 | for no category or `""`, every stored resource, each as often as stored |
| Server.Categories | backend/server.py:231 | every category of a stored resource exactly once, and nothing else |
| Server.AnxietyGuide | backend/server.py:95-103 | the first sample: its title, the `anxiety` category, its description, an empty url, the fresh id and time |
| Server.GroundingTechnique | backend/server.py:104-112 | the second sample: its title, the `coping-strategies` category, its description, an empty url, the fresh id and time |
| Server.MindfulnessPractice | backend/server.py:113-121 | the third sample: its title, the `mindfulness` category, its description, an empty url, the fresh id and time |
| Server.ProfessionalHelp | backend/server.py:122-130 | the fourth sample: its title, the `professional-help` category, its description, an empty url, the fresh id and time |
| Server.SampleDocuments | backend/server.py:94-131 | the four samples in list order, each with its own fresh id and clock reading |
| Server.Seeded | backend/server.py:134-135 | the samples replace an empty store; a non-empty store is kept |
| Server.SeedingIsIdempotent | backend/server.py:134-135 | seeding twice equals seeding once, whatever the second run draws |
| Server.SampleCategoriesListed | backend/server.py:93-135 | the seeded store offers exactly the four sample categories, each once |
| Server.CreatedResourceIsListed | backend/server.py:222-223 | a resource stored by `create_resource` is among the `get_resources` results for its own category |
| Server.Database.constructor | backend/server.py:93-135 | the three collections start empty |
| Server.Database.ChatWithAi | backend/server.py:146-178 | on an answer, exactly one conversation with the chosen session id, the user's message and the answer is appended, and the answer is returned with that id; when the LLM raises, nothing is stored and a `Chat error: ` detail is returned; the other collections are unchanged |
| Server.Database.LogMood | backend/server.py:191-204 | the normalised record is appended and returned unchanged; the other collections are unchanged |
| Server.Database.CreateResource | backend/server.py:236-251 | the normalised record is appended and returned, and it is then listed under its category; the other collections are unchanged |
| Server.Database.InitSampleResources | backend/server.py:93-135 | the four samples are built whether or not they are inserted; the resource store becomes `Seeded` of them; the other collections are unchanged |
| Seqs.Sort | backend/server.py:223 | a sorted permutation of its input, as every `.sort` of the read handlers returns |
| Seqs.Filter | backend/server.py:222-223 | exactly the elements satisfying the query, each as often as in the input |
| Seqs.Limit | backend/server.py:214 | a prefix of length `|n|` (all of it for 0), capped at the input length |
| Seqs.Distinct | backend/server.py:231 | duplicate-free with the same members |
| Seqs.FilterThenSort | backend/server.py:183-186 | a filtered query sorted by a key is sorted, holds each matching element as often as the input and no other, and has exactly the matching members |
| Seqs.DistinctOfDistinct | backend/server.py:231 | the model's first-occurrence `distinct` returns a list without repeats unchanged; only the count and membership it yields are claimed of the server |
| Seqs.LimitOfSorted | backend/server.py:214 | a limit applied after sorting keeps the order, draws from the input and leaves out only elements sorted no earlier |
| ClientServer.RequestedCategory | backend/server.py:219-220 | the category query parameter read from a resources URL |
| ClientServer.UrlRoundTrip | frontend/src/App.js:34-36 | for a category with no `&`, `#`, `+`, `%`, tab or newline that does not end in a space or control character, `get_resources` reads back exactly the category the client filtered by, and none when it did not filter |
| ClientServer.AllListsEverything | frontend/src/App.js:34-36 | choosing `all` makes `get_resources` list every stored resource |
| ClientServer.CategoryListsItsResources | frontend/src/App.js:34-36 | choosing another non-empty category that is safe in the same sense makes `get_resources` list exactly that category's stored resources |
| ClientServer.ReplyOf | backend/server.py:175-178 | a success body carries the answer and the session id; a 500 body carries neither |
| ClientServer.SessionAgreement | frontend/src/App.js:94-96 | after a successful exchange the client holds the id `chat_with_ai` used; a client that already held one gets it back |
| ClientServer.ServerErrorKeepsSessionUnbound | frontend/src/App.js:92-104 | a 500 from `chat_with_ai` leaves an unbound client unbound and shows an empty ai turn |
| ClientServer.RecentWindowIsTenNewest | frontend/src/App.js:413 | the ten entries shown of the default 30-entry history are as many as stored up to ten, newest first, drawn from the store, and no stored entry left out is newer than one shown |
| ClientServer.PrefixKeepsNewest | frontend/src/App.js:413 | a prefix of a newest-first read that keeps the newest of a store keeps the newest of it too |
| ClientServer.MoodFormStored | backend/server.py:194-200 | the body `logMood` builds from the form is stored by `log_mood` with the form's level and notes and no activities, and the stored level is within 1..10 although the server does not check it |

## Left out

- Rendering, styling, the hero and crisis panels' static text and auto-scroll: presentation only. Of the crisis panel, only the `tel:` link expression is modelled.
- `fetch`, JSON encoding and decoding, `console.error` and `alert` are not modelled. Each request's outcome is an input: a parsed body, a non-ok status or an exception. `SettleLogMood` returns the alert text rather than showing it.
- Overlapping requests: the interleaving of concurrent `loadResources` and `loadMoodHistory` calls, where the last one to resolve wins.
- React batching: each state update is taken to apply before the next event. The functional `prev => [...prev, x]` updates are taken as plain appends.
- `loadResources`, `loadCategories` and `loadMoodHistory` storing `resources` and `moodHistory`: only the URL choice, the `all` prepend and the ten-entry window are modelled. The `|| []` fallbacks are not.
- Clocks, locales (`toISOString`, `toLocaleTimeString`) and `uuid4` become parameters.
- The LLM client (`LlmChat`, its model and token settings) is a foreign call. Its result is an input.
- MongoDB, FastAPI routing, CORS, dotenv and uvicorn: only collection semantics are kept. The `_id` key is projected away on every read, so it is not modelled.
- Failures of the database calls are not modelled. `chat_with_ai`'s LLM failure is the only error path. The `HTTPException(500)` bodies of the other handlers are not modelled.
- pydantic's type validation of request bodies: bodies are taken as already typed.
- The health and crisis-resources endpoints are constant responses and are not modelled.
- Strings are sequences of code points, not UTF-16 code units. The 200-character preview can therefore differ from the browser's on text outside the Basic Multilingual Plane.
- `toUpperCase` is modelled for ASCII letters only.
- ClientServer.RequestedCategory: reads the raw text after `?category=`. It does not model what happens to the URL between the client and the server:
  - the URL parser removes tabs and newlines and drops trailing spaces and control characters;
  - the server's query parser splits at `&`, cuts at `#` and decodes `+` and `%XX`.
  
  The client puts the category into the URL unencoded, as in the source. So `ClientServer.UrlRoundTrip` and `ClientServer.CategoryListsItsResources` are stated only for `QuerySafe` categories: no `&`, `#`, `+`, `%`, tab or newline, and not ending in a space or control character. Only an inner space round-trips, sent as `%20` and decoded back.
- Server.MoodHistory: pymongo's cap of a negative limit to a single result batch is not modelled.
- Server.AnxietyGuide, Server.GroundingTechnique, Server.MindfulnessPractice, Server.ProfessionalHelp, Server.SampleDocuments and Server.Database.InitSampleResources: the contracts do not state the long `content` paragraphs. The method bodies set them, but keeping them out of every contract keeps the proofs small.
- Switching tabs (`activeTab`) changes only what is shown and is not modelled.
