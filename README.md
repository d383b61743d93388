# A verified model of the VISTA page-reading voice assistant

VISTA reads web pages aloud on request and is made of three programs:

- **The browser extension** (`URL_Server/background.js`, `URL_Server/contentScript.js`). It extracts the links of the page in the active tab. It computes a cache token: "1" when the page is the one it pushed last, "0" otherwise. It posts both to the voice server.
- **The voice server** (`URL_Server/server.py`). It keeps the last push in the process-global `browser_data` record. Its voice loop waits for a wake phrase, listens for a command, sends the command, the token and the links to the generation service, and speaks the answer. While it waits, it speaks stalling phrases without repeating any until all fourteen have been used.
- **The generation service** (`rag/main.py`). It rebuilds its vector index when the token is "0" and answers from the retrieved documents. `speech_tasks/speech.py` is a stand-alone version of the voice loop that hands commands to a callback and exits on an exit phrase.

Each part is modelled in Dafny:

- The decision logic is pure functions with contracts, plus lemmas about them. This covers phrase matching, the voice turn as a trace of spoken utterances and backend calls, the token and fallback rules, link extraction, the cache decision and the context join.
- The state the source updates in place is a class whose methods are proved against those functions:
  - `browser_data` is `Server.BrowserStore`;
  - the extension's `previousUrl` and its storage are `Background.ServiceWorker`;
  - the temporary directory is `Speech.VistaCoreAssistant`;
  - the `vectordb` directory is `Rag.Chat`.
- The stalling selector is a loop over a `used` set. `random.choice` is a free choice.
- Everything the programs cannot see is an input:
  - speech recognition results;
  - HTTP replies;
  - Chrome API results;
  - the scraper, chunker, vector store and language model, which are the function fields of `Rag.Engines`.

Modules: `Wrappers` (Option, Result), `Text` (Python's `lower`, `in`, `any`, `join` and `str(int)`, JavaScript's `startsWith`), `Json`, `Phrases`, `Server`, `Stalling`, `Speech`, `ContentScript`, `Background`, `Rag`, `Pipeline` (how the programs connect).

## Model

| member | source | states |
|---|---|---|
| Text.Lower | URL_Server/server.py:165 | `str.lower()` keeps the length, leaves no upper-case ASCII letter, keeps every other character and maps each upper-case letter to its lower-case partner |
| Text.ContainsMeans | URL_Server/server.py:165 | the `p in s` scan is true exactly when `p` occurs in `s` at some position |
| Text.JoinAt | rag/main.py:95 | in `sep.join(parts)`, each part sits at its offset, one separator follows every part but the last, and the last part ends the string |
| Phrases.IsWakeWord | URL_Server/server.py:163-167 | true exactly when the text is non-empty and "hey vista", "hi vista" or "hello vista" occurs in its lower-cased form; `None` and "" give false (the same list as line 47 and speech_tasks/speech.py:16) |
| Phrases.WakeWordAnywhere | speech_tasks/speech.py:140-144 | the test ignores case and accepts a wake phrase surrounded by any other words |
| Phrases.IsExitCommand | speech_tasks/speech.py:146-150 | true exactly when the text is non-empty and one of the four exit phrases of line 17 occurs in its lower-cased form |
| Phrases.ExitPhrasesReduce | speech_tasks/speech.py:17 | "goodbye vista" is redundant: the exit test equals the test on "bye vista", "exit vista", "close vista" |
| Phrases.WakeAndExitOverlap | speech_tasks/speech.py:16-17 | "hey vista", then any words, then "bye vista" passes both the wake test and the exit test, so the branch order matters |
| Json.StrIsZero | URL_Server/server.py:321-325 | the coerced token is "0" for the string "0" and the integer 0, and for nothing else |
| Json.IntToken | URL_Server/server.py:325 | `str()` of an integer token starts with "-" exactly when it is negative, and is otherwise a string of digits that reads back as the number |
| Server.PushedState | URL_Server/server.py:321-326 | an accepted push installs each field from the body, or "" / [] / "0" when its key is absent; a present token is stored as its `str()` (a string unchanged, see `StrIsZero` and `IntToken` for the rest) |
| Server.BrowserStore.constructor | URL_Server/server.py:38-42 | `browser_data` starts as ("", [], "0") |
| Server.BrowserStore.ProcessLinks | URL_Server/server.py:308-341 | succeeds exactly when the body is a non-empty object, and then replaces the whole record; otherwise answers 500 and leaves the record unchanged |
| Server.BrowserStore.HealthCheck | URL_Server/server.py:343-350 | reports "healthy", the current page and the number of URLs held |
| Server.Dispatch | URL_Server/server.py:201-270 | the payload is exactly (token, command, urls) of the record; only the token can change; it becomes "1" whenever an OK reply decodes to an object, even one without `response`; an OK object reply carrying `response` answers with exactly that value; every other outcome answers "Response not received" and leaves the record unchanged |
| Server.BrowserStore.SendCommandToBackend | URL_Server/server.py:169-270 | sends, answers and updates the record as `Dispatch` says |
| Server.Opening | URL_Server/server.py:281-291 | a woken turn opens with the acknowledgment, followed by the retrieving notice exactly when the token is "0", and nothing else; neither calls the backend |
| Server.VoiceTurn | URL_Server/server.py:279-302 | without a backend call the record is unchanged; with one, a command was heard and the record is what `Dispatch` leaves for it; every request carries the record's token and URLs |
| Server.VoiceTurnOpening | URL_Server/server.py:281-291 | no wake word: no event and the record is unchanged; otherwise the turn begins with the opening |
| Server.VoiceTurnBackend | URL_Server/server.py:292-302 | the backend is called exactly when the wake word was heard, the command is non-empty and URLs are known; then the opening is followed directly by the call, its answer and the closing remark; with no command the turn is the opening alone; with no URLs, "No page data available..." follows the opening and nothing else is said |
| Server.Run | URL_Server/server.py:276-306 | consecutive passes of the voice loop, each starting from the record the previous one left; the loop never changes the page and the URLs, only the token |
| Server.RunExtend | URL_Server/server.py:276-306 | one more pass starts from the record the earlier passes left and appends its events to theirs |
| Server.WarmTokenStays | URL_Server/server.py:261 | once the token is "1", later turns send "1" and never reset it |
| Server.VoicePass | URL_Server/server.py:276-302 | one pass on the shared record, with the events and the new record `VoiceTurn` gives |
| Server.RunVoiceAssistant | URL_Server/server.py:272-306 | consecutive passes, each starting from the record the previous one left |
| Stalling.Available | URL_Server/server.py:229 | the available list holds exactly the pool phrases not in `used` |
| Stalling.PoolDistinct | URL_Server/server.py:184-199 | the pool has 14 phrases, all different |
| Stalling.AvailableNonEmpty | URL_Server/server.py:229-232 | while some phrase is unused, the available list is not empty, so `random.choice` never raises |
| Stalling.PickMessage | URL_Server/server.py:224-233 | the pick comes from the pool; a full set is cleared first and then holds only the pick; otherwise the pick is not in `used`, and `used` gains exactly the pick |
| Stalling.SayWaitingMessages | URL_Server/server.py:221-235 | one phrase per round, all from the pool, with no repeat within any block of 14 consecutive picks since a reset |
| Stalling.BlockExhaustsPool | URL_Server/server.py:222-233 | every complete block of 14 picks uses every phrase exactly once |
| ContentScript.HttpLinks | URL_Server/contentScript.js:5-7 | keeps exactly the non-empty hrefs that start with "http" |
| ContentScript.HttpLinksOrder | URL_Server/contentScript.js:5-7 | filtering keeps the relative order of first occurrences |
| ContentScript.Dedup | URL_Server/contentScript.js:12 | `Array.from(new Set(s))` has the same elements as `s`, no duplicates, and is no longer |
| ContentScript.DedupOrder | URL_Server/contentScript.js:12 | the distinct elements appear in the order of their first occurrence |
| ContentScript.LinksInPageOrder | URL_Server/contentScript.js:5-12 | the distinct http links come out in the order of their first occurrence among the hrefs |
| ContentScript.ExtractUrls | URL_Server/contentScript.js:2-14 | `currentUrl` is the page location; `allUrls` holds every non-empty anchor href that starts with "http" and nothing else, without duplicates, in first-occurrence order, and is no longer than the anchor list |
| Background.TokenFor | URL_Server/background.js:70 | "1" exactly when the stored `previousUrl` is the extracted page, "0" otherwise |
| Background.Loaded | URL_Server/background.js:20-28 | a missing or empty stored value loads as `null`; any other loads unchanged |
| Background.Extracted | URL_Server/background.js:36-69 | extraction happens exactly when the tab id is truthy, the tab exists and the script returned a result, and it returns the injected pipeline's result (which `ExtractUrls` also gives, lines 54-61) |
| Background.ProcessStep | URL_Server/background.js:31-117 | with no extraction or a failed storage write, nothing changes and nothing is posted; otherwise `previousUrl` becomes the page and the post carries its token, URL and links |
| Background.Pushes | URL_Server/background.js:31-117 | successive `processTab` calls post at most one message each, and every posted token is "0" or "1" |
| Background.TokenMeansSamePage | URL_Server/background.js:70-74 | across many calls, each post's token is "1" exactly when its page is the page of the previous post; for the first post, the starting `previousUrl` |
| Background.LastPushRemembered | URL_Server/background.js:72-74 | after many calls the worker remembers the page of the last post, or its starting `previousUrl` when nothing was posted |
| Background.FirstPushIsCold | URL_Server/background.js:3 | the first page a fresh worker posts carries "0" |
| Background.RestartRemembers | URL_Server/background.js:20-28 | a non-empty stored page loads back, so revisiting it after the extension is activated (installed, updated or reloaded) gives "1" |
| Background.ServiceWorker.constructor | URL_Server/background.js:3 | `previousUrl` starts as `null`; storage keeps what it held |
| Background.ServiceWorker.LoadPreviousUrl | URL_Server/background.js:20-28 | `previousUrl` becomes the loaded value |
| Background.ServiceWorker.ProcessTab | URL_Server/background.js:31-117 | state and post as `ProcessStep` says; storage and `previousUrl` are written before the POST, whatever the server replies; success is reported only for an OK reply |
| Background.ServiceWorker.OnUpdated | URL_Server/background.js:120-134 | processes the tab only when the status is "complete", the URL starts with "http" and the tab still exists; when it runs, `previousUrl`, storage and the posts change as `ProcessStep` says, and otherwise nothing changes |
| Background.ServiceWorker.OnActivated | URL_Server/background.js:137-153 | processes the tab only when the tab id is truthy, the tab is found and its URL starts with "http"; when it runs, `previousUrl`, storage and the posts change as `ProcessStep` says, and otherwise nothing changes |
| Background.ServiceWorker.InitializeExtension | URL_Server/background.js:168-184 | loads `previousUrl` first, then processes the active tab when its id is truthy and its URL starts with "http"; when it runs, `previousUrl`, storage and the posts change as `ProcessStep` says, and otherwise nothing changes |
| Speech.ConversationTurn | speech_tasks/speech.py:106-132 | a wake word gives "mm hmm", then a callback with the command exactly when the command is non-empty and a callback is set; otherwise an exit phrase gives the callback with "" (if one is set), "Goodbye!" and the exit, in that order; anything else does nothing |
| Speech.WakeTakesPriority | speech_tasks/speech.py:111-125 | text holding both a wake phrase and an exit phrase takes the wake branch and never exits |
| Speech.Conversation | speech_tasks/speech.py:103-132 | the passes up to and including the first exit; every event is one that some pass produces |
| Speech.ExitWhenAsked | speech_tasks/speech.py:125-130 | `handle_exit` runs exactly when some pass heard an exit phrase without a wake phrase |
| Speech.ExitIsLast | speech_tasks/speech.py:130 | `handle_exit` runs once, as the last event of the conversation |
| Speech.CallbackProtocol | speech_tasks/speech.py:117-128 | the callback receives only a command heard after a wake word, or ""; it is never called when none is set |
| Speech.PassesAt | speech_tasks/speech.py:106-132 | pass `i` of the loop is the turn on the `i`-th recognition |
| Speech.ConversationPasses | speech_tasks/speech.py:103-132 | the conversation is the passes laid end to end, up to and including the first that exits |
| Speech.Listen | speech_tasks/speech.py:103-132 | the loop's events are `Conversation` of the recognitions, and it stops on an exit exactly when the trace holds one |
| Speech.VistaCoreAssistant.constructor | speech_tasks/speech.py:35-38 | a fresh empty temporary directory and no callback |
| Speech.VistaCoreAssistant.SetCommandCallback | speech_tasks/speech.py:42-44 | a callback is set exactly when the argument is not `None`; nothing else changes |
| Speech.VistaCoreAssistant.TextToSpeech | speech_tasks/speech.py:46-64 | a played file is removed again; a failure after the save leaves the file in the temporary directory; a failure before the save, or a missing directory, leaves the files as they were |
| Speech.VistaCoreAssistant.HandleExit | speech_tasks/speech.py:152-162 | exactly the files that could not be removed remain; the directory is removed and the program exits exactly when none remain; otherwise `rmdir` fails and the directory stays |
| Speech.VistaCoreAssistant.HandleConversation | speech_tasks/speech.py:103-132 | the event trace is `Conversation` of the recognitions; `handle_exit` runs exactly when the trace holds an exit; without one the directory is untouched; after one, the files that could not be removed remain, and the program exits cleanly and the directory is gone exactly when none remain (or when the directory was already gone), while otherwise `rmdir` fails and the directory stays |
| Rag.CreateDbOutcome | rag/main.py:25-48 | a failed scrape leaves no index and raises; an empty scrape leaves no index and raises nothing; after a non-empty scrape, a failed chunk gives no index and `ValueError`, a failed persist gives what it left behind and `ValueError`, and a successful persist gives exactly the chunker's output and no error; and conversely, no error means one of the two clean cases and `ValueError` means the chunk or the persist failed |
| Rag.PurgeFirst | rag/main.py:26-27 | the rebuild never depends on the index that was there before |
| Rag.PageContents | rag/main.py:92-93 | the list holds each document's text, in retrieval order |
| Rag.ContextLayout | rag/main.py:92-95 | in the context each document's text follows its predecessor after one "\n\n", and the last one ends it |
| Rag.NoDocsNoContext | rag/main.py:95 | no documents gives the empty context |
| Rag.GenerateOutcome | rag/main.py:79-111 | the index is rebuilt exactly when the token is the string "0"; a failed rebuild is the result; otherwise the call succeeds exactly when retrieval from the index there is afterwards and the model both return, the answer then being the model's on the joined context, and a raising retriever or model is the result `EngineFailed` |
| Rag.ColdAnswerIgnoresOldIndex | rag/main.py:83-88 | with token "0" the outcome does not depend on the previous index |
| Rag.Handle | rag/main.py:114-129 | undecodable JSON gives 400; a body that is not JSON, not an object or lacks a field gives 500 and leaves the index unchanged; otherwise command, urls and token become question, urls and token of `generate`, a successful answer is the 200 `{response}` and any failure is 500 |
| Rag.Chat.constructor | rag/main.py:18-22 | a handler works on the directory that is already there |
| Rag.Chat.CreateDb | rag/main.py:25-48 | directory and error as `CreateDbOutcome` says |
| Rag.Chat.CollectContext | rag/main.py:92-95 | the loop plus the join give `Context` of the documents |
| Rag.Chat.Generate | rag/main.py:79-111 | directory and result as `GenerateOutcome` says |
| Rag.Chat.HandleGenerate | rag/main.py:114-129 | directory and reply as `Handle` says |
| Pipeline.PushInstalls | URL_Server/background.js:91-95 | a push from the extension is always accepted and installs exactly its three fields |
| Pipeline.ServeRoundTrip | URL_Server/server.py:242-263 | one command end to end through the /generate handler: rebuild exactly when the server's token is "0"; the answer spoken is the model's on success and the fallback on any failure, a raising retriever or model included; the server's token becomes "1" on success and is otherwise unchanged |
| Pipeline.SecondCommandReuses | URL_Server/server.py:261 | after a first successful command, the next one reuses the index |
| Pipeline.PageTokenDecidesRebuild | rag/main.py:83-86 | a page pushed twice in a row reuses the index; a newly pushed page rebuilds it from its own links |

Behaviours of the code that the model keeps as written:

- **Rebuild condition.** The index is rebuilt only when the token is exactly the string "0". Any other value reuses it, the integer 0 and "None" included.
- **Empty scrape.** An empty scrape builds nothing and raises nothing.
- **Missing index.** A missing index is opened without complaint, so retrieval runs on whatever the store gives.
- **Token on a reply without `response`.** An OK reply whose JSON object has no `response` still sets the token to "1".
- **Loading the stored page.** `loadPreviousUrl` runs only in `initializeExtension`, which runs only on the `activate` event (install, update, reload). A worker woken from idle or started with the browser begins from `null` without loading, so its first post carries "0" even for the stored page (`FirstPushIsCold`).
- **Token values.** The token stored from a push is `str()` of any JSON scalar, not only "0" or "1".

## Left out

- Audio: speech synthesis, playback, playback speed, the microphone and the recognizer's tuning values. A recognition is an input (`Option<string>`).
- Speech always succeeds in the passes of the voice loop of `URL_Server/server.py`. In the source, a synthesis failure there (gTTS raises on an empty answer) is re-raised by `text_to_speech`, cuts the turn short, and is caught by the loop's `except`. In `speech_tasks/speech.py`, `text_to_speech` swallows every exception itself. A failed "mm hmm" or "Goodbye!" is then simply not heard, and the pass goes on to the callback or to `handle_exit`, as the model's passes do.
- ContentScript.ExtractUrls: every anchor's `href` is modelled as a string. An SVG `<a>` has a non-string `href` object, which is truthy, so `startsWith` throws and the injected function returns no result. That case is `Visit.script == None` in `Background`: nothing is extracted and nothing is pushed for the page.
- Speech.VistaCoreAssistant.HandleConversation: its passes do not call `TextToSpeech`. So the files a failed playback leaves in the temporary directory (`TextToSpeech` models this) are not threaded through a conversation, and the directory `handle_exit` empties is the one the assistant had when the conversation started.
- Threads and timing: the stalling thread runs beside the request, with `threading.Event`, the sleeps and the async listeners. The stalling selector is modelled on its own, for a given number of rounds, and so is the voice turn. The interleaving of their speech is not modelled.
- The voice thread and the Flask handlers share `browser_data`, but the model runs their operations one after the other. In the source, a `process_links` call can replace the record while the voice thread waits on the generation service (`URL_Server/server.py` line 242). Line 261 then writes "1" into the newly pushed record, so the new page's "0" is lost and the next command reuses the old page's index. This interleaving is not modelled.
- Text.Lower: folds ASCII letters only. Python's `lower()` also folds other letters, which no phrase here contains.
- Flask, CORS, `requests` and the Chrome APIs are not modelled; their outcomes are inputs (`PushBody`, `HttpReply`, `Visit`, `TabInfo`, `GenerateRequest`).
- Chrome storage failing on load is not modelled.
- JSON values are simplified:
  - `currentUrl` and `allUrls` of a push are strings and string lists; a `null` or other non-string value there is not modelled;
  - a pushed `token` is a string, an integer, a boolean or `null`; a float, array or object token is not modelled;
  - the `response` of a generation reply is a string or absent; a `null` or other non-string `response` is not modelled;
  - `command` and `urls` of a generation request are a string and a string list; other value types in those fields are not modelled.
- The loops run as many passes as there are inputs. `KeyboardInterrupt` in `handle_conversation` is not modelled.
- The engines of the generation service are uninterpreted functions:
  - the scraper and its tag list (`rag/lib/scraper.py` is not part of this model);
  - the semantic chunker and the embeddings;
  - Chroma and the multi-query MMR retrieval;
  - the prompt text, the language model and `torch.cuda.empty_cache`.
- Speech.VistaCoreAssistant.HandleExit: the source calls `sys.exit(0)` after removing the directory. The model reports this as `ExitedCleanly` and does not model the process ending.
- `URL_Server/popup.js` is not part of this model. It only renders.
- Logging and `print` are not modelled.
- `torch.cuda.empty_cache` raising in `generate` is not modelled. Failures of the retriever and the language model are modelled as `EngineFailed`.
