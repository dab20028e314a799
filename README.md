# Self-improving reply prompt: a verified model

This project models the core of a small back end. The back end proposes replies for an
immigration consultant's chat, and it learns its instruction prompt from real
conversations. It has four pieces:

- **Segmenter** (`segmenter.dfy`, data_loader.py `process_conversations`).
  - Direction-tagged transcript messages are merged into role blocks.
  - Every client block followed by a consultant block yields one training sample.
  - A sample is (`clientSequence`, `consultantReply`, `chatHistory`), where the history is a
    snapshot of all earlier blocks.
- **Prompt store** (`prompt_store.dfy`, db.py), a class with:
  - a local JSON record (absent, unreadable, or parsed);
  - a database state (no URL, failing connect, failing statements, or working);
  - the `system_prompts` rows, oldest first.

  A read cascades from the local record to the newest row to `DEFAULT_PROMPT`. A save
  appends a row when the database works and overwrites the local record when it can be
  written. `get_db_connection` is the predicate `GetDbConnection` on the database state.
  The fallback is the constant field `fallback`, which the constructor sets to
  `DEFAULT_PROMPT`; the predicate `Valid` records that fact.
- **Generation** (`generation.dfy`, ai.py and prompt_editor.py).
  - The model backend is a class whose `k`-th call answers with a scripted outcome. Ghost
    logs hold the prompts sent and the seconds slept.
  - Fence stripping is modelled as left-to-right replace-all. JSON parsing is a parameter.
  - The shared retry loop has five attempts. Back-off is `5 * 2^k` on a "429" error before
    the last attempt. The loop returns a busy message when the fifth attempt fails.
  - The three operations are `generate_reply`, `generate_improved_prompt` (single attempt)
    and `apply_manual_instructions`.
- **Handlers** (`app.dfy`, app.py).
  - Each handler is a method from a request record to a status code and a JSON payload,
    over the store and the backend.
  - The scenarios tie the handlers together: a save followed by a read, a stale local
    record, a manual update while rate limited, and one full learning round.

`wrappers.dfy` holds `Option` and `Result`. `text.dfy` holds the few `str` operations the
code uses: `startswith`, `in`, `replace`, `join` and `upper`.

Three consequences of the code, stated by the lemmas:

- The worked transcript `[in, in, out, in, out]` gives two samples. The second sample's
  history has two turns: the client's, then the consultant's. Block *i* enters the history
  after pair *i* (data_loader.py:57-60).
- The back-off delays are 5, 10, 20 and 40 seconds, 75 in all. No sleep follows the fifth
  attempt (ai.py:68, prompt_editor.py:120).
- When its attempts are exhausted, `apply_manual_instructions` returns the
  `"Error: AI busy ..."` text (prompt_editor.py:127-128). The handler answers that text
  with 429 (app.py:83-84).

## Model

| member | source | states |
|---|---|---|
| Text.ContainsIffOccurs | ai.py:68 | the recursive substring test `sub in s` holds exactly when `sub` occurs at some position of `s` |
| Text.ReplaceAll | ai.py:59-61 | `str.replace` with a replacement no longer than the pattern never lengthens the text, and one of the same length keeps its length; deleting a fence therefore never adds characters |
| Text.Join | data_loader.py:47-48 | `"\n\n".join(parts)` is as long as all the parts together plus one separator between each pair of neighbours; no parts join to "" |
| Text.Upper | ai.py:32 | `upper` keeps the length and maps every character through the ASCII upper-case map |
| Segmenter.RoleOf | data_loader.py:28 | a message is the client's exactly when its direction is `"in"`; any other direction is the consultant's |
| Segmenter.Group | data_loader.py:20-38 | a non-empty message list forms at least one block and no more blocks than messages |
| Segmenter.ExtendShape | data_loader.py:30-37 | one grouping step keeps blocks alternating and non-empty, keeps the first block's role and ends with a block of the new message's role |
| Segmenter.GroupShape | data_loader.py:20-38 | the blocks alternate in role and are non-empty; the first block has the first message's role and the last block the last message's |
| Segmenter.GroupPreservesMessages | data_loader.py:20-38 | flattening the blocks gives every input message, with its role and text, in input order; the message count is kept |
| Segmenter.HistoryExact | data_loader.py:57-60 | the history before pair i has exactly i turns, the k-th being block k's role and its texts joined with "\n\n" |
| Segmenter.BoundariesExact | data_loader.py:42-46 | the boundary list of the walk holds exactly the client-then-consultant pairs below n, in strictly increasing order |
| Segmenter.WalkAtBoundaries | data_loader.py:42-60 | the walk emits one sample per boundary, in order; the j-th sample is built from the j-th boundary pair, and its history length is that pair's index |
| Segmenter.BoundaryIffClient | data_loader.py:46 | between alternating blocks, pair i is a boundary exactly when block i is the client's |
| Segmenter.AllSamplesAppend | data_loader.py:14-40 | the samples of two lists of conversations are the samples of each; the history restarts with every conversation |
| Segmenter.EmptyConversation | data_loader.py:15-17 | a missing or empty message list yields no sample |
| Segmenter.SingleRoleConversation | data_loader.py:38-42 | messages that all have one role form a single block and yield no sample |
| Segmenter.WorkedExampleGroups | data_loader.py:26-38 | `[in, in, out, in, out]` groups into the four blocks client [a, b], consultant [c], client [d], consultant [e] |
| Segmenter.WorkedExampleWalk | data_loader.py:42-60 | those four blocks give two samples, the first with an empty history, the second with the client turn and then the consultant turn |
| Segmenter.WorkedExample | data_loader.py:11-62 | `[in, in, out, in, out]` yields exactly those two samples |
| Segmenter.GroupByDirection | data_loader.py:20-38 | the grouping loop computes `Group` of the messages |
| Segmenter.WalkPairs | data_loader.py:40-60 | the pair loop, with its history copied into each sample, computes the walk over all pairs |
| Segmenter.ProcessConversations | data_loader.py:11-62 | the outer loop gives each conversation's samples, concatenated in order, and skips conversations without messages |
| PromptStore.Lookup | db.py:49 | `dict.get`: the stored value when the key is present, the default otherwise |
| PromptStore.GetDbConnection | db.py:29-37 | no `DATABASE_URL` or a failing connect gives `None`; otherwise a connection is handed out, even one whose statements will fail |
| PromptStore.Store.constructor | db.py:11-25 | a new store holds the given local record, database state and rows, and is `Valid`: its fallback prompt is `DEFAULT_PROMPT`, the 14-line text of the source |
| PromptStore.Store.GetActivePrompt | db.py:39-71 | a parsed local record answers with its `prompt_text` (default when missing) without the database; otherwise a working, non-empty database answers with its newest row; otherwise the default |
| PromptStore.Store.SaveNewPrompt | db.py:73-107 | the database gains exactly one `(text, source)` row when it works and old rows are kept; a writable local record is overwritten with the text, source and `"now"`; a later read sees the text exactly when the local record was rewritten or, with no parsed record, the row was stored, and otherwise answers as before |
| PromptStore.LocalOverridesDatabase | db.py:45-50 | a parsed local record wins over a newer, different database row |
| PromptStore.DefaultWhenNoTier | db.py:67-71 | a valid store with no parsed local record and no usable row (no connection, failing statements or an empty table) answers `DEFAULT_PROMPT` |
| PromptStore.MissingKeyGivesDefault | db.py:45-50 | a parsed local record without `prompt_text` answers `DEFAULT_PROMPT`, whatever the database holds |
| PromptStore.SaveTwice | db.py:80-103 | two saves append two rows in order, and the later text is active |
| Generation.Backend.GenerateContent | ai.py:54-55 | a call returns the script's outcome for the current call number and logs the prompt |
| Generation.Backend.Sleep | ai.py:71 | a sleep only logs its delay |
| Generation.StripFences | ai.py:58-61 | a reply that does not start with a fence is kept as it is |
| Generation.StripJsonFence | ai.py:58-59 | "```json" + p + "```" strips back to p, for any p without a backtick |
| Generation.StripPlainFence | ai.py:60-61 | "```" + p + "```" strips back to p, for any p without a backtick that does not start with "json" |
| Generation.HistoryTextAppend | ai.py:28-32 | the history text of two entry lists is the two history texts concatenated |
| Generation.HistoryAgreesWithRoles | prompt_editor.py:39-41 | the two history formats (missing role "unknown" and missing role "") agree when every entry has a role |
| Generation.HistoryDiffersWithoutRole | prompt_editor.py:41 | the two formats differ on an entry without a role |
| Generation.FormatHistory | ai.py:28-32 | the history loop writes one upper-cased "ROLE: message" line per entry, in order |
| Generation.RetryFrom | ai.py:52-77 | from attempt a, the loop makes between 1 and 5 - a calls |
| Generation.RetryOutcome | ai.py:52-76 | every attempt before the last call failed, and the last either gave the result or was the fifth attempt, failed, and gave the busy message |
| Generation.RetryDelaysBound | ai.py:66-72 | a run sleeps fewer times than it calls, and its delays from attempt a add up to at most 80 - 5 * 2^a |
| Generation.TotalBackoff | ai.py:49-72 | the whole loop sleeps at most four times and at most 75 seconds |
| Generation.AllRateLimited | ai.py:49-76 | five rate-limit errors give five calls, delays 5, 10, 20 and 40, and the busy message |
| Generation.NoBackoffWithoutRateLimit | ai.py:66-76 | errors that are not rate limits are retried without any sleep |
| Generation.FirstTrySucceeds | ai.py:52-64 | a first call that decodes ends the loop with its value, after one call and no sleep |
| Generation.RateLimitedThroughout | prompt_editor.py:104-128 | five rate-limited calls in a row give the busy message after five calls and delays 5, 10, 20 and 40 |
| Generation.TryOnce | ai.py:53-64 | one attempt makes one call and gives the decoded field, or the error text, of that call's outcome |
| Generation.OnError | ai.py:66-76 | the except block gives up exactly on the last attempt, and sleeps exactly when that attempt's error is a rate limit before the last attempt |
| Generation.RetryGenerate | ai.py:52-77 | the loop's result, calls, prompts sent and delays slept are exactly the run `RetryRun` describes; every prompt it sends is the one prompt it was given |
| Generation.RetryLoop | prompt_editor.py:107-130 | the loop stops settled (all earlier attempts failed, the last decoded or was the fifth) after n calls, having slept the back-offs of the first n - 1 attempts |
| Generation.SystemPrompt | ai.py:25 | a non-empty specific prompt is used; a missing or empty one falls back to the active prompt |
| Generation.GenerateReply | ai.py:17-77 | without a key, the key error and no call; otherwise the retry run on the reply prompt, reading "reply" |
| Generation.GenerateImprovedPrompt | prompt_editor.py:34-78 | without a key, the current prompt and no call; otherwise exactly one call, whose decoded "prompt" (or the current prompt, on absence or any error) is returned |
| Generation.ApplyManualInstructions | prompt_editor.py:80-130 | without a key, the current prompt and no call; otherwise the retry run on the manual prompt, reading "prompt", with the "Error: ..." busy message |
| Generation.TwoRateLimitsThenReply | ai.py:52-72 | two rate limits and then a fenced reply give the reply after three calls and delays 5 and 10 |
| Generation.RateLimitScenario | ai.py:17-77 | the same script, run through `generate_reply`, returns the reply after three calls and sleeps of 5 and 10 seconds |
| App.NoData | app.py:32 | `not data` holds exactly for a missing or falsy body and for the empty object `{}`; a body with any key, even one with an empty value, is data |
| App.GetPrompt | app.py:25-27 | `/active-prompt` answers 200 with the active prompt and changes nothing |
| App.HandleGenerateReply | app.py:29-39 | an empty body gets 400 and no call; otherwise 200 with the generated reply for the request's fields (defaults "" and []), and no store write |
| App.HandleImproveAi | app.py:41-70 | an empty body gets 400 with nothing changed; otherwise one save as "auto_learning" of the returned updated prompt; without a key the save writes back the unchanged current prompt |
| App.PredictAndImprove | app.py:51-62 | the prediction is a retry run on the current prompt; the next single call sees that prediction and the consultant's reply, and yields the new prompt |
| App.HandleManualImprove | app.py:72-90 | an empty body gets 400; a result starting with "Error:" gets 429 and no save; anything else is saved as "manual_update" and returned with 200 |
| App.HandleSavePrompt | app.py:92-107 | an empty body and an empty or missing prompt get 400 and no save; otherwise the text is saved as "direct_edit" and echoed with "success" |
| App.SaveThenGet | app.py:98-102 | after a direct save reaches the answering tier, `/active-prompt` returns the saved text |
| App.StaleLocalRecord | db.py:45-50 | with a parsed local record that cannot be rewritten, a direct save still adds its row, but reads keep answering with the old text |
| App.BusyIsError | prompt_editor.py:128 | the manual busy message starts with "Error:" |
| App.ManualWhileRateLimited | app.py:78-84 | five rate limits make a manual update answer 429 with the busy message after 75 seconds of back-off, and leave the store unchanged |
| App.ImprovementRound | app.py:47-70 | when the first call decodes to a reply and the second to a prompt, `/improve-ai` returns both, and `/active-prompt` then returns the new prompt |

## Left out

- The Flask app, routing, CORS, dotenv, `jsonify`, the `/health` route and `app.run` are left out: they are web plumbing. Each handler is a method from a request record to a status and a payload.
- A falsy JSON body that is not an object (`null`, `[]`, `""`, `0`, `false`) is modelled: `Request(None)`, which `NoData` treats like a missing body, giving 400 "No data provided".
- A truthy JSON body that is not an object (a non-empty list, a non-empty string, a non-zero number, `true`) is left out: `data.get` raises `AttributeError` and Flask answers with its own 500 page.
- The model's request fields are strings, and `chatHistory` is a list of entries with string fields. Non-string JSON values are not represented. In the source most of them pass without an error:
  - an f-string formats any value, so a numeric `clientSequence`, `consultantReply`, `instructions` or entry `message` simply appears in the prompt (ai.py:32, 42; prompt_editor.py:41, 53-59, 98);
  - a `chatHistory` of `""` or `{}` loops zero times, like `[]` (ai.py:29);
  - a truthy non-string `prompt` sent to `/save-prompt` is stored as it is and later read back as a non-string (app.py:98-102, db.py:84-103).
- Three wrong-typed inputs raise in the source and are left out: a `chatHistory` that cannot be iterated (`null`, a number), a history entry that is not an object, and a role that is not a string (ai.py:29-32, prompt_editor.py:40-41).
- `request.json` refusing a non-JSON content type is left out: that is a Flask behaviour.
- The Gemini SDK and its configuration are replaced by the scripted `Backend.respond`. Whether `GEMINI_API_KEY` is set is the parameter `hasKey`.
- `json.loads` is the parameter `json`, which gives a string map or an error message. Non-string JSON values are not represented. `json.dump` of the local record is the map `LocalDoc`.
- One `DbState` value decides both the SELECT of `get_active_prompt` and the INSERT of `save_new_prompt`. The model therefore cannot express a database that answers reads but refuses the insert (a read-only role, a failed commit). The database clause of `ReadsAfterSave` relies on that coupling.
- psycopg2 and SQL are replaced by the `DbState` value and the row sequence. `ORDER BY created_at DESC` is read as "the last row appended". Timestamp ties are not modelled.
- `time.sleep` only logs the delay in a ghost sequence. No real time passes.
- `print` logging is left out, because it has no effect on results.
- The prompt templates (the f-strings and `SYSTEM_INSTRUCTION`) are abstracted as the `Prompt` datatype, which records the pieces each template interpolates. Their fixed text is not modelled.
- Text.Upper: models `str.upper` for ASCII letters only; other characters are kept unchanged, so Unicode case mapping is not modelled.
- Generation.StripFences: its own contract states only the unfenced case. The fenced cases are proved by `StripJsonFence` and `StripPlainFence`, and only for payloads without a backtick.
- A transcript message that lacks `direction` or `text` raises `KeyError` in the source. The model's `Message` always has both.
- A history entry whose role is JSON `null` (so `upper()` fails) is left out: the model's role is present or absent.
- The `saved` flag of `save_new_prompt` is set but never returned; the model keeps it only as a local variable.
- Concurrent requests and racing saves are left out, because the model is sequential.
- `load_data`, the `__main__` blocks, init_db.py and test_gemini.py are left out: they are file I/O, schema set-up and a manual script.
