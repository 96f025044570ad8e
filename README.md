# dialoqbase-lite chat session controllers, in Dafny

This project models the two chat session controllers of the dialoqbase-lite browser
extension:

- `useMessageOption` (`src/hooks/useMessageOption.tsx`) is the full-page options UI. It
  offers normal chat and web-search chat, regenerate, editing of human and bot messages,
  stop and clear.
- `useMessage` (`src/hooks/useMessage.tsx`) is the side panel. It offers normal chat and
  chat with the current web page: retrieval over an embedding of the page, cached per url.
  It also offers stop and clear.

Each hook is a state machine over a few values:

- the UI message list;
- the compact turn history;
- the session id (`historyId`);
- the `streaming`, `isProcessing`, `isSearchingInternet` and `isEmbedding` flags;
- the abort controllers;
- in the side panel, the stores built so far, keyed by page url.

Everything a hook asks of the outside world is appended to an `effects` log. This covers
storage calls, tab reads, index builds, follow-up questions, web searches, retrievals,
chat requests and aborts. What the world answers during one submission is a `World`
parameter:

- the fresh message id;
- prompt templates;
- the follow-up answer;
- search results;
- the store built;
- the retrieved passages;
- the chunks of the chat stream, and whether the stream completed or threw;
- the new session id;
- the new controllers.

## Files

- `strings.dfy` (module `Strings`): the JavaScript string operations the hooks use.
  - `trim`, `slice(0, -1)`, `indexOf`.
  - `replace` and `replaceAll` with a string pattern, including the `$` substitution
    patterns of the replacement text.
  - `split(",")[1]` and the data-URI template.
- `chat.dfy` (module `Chat`): what both hooks share.
  - Messages, turns and sources.
  - The placeholder list, and the per-id patch applied with `prev.map`.
  - The text accumulated from the stream and how it is shown.
  - The follow-up question rewrite.
  - The order of the model input.
  - The effect log, with its views: turns saved, indexes built, retrievals.
  - The match between the list and the history.
- `option_hook.dfy` (module `OptionHook`) and `panel_hook.dfy` (module `PanelHook`): one
  hook each. Each operation appears twice:
  - as a function from the session before to the session after, which the lemmas speak
    about;
  - as a method of the classes `OptionChat` / `PanelChat`, which update the session's
    fields step by step as the hook does (the chunk loop is a `while` loop). Each method
    is proved to end in the state the function gives and to leave the settings (selected
    model, web-search switch, chat mode) unchanged.

## Model

| member | source | states |
|---|---|---|
| Strings.TrimStartDropsSpaces | src/hooks/useMessageOption.tsx:379 | the start of the text loses exactly its leading white space: what is removed is all white space and what is kept starts with a non-space |
| Strings.TrimEndDropsSpaces | src/hooks/useMessageOption.tsx:379 | the end of the text loses exactly its trailing white space |
| Strings.TrimBlank | src/hooks/useMessageOption.tsx:591 | the trimmed text is empty iff the text is blank; otherwise it starts and ends with a non-space |
| Strings.DropLast | src/hooks/useMessage.tsx:459 | `slice(0, -1)` plus the last character gives back the text; empty stays empty |
| Strings.IndexOfFirst | src/hooks/useMessage.tsx:210-211 | `indexOf` returns the first match at or after the start, and none means there is no match |
| Strings.IndexOfChar | src/hooks/useMessageOption.tsx:379 | for a one-character pattern, `indexOf` finds the first occurrence of that character, and none iff it does not occur |
| Strings.ExpandLiteral | src/hooks/useMessage.tsx:210-211 | a replacement text without `$` is inserted literally |
| Strings.ReplaceFirstLiteral | src/hooks/useMessage.tsx:210-211 | `replace` with a `$`-free replacement cuts the pattern out at its first occurrence and puts the replacement there |
| Strings.ReplaceAllFromNoMatch | src/hooks/useMessageOption.tsx:155-156 | where the pattern no longer occurs, the `replaceAll` scan keeps the rest as it is |
| Strings.ReplaceAllOneChar | src/hooks/useMessageOption.tsx:379 | replacing every newline by a space maps each newline to a space and keeps every other character |
| Strings.SecondCommaField | src/hooks/useMessageOption.tsx:89 | `split(",")[1]` is undefined iff there is no comma, and it holds no comma |
| Strings.ReplaceAllOnce | src/hooks/useMessageOption.tsx:154-156 | when the scan meets the pattern once, `replaceAll` puts the replacement there and keeps the text before and after it |
| Strings.ReplaceAllSplice | src/hooks/useMessageOption.tsx:154-156 | a multi-character slot is filled in place: the text before it (which lacks the slot's first character) and the text after it (which lacks the slot) are kept |
| Strings.ReencodeKeepsPayload | src/hooks/useMessageOption.tsx:88-90 | re-encoding a data URI keeps its base64 payload and replaces its media type |
| Chat.PlaceholderAppended | src/hooks/useMessageOption.tsx:106-135 | the old messages stay an unchanged prefix, the user's message follows unless regenerating, and the list ends with the bot placeholder: cursor text, no sources, the fresh id |
| Chat.PatchOverwrite | src/hooks/useMessageOption.tsx:208-233 | a later update of the placeholder's id overrides an earlier text update |
| Chat.PatchPlaceholder | src/hooks/useMessageOption.tsx:208-218 | with a fresh id, the per-id patch changes only the placeholder at the end of the list |
| Chat.ConcatAppend | src/hooks/useMessageOption.tsx:204 | the text of two runs of chunks is the text of the first followed by that of the second |
| Chat.ConcatStep | src/hooks/useMessageOption.tsx:202-220 | after chunk k the text is the text before it followed by that chunk |
| Chat.Shown | src/hooks/useMessage.tsx:237 | the full-page hook shows the text as it is; the panel shows it with its last character replaced by the cursor (the cursor alone while empty) |
| Chat.StreamedPlaceholder | src/hooks/useMessageOption.tsx:201-220 | after k chunks the placeholder shows the concatenation of exactly those chunks (the cursor when k = 0), and every other message is untouched |
| Chat.WindowBeforeLast | src/hooks/useMessageOption.tsx:147-148 | `slice(-10)` followed by `pop()` is the last nine entries before the placeholder |
| Chat.FollowUpPromptFilled | src/hooks/useMessageOption.tsx:154-156 | a template with one `{chat_history}` slot and then one `{question}` slot is filled with the transcript and the question in their places, the rest of the template kept |
| Chat.RewriteRule | src/hooks/useMessageOption.tsx:143-160 | the follow-up question is asked iff the list held an exchange before, with the transcript of that window and the message in the template; its answer is the query; otherwise the query is the message |
| Chat.ExchangeKeepsConsistent | src/hooks/useMessageOption.tsx:447-458 | adding a user message and a bot message to the list, and a user turn and an answer to the history, keeps them matched |
| Chat.ResubmitKeepsConsistent | src/hooks/useMessageOption.tsx:562-568 | dropping the last message and the last two turns, then adding an answer and two turns, keeps the list and the history matched |
| OptionHook.ModelSelectedNotBlank | src/hooks/useMessageOption.tsx:590-600 | validation passes iff the model name has a non-space character |
| OptionHook.CleanMessageBlank | src/hooks/useMessageOption.tsx:379 | the cleaned message is empty iff the message is blank |
| OptionHook.SystemPrompts | src/hooks/useMessageOption.tsx:403-417 | at most one system message: the selected prompt if any, else the default prompt iff it is non-empty |
| OptionHook.SaveExchange | src/hooks/useMessageOption.tsx:460-478 | with a session id, the turns saved are the user turn unless regenerating, then the answer; without one, `saveHistory` comes first, both turns go to the new session, and its id is kept |
| OptionHook.NoModelNoChange | src/hooks/useMessageOption.tsx:556-615 | without a selected model, regenerate and a human edit change nothing |
| OptionHook.CompletedState | src/hooks/useMessageOption.tsx:221-287 | after a completed stream: the history gains the user turn (when given) and the answer, the storage log gains the exchange's turns under the session id, and the stream is over |
| OptionHook.NormalChatShown | src/hooks/useMessageOption.tsx:341-445 | normal mode: the list is the old list, the user's message unless regenerating, and the placeholder showing the whole text received (the cursor when no chunk came) |
| OptionHook.NormalChatCompleted | src/hooks/useMessageOption.tsx:447-481 | a completed normal-mode exchange: the history gains the cleaned user turn and the answer even when regenerating; storage gets the turns as SaveExchange states; the stream is over |
| OptionHook.SearchChatShown | src/hooks/useMessageOption.tsx:201-233 | a completed search-mode exchange shows the whole answer with the search results as its sources |
| OptionHook.SearchChatCompleted | src/hooks/useMessageOption.tsx:235-287 | a completed search-mode exchange adds the user turn to the history only when not regenerating; storage as SaveExchange states; the search flag is down and the stream over |
| OptionHook.SearchStartSavesNoTurn | src/hooks/useMessageOption.tsx:140-200 | the follow-up question, the search and the request store no turn |
| OptionHook.NormalChatInterrupted | src/hooks/useMessageOption.tsx:482-506 | a stream that throws adds no turn to the history or to the saved turns and keeps the session id; it reports the partial answer to saveMessageOnError and ends the stream |
| OptionHook.SearchFailed | src/hooks/useMessageOption.tsx:140-163 | a failed search reports an empty answer and the raw message to saveMessageOnError, adds no turn, and leaves the search flag raised |
| OptionHook.SearchStreamFailed | src/hooks/useMessageOption.tsx:288-312 | a search-mode stream that throws reports the partial answer and the cleaned message to saveMessageOnError, adds no turn, and ends with the search flag down |
| OptionHook.SearchChatInterrupted | src/hooks/useMessageOption.tsx:288-312 | in search mode, a failed search or a stream that throws adds no turn to the history or to storage and ends the stream; the search flag stays raised exactly when the search failed |
| OptionHook.SubmitKeepsConsistent | src/hooks/useMessageOption.tsx:509-554 | a completed new submission keeps the list and the history matched, in either mode |
| OptionHook.Popped | src/hooks/useMessageOption.tsx:565-566 | `pop()` leaves the list without its last message; an empty list stays empty |
| OptionHook.RegenerateResubmits | src/hooks/useMessageOption.tsx:562-579 | with a user turn before the last answer, whatever the lengths of the list and the history, regenerate pops the last message, drops the last two turns and the stored messages, then resubmits that turn as a regeneration |
| OptionHook.RegenerateNormal | src/hooks/useMessageOption.tsx:556-581 | normal-mode regenerate, whatever the lengths of the list and the history: the list is the popped list and the new answer's placeholder; the history loses two turns and gains the user turn and the answer |
| OptionHook.RegenerateNormalKeepsConsistent | src/hooks/useMessageOption.tsx:556-581 | normal-mode regenerate keeps the list and the history matched |
| OptionHook.RegenerateSearchLosesUserTurn | src/hooks/useMessageOption.tsx:248-256 | search-mode regenerate adds back only the answer, so a matched list and history stop matching |
| OptionHook.RegenerateSingleTurn | src/hooks/useMessageOption.tsx:562-570 | with a single turn, regenerate removes it, pops the last message and removes the stored messages, then throws: nothing is submitted |
| OptionHook.RegenerateAfterNonUserTurn | src/hooks/useMessageOption.tsx:562-571 | when the turn before the last answer is not a user turn, regenerate only removes the last exchange: nothing is submitted |
| OptionHook.EditHumanSubmits | src/hooks/useMessageOption.tsx:610-634 | in either mode, editing human message i cuts the list after it and the history before it, updates it and deletes the later ones in storage, and submits the new text as a regeneration with its first image |
| OptionHook.EditHumanThrows | src/hooks/useMessageOption.tsx:617-629 | with no message at i, or one without images, the edit throws after the cut and the storage calls: nothing is submitted |
| OptionHook.EditHumanResubmits | src/hooks/useMessageOption.tsx:610-634 | normal mode: editing human message i keeps the first i + 1 messages, adds the answer's placeholder, and cuts the history before turn i, which gains the new exchange |
| OptionHook.EditHumanSearchLosesTurn | src/hooks/useMessageOption.tsx:248-256 | search mode: editing human message i keeps the first i + 1 messages and adds the answer with its sources, but the history, cut before turn i, gains only the answer |
| OptionHook.EditBotInPlace | src/hooks/useMessageOption.tsx:635-641 | editing a missing bot message throws before any change; otherwise its text is set in the list, and when its turn is in the history the turn is set and the stored message updated, while past the history's end the throw leaves history and storage alone; nothing else changes and a matched list and history stay matched |
| OptionHook.ClearKeepsStream | src/hooks/useMessageOption.tsx:68-78 | clearChat neither aborts nor drops the controller; a later stop still aborts it |
| OptionHook.StopAborts | src/hooks/useMessageOption.tsx:583-588 | stop aborts the controller when there is one and drops it, and changes nothing else; a second stop aborts nothing more |
| OptionHook.SearchInputOrdered | src/hooks/useMessageOption.tsx:167-200 | the search request is the web prompt when non-empty, then the history, then the message with the image as a bare url |
| OptionHook.NormalInputOrdered | src/hooks/useMessageOption.tsx:381-424 | the normal request is the chosen system prompt, then the history, then the message with the image as an object holding its url |
| OptionHook.OptionChat.ClearChat | src/hooks/useMessageOption.tsx:68-78 | the session is reset as Clear gives |
| OptionHook.OptionChat.StopStreamingRequest | src/hooks/useMessageOption.tsx:583-588 | the controller is aborted and dropped, as Stop gives |
| OptionHook.OptionChat.ConsumeStream | src/hooks/useMessageOption.tsx:425-445 | the loop returns the concatenation of the chunks and leaves the placeholder patched per chunk, as AfterStream gives |
| OptionHook.OptionChat.Fail | src/hooks/useMessageOption.tsx:482-506 | the catch and finally blocks, as Failed gives |
| OptionHook.OptionChat.SaveMessages | src/hooks/useMessageOption.tsx:460-478 | the storage calls and session id, as Recorded gives |
| OptionHook.OptionChat.ShowAnswer | src/hooks/useMessageOption.tsx:221-256 | the placeholder gets the sources (search mode) and the history gets the exchange |
| OptionHook.OptionChat.EndStream | src/hooks/useMessageOption.tsx:480-506 | the flags go down and the controller is dropped |
| OptionHook.OptionChat.Complete | src/hooks/useMessageOption.tsx:221-287 | the end of a completed stream, as Completed gives |
| OptionHook.OptionChat.StreamAnswer | src/hooks/useMessageOption.tsx:195-312 | the stream and the try, catch and finally blocks, as Answer gives |
| OptionHook.OptionChat.SearchWeb | src/hooks/useMessageOption.tsx:103-162 | the placeholder list, the search flag, the follow-up question and the search, as AskWeb gives |
| OptionHook.OptionChat.SendSearchRequest | src/hooks/useMessageOption.tsx:162-200 | the search flag goes down and the search request is sent |
| OptionHook.OptionChat.SearchChatMode | src/hooks/useMessageOption.tsx:80-313 | searchChatMode, as SearchChat gives |
| OptionHook.OptionChat.SendNormalRequest | src/hooks/useMessageOption.tsx:337-424 | the placeholder list and the normal request |
| OptionHook.OptionChat.NormalChatMode | src/hooks/useMessageOption.tsx:315-507 | normalChatMode, as NormalChat gives |
| OptionHook.OptionChat.BeginSubmit | src/hooks/useMessageOption.tsx:524-533 | streaming is set and the given controller, or a new one, is installed |
| OptionHook.OptionChat.OnSubmit | src/hooks/useMessageOption.tsx:509-554 | onSubmit, as Submit gives: the given list and memory or the session's own, routed by webSearch |
| OptionHook.OptionChat.RemoveLastExchange | src/hooks/useMessageOption.tsx:562-569 | the last two turns, the last message and the stored messages are removed |
| OptionHook.OptionChat.RegenerateLastMessage | src/hooks/useMessageOption.tsx:556-581 | regenerateLastMessage, as Regenerate gives |
| OptionHook.OptionChat.RewindForEdit | src/hooks/useMessageOption.tsx:617-625 | the list and the history are cut at the edited message, which is updated in storage and the later ones deleted |
| OptionHook.OptionChat.EditBotMessage | src/hooks/useMessageOption.tsx:635-641 | the bot message's text and its turn are replaced in place and updated in storage |
| OptionHook.OptionChat.EditMessage | src/hooks/useMessageOption.tsx:602-642 | editMessage, as Edit gives |
| PanelHook.OrElse | src/hooks/useMessage.tsx:200-201 | `x \|\| fallback` is x when x is present and non-empty, and the fallback when x is missing or empty |
| PanelHook.AnnotatedSources | src/hooks/useMessage.tsx:197-205 | each source keeps its passage, in order; its name is the metadata source, or "untitled" when that is missing or empty; its type the metadata type, or "unknown" when that is missing or empty; mode "chat" and empty url |
| PanelHook.FillSlot | src/hooks/useMessage.tsx:209-211 | `replace` fills a `{`-slot preceded by `{`-free text at that place |
| PanelHook.RagPromptFills | src/hooks/useMessage.tsx:206-215 | the first `{context}` gets the passages and the first `{question}` gets the message as typed, not the rewritten query |
| PanelHook.PanelImagePayload | src/hooks/useMessage.tsx:336-342 | a png data URI for google, jpeg otherwise, with the same base64 payload |
| PanelHook.NormalInputOrdered | src/hooks/useMessage.tsx:384-432 | the normal request is the system prompt when set, then the history, then the message with the image: a bare url for google, an object holding it otherwise |
| PanelHook.RagInputOrdered | src/hooks/useMessage.tsx:206-224 | the website request has no system message: the history, then the filled prompt |
| PanelHook.NormalChatShown | src/hooks/useMessage.tsx:344-464 | normal mode: the list gains the user's message with the converted image and the placeholder. The placeholder ends with the text minus its last character after a completed stream, or with the last cursor display after a failed one |
| PanelHook.NormalChatCompleted | src/hooks/useMessage.tsx:466-493 | a completed normal exchange: the history gains the user turn and the whole answer; the request then saveMessageOnSuccess with no sources are logged; the stream is over |
| PanelHook.NormalAnswerLosesLastChar | src/hooks/useMessage.tsx:454-477 | the answer shown lacks the last character of the answer kept in the history |
| PanelHook.NormalChatInterrupted | src/hooks/useMessage.tsx:494-518 | a normal stream that throws adds no turn to the history, logs the partial answer for saveMessageOnError, ends the stream and leaves the embedding controller |
| PanelHook.StopAborts | src/hooks/useMessage.tsx:552-563 | the embedding controller is aborted only while embedding, then the chat controller if present; both are dropped, so a second stop aborts nothing more |
| PanelHook.ClearForgetsConversation | src/hooks/useMessage.tsx:62-71 | clearChat stops the streams, empties list, history and session id, and keeps the stores and the url held |
| PanelHook.RagAnswerKeepsIndexing | src/hooks/useMessage.tsx:195-313 | after the retrieval nothing is built or retrieved, and the stores are left alone |
| PanelHook.IndexedKeeps | src/hooks/useMessage.tsx:134-175 | the embedding step touches only the log, the url held and the stores |
| PanelHook.IndexedState | src/hooks/useMessage.tsx:134-175 | the url held becomes the indexed url; a store built under no cached store is kept under it |
| PanelHook.IndexedLog | src/hooks/useMessage.tsx:134-175 | one index is built, for the indexed url, iff nothing was cached under the url held before |
| PanelHook.RetrievedLog | src/hooks/useMessage.tsx:176-195 | one retrieval of RetrievedCount = 4 passages, for the possibly rewritten query |
| PanelHook.WebsiteIndexing | src/hooks/useMessage.tsx:134-175 | whatever the outcome, the cache and the builds are as IndexedState and IndexedLog state |
| PanelHook.WebsiteRetrieval | src/hooks/useMessage.tsx:176-195 | website mode asks one retrieval of the store in use, none without a store |
| PanelHook.WebsiteAnswers | src/hooks/useMessage.tsx:206-224 | with a store and passages, the filled prompt is sent after the retrieval and the answer streams |
| PanelHook.WebsiteChatShown | src/hooks/useMessage.tsx:226-257 | a completed website exchange shows the whole answer with the annotated passages as sources |
| PanelHook.WebsiteChatCompleted | src/hooks/useMessage.tsx:259-284 | a completed website exchange: the history gains the user turn and the answer; the request and saveMessageOnSuccess with the sources are logged; both controllers are dropped |
| PanelHook.WebsiteChatFailed | src/hooks/useMessage.tsx:285-313 | a failed embedding, retrieval or stream adds no turn to the history and logs saveMessageOnError (empty text before the stream); flags end false and both controllers are dropped |
| PanelHook.BuiltIndexReused | src/hooks/useMessage.tsx:162-175 | a store built on one submission is used by the next, and nothing more is built |
| PanelHook.StaleCacheOnFirstMessage | src/hooks/useMessage.tsx:134-145 | on the first message the cache is read under the previous url: that store is used, nothing is built, and the new url has no store unless one was built for it before |
| PanelHook.SubmitKeepsConsistent | src/hooks/useMessage.tsx:521-550 | a completed submission keeps the list and the history matched, in either mode |
| PanelHook.PanelChat.ClearChat | src/hooks/useMessage.tsx:62-71 | clearChat, as Clear gives |
| PanelHook.PanelChat.StopStreamingRequest | src/hooks/useMessage.tsx:552-563 | stopStreamingRequest, as Stop gives |
| PanelHook.PanelChat.Start | src/hooks/useMessage.tsx:82-127 | streaming is set and the placeholder list installed |
| PanelHook.PanelChat.ReadChunks | src/hooks/useMessage.tsx:433-452 | the loop returns the concatenation of the chunks; the placeholder shows it with the cursor over its last character; isProcessing is set iff a chunk came |
| PanelHook.PanelChat.ConsumeStream | src/hooks/useMessage.tsx:225-244 | the stream as a step of the session, as AfterStream gives |
| PanelHook.PanelChat.CatchFailure | src/hooks/useMessage.tsx:285-313 | saveMessageOnError is logged, the flags go down, and the controllers are dropped (the embedding one in website mode) |
| PanelHook.PanelChat.Fail | src/hooks/useMessage.tsx:494-518 | the catch and finally blocks, as Failed gives |
| PanelHook.PanelChat.RecordAnswer | src/hooks/useMessage.tsx:246-284 | the final text is patched in, the history gets the exchange, saveMessageOnSuccess is logged, the flags go down |
| PanelHook.PanelChat.Complete | src/hooks/useMessage.tsx:454-493 | the end of a completed stream, as Completed gives |
| PanelHook.PanelChat.StreamAnswer | src/hooks/useMessage.tsx:219-313 | the stream and the try, catch and finally blocks, as Answer gives |
| PanelHook.PanelChat.EnsureIndex | src/hooks/useMessage.tsx:134-175 | returns the store used: the cached one, else the one built; the state is as Indexed gives |
| PanelHook.PanelChat.RetrieveDocs | src/hooks/useMessage.tsx:176-195 | the follow-up question and the retrieval, as Retrieved gives |
| PanelHook.PanelChat.Send | src/hooks/useMessage.tsx:427-432 | the request is logged and nothing else changes |
| PanelHook.PanelChat.AnswerFromDocs | src/hooks/useMessage.tsx:195-313 | the prompt, the request and the answer, or the catch path without passages, as RagAnswer gives |
| PanelHook.PanelChat.ChatWithWebsiteMode | src/hooks/useMessage.tsx:73-314 | chatWithWebsiteMode, as ChatWithWebsite gives |
| PanelHook.PanelChat.NormalChatMode | src/hooks/useMessage.tsx:316-519 | normalChatMode, as NormalChat gives |
| PanelHook.PanelChat.OnSubmit | src/hooks/useMessage.tsx:521-550 | onSubmit, as Submit gives: a new controller, never a regeneration, "normal" or website mode with a new embedding controller |

## Left out

- The chat model, the embedding model and the vector store: `dialoqChatModel`,
  `dialoqEmbeddingModel`, `invoke`, `stream`, `memoryEmbedding` and `similaritySearch`.
  What they return is part of the `World` parameter. A throw of `invoke`, `stream`,
  `memoryEmbedding` or `similaritySearch` inside a try block is a missing value, or a
  stream with `completed` false.
- The bodies of these helpers are not part of this model:
  - `saveMessageOnError`, `saveMessageOnSuccess`, `generateHistory` and `formatDocs`;
  - `getDataFromCurrentTab`;
  - the storage functions of `@/db`: `saveHistory`, `saveMessage`,
    `removeMessageUsingHistoryId`, `updateMessageByIndex`, `deleteChatForEdit`,
    `getPromptById`.

  Their calls are logged effects. Writes they make through the setters `setHistory`,
  `setHistoryId` and `setIsEmbedding` are not modelled. `setKeepTrackOfEmbedding` is
  passed only to `memoryEmbedding`; its write is modelled as the store kept under the url
  it is given (`embeddings[url := store]` in PanelHook.Indexed).
- `generateHistory` is called in `src/hooks/useMessage.tsx` without being imported there.
  The model treats it as if it were imported: `PriorTurns(history)`.
- These helpers are taken not to throw; their results are `World` fields, so the catch
  path a throw of theirs would take is not modelled:
  - in the side panel, `getModelInfo`, `systemPromptForNonRag`, `promptForRag` and
    `defaultEmbeddingModelForRag`;
  - in the full-page hook, `geWebSearchFollowUpPrompt`, `systemPromptForNonRagOption` and
    `getPromptById`, although they are awaited inside the try block.
  A throw of `getDataFromCurrentTab` (outside the try block) is not modelled.
- Calls awaited before any try block are taken not to throw: `getModelInfo` and
  `dialoqChatModel` in the full-page hook (src/hooks/useMessageOption.tsx:92-102,
  326-336), and `getModelInfo`, `dialoqChatModel` and `dialoqEmbeddingModel` in the side
  panel (src/hooks/useMessage.tsx:85, 150, 326). A throw there would leave `streaming`
  true with no catch, and in website mode the placeholder in the list; neither is modelled.
- The storage calls after a completed stream are taken not to throw: `saveMessage` and
  `saveHistory` in the full-page hook (src/hooks/useMessageOption.tsx:258-284, 460-478),
  `saveMessageOnSuccess` in the side panel (src/hooks/useMessage.tsx:272, 479). A throw
  there would reach the catch with the history already extended; the model never takes
  the catch path after a completed stream.
- A failed follow-up question and a failed retrieval take the same catch path with no
  text. In the side panel they are one case of the model (`docs` missing).
- AskWeb: in the full-page hook a failed follow-up question and a failed search are one
  case of the model (`search` missing). In that case the model logs a web search for the
  rewritten query even though the source throws at `invoke` before
  `getSystemPromptForWeb` is called.
- Concurrency, React's batching of state updates, and the timing of an abort: an abort is
  logged and the stream it ends is a reply with `completed` false.
- `contentToSave` is never used after it is accumulated.
- `notification`, `console.log`, `navigate("/")` and the textarea focus.
- Speech-to-text language, chat-mode and model setters, and the quick prompt.
- The in-place mutations of the shared arrays:
  - `pop()` in regenerateLastMessage;
  - the index assignments in editMessage.

  They are modelled as new values of the list and the history; the aliasing with the
  array React holds is not.
- Strings are sequences of characters. JavaScript's UTF-16 code units, which
  `slice(0, -1)` works on, are not modelled.
- The layout component, the share page, the extension background script, the app
  provider tree and the localisation files are outside the chat controllers.
- PanelHook.Annotated: its own contract states only the length; the content of each source
  is stated by AnnotatedSources.
- ReplaceAllSplice: states a slot that occurs once. A template holding the same slot twice,
  or a transcript holding `{question}` (which the second `replaceAll` would also replace),
  is computed by Strings.ReplaceAll but no lemma states the result.
- OptionHook.CleanMessage: its own contract states only the newline and length bounds;
  emptiness is stated by CleanMessageBlank and the character mapping by
  Strings.ReplaceAllOneChar.
