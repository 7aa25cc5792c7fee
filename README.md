# ollama-chat in Dafny

This project models the core of ollama-chat, a React chat client for a local
Ollama server. It covers:

- the conversation store of `App.tsx`. Chats hold turns, and each turn holds
  one or more response attempts (versions). Every update is a copy-on-write
  rewrite located by id.
- the streaming controller of `App.tsx`. One stream runs at a time. Its
  `AbortController` and the shared `currentStreamRef` slot decide which
  attempt the transport callbacks write into. On top of it sit the send,
  edit, retry, regenerate, first-message and auto-start handlers, chat
  creation, rename, delete, stop, and the route switch that salvages a
  stream.
- what `ChatWindow.tsx` derives from a turn: the displayed version, the
  version navigation, the regenerate arguments and the retry button.
- the client side of the Ollama API in `ollamaAPI.ts`: the newline-delimited
  JSON framing of a streamed reply, the clean-up of a generated title, and
  the sorted model list.

The files:

- `types.dfy` (module `ChatTypes`): the records of `types.ts`.
- `text.dfy` (module `Text`): the JavaScript string operations the client
  relies on, over `seq<char>`. These are `trim`, `split`/`join` on one
  character, character-class removal, decimal digits, and the default sort
  order.
- `store.dfy` (module `Store`): the pure store transforms, the context
  assembler (the repeated `flatMap`) and the default-title pattern
  `^Chat (\d+)$`.
- `controller.dfy` (module `Controller`): the controller state as a value
  (`SessionView`), with one transition function per handler and per
  transport callback, and the lemmas about whole interactions.
- `session.dfy` (module `Session`): the controller as the mutable object it
  is.
  - React state and the stream slot are fields of class `Session`.
  - Every field changes only through the method named after its setter.
  - Each handler is a method proved to perform exactly the transition
    `Controller` specifies for it.
  - The two loops of the source are methods with loop invariants: the
    backward scan of retry and the `forEach` over default titles.
- `chat_window.dfy` (module `ChatView`): the per-turn derivations of the
  chat window.
- `ollama_api.dfy` (module `Ollama`):
  - `streamChatResponse` as a method over the sequence of decoded chunks,
    proved equal to a whole-stream reference function `StreamCalls`;
  - `generateTitle` as the clean-up of the reply;
  - `fetchModels` as a sort whose result is proved to be the unique sorted
    permutation of the names.

Outside effects become parameters or counters:

- `Date.now()` is a clock that advances on every reading.
- `JSON.parse` on a stream line is a parameter `parse: string -> Option<string>`.
  It gives `None` when parsing throws, and otherwise the line's
  `message.content`, which is empty when absent.
- The transport delivers a finite sequence of decoded chunks, ends with `done`
  or a rejected read, and may be aborted before any read.
- A stream session is numbered by the order in which it started. The number
  stands for its `AbortController` and for the closure its callbacks share:
  `accumulatedBotContent` and the `chats` the closure captured.
- The URL's chat id is a parameter of the route switch.

## Model

| member | source | states |
|---|---|---|
| Text.Trim | src/App.tsx:487 | the trimmed text is the input without its leading and trailing white space; it is empty iff the input is all white space, otherwise it starts and ends with a non-space |
| Text.RemoveAll | src/services/ollamaAPI.ts:171 | after `replace(/["'\n\r]/g, '')` no removed character remains and the text is no longer |
| Text.RemoveAllKeeps | src/services/ollamaAPI.ts:171 | every character outside the removed class is kept, as often as it occurs |
| Text.RemoveAllClean | src/services/ollamaAPI.ts:171 | a text with nothing to remove comes back unchanged |
| Text.RemoveAllAppend | src/services/ollamaAPI.ts:171 | the removal works character by character, so removing from `a + b` is removing from `a`, then from `b`, and the kept characters stay in order |
| Text.Split | src/services/ollamaAPI.ts:107 | `split` yields at least one piece and no piece contains the separator |
| Text.JoinSplit | src/services/ollamaAPI.ts:107 | joining the pieces of a split with the separator gives the text back |
| Text.SplitJoin | src/services/ollamaAPI.ts:175 | splitting a join of separator-free pieces gives the pieces back |
| Text.SplitAppend | src/services/ollamaAPI.ts:106-108 | splitting `a + b` gives the complete pieces of `a`, then the split of `a`'s last piece followed by `b`; appending to the buffer only ever extends the complete lines |
| Text.NatToString | src/App.tsx:213 | `Date.now().toString()` is a non-empty run of decimal digits |
| Text.DigitsValueOfNatToString | src/App.tsx:217 | `parseInt` of a rendered number reads that number back |
| Text.StrLeTotal | src/services/ollamaAPI.ts:23 | the default sort order compares any two strings |
| Text.StrLeTransitive | src/services/ollamaAPI.ts:23 | the default sort order is transitive |
| Text.StrLeAntisymmetric | src/services/ollamaAPI.ts:23 | two strings each ordered before the other are equal |
| Store.FindIndex | src/App.tsx:303-305 | `findIndex` by an id key, as used for chats, turns and attempts: the first element with the id, or -1 when none has it |
| Store.FirstError | src/App.tsx:673 | the first attempt marked as an error, or -1 when none is |
| Store.WriteAttempt | src/App.tsx:301-346 | the `map`/`findIndex` rewrite every stream callback performs, located by chat, turn and attempt id; a miss changes nothing (its properties: `Store.WriteKeepsTree`, `Store.WriteFrame`, `Store.StaleWriteIsNoOp`) |
| Store.ApplyWrite | src/App.tsx:156-168 | the rewrite of one turn's attempts at the located index, for the pending mark, a fragment, completion, failure, salvage and rollback (its effect: `Store.ApplyWriteFrame` and the outcome lemmas below) |
| Store.WriteKeepsTree | src/App.tsx:301-319 | a stream write never adds, removes, reorders, renames or retitles chats, and never adds or removes turns |
| Store.WriteFrame | src/App.tsx:325-346 | only the turn the target locates changes, and it changes by the write applied at the located attempt |
| Store.ApplyWriteFrame | src/App.tsx:156-168 | attempts before the target never change; only rollback and the salvage of a blank attempt cut the turn at the target; every other write keeps later attempts and the target's id and prompt |
| Store.StaleWriteIsNoOp | src/App.tsx:330 | a guarded write whose attempt no longer carries the live temporary id changes nothing |
| Store.FragmentKeepsAttemptLive | src/App.tsx:333-340 | a fragment replaces the whole content with the accumulator and keeps the temporary id |
| Store.CompletionOutcome | src/App.tsx:415-437 | completion settles the attempt, with the final text and its id cleared, iff the text is not blank; a blank completion becomes the error "Model did not respond." and keeps its id |
| Store.FailureKeepsPartial | src/App.tsx:366-378 | a failed attempt is an error that keeps its id, shows the trimmed partial text when there is any, and is never empty |
| Store.SalvageOutcome | src/App.tsx:158-168 | switching away keeps an attempt with text and clears its id; a blank attempt is dropped together with every later attempt |
| Store.InPlaceTurnKeepsIds | src/App.tsx:325-346 | under an in-place write every turn keeps the number and the ids of its attempts |
| Store.InPlaceWriteKeepsShape | src/App.tsx:325-346 | a write that rewrites the target in place keeps every chat, turn and attempt id where it was |
| Store.PendingThenFragments | src/App.tsx:301-346 | after marking pending and writing a fragment, the attempt is the live assistant message holding the accumulator |
| Store.SettledAttemptIgnoresStaleWrites | src/App.tsx:407-443 | once completed with text, the attempt ignores every later guarded write of the same stream |
| Store.History | src/App.tsx:553-558 | the repeated `flatMap`: the latest attempt of each turn, skipped when missing or failed, as a user then an assistant message (stated by `Store.HistoryLength`, `Store.HistoryShape`, `Store.SkippedTurn`) |
| Store.BuildContext | src/App.tsx:553-560 | the history of a prefix of turns followed by one trailing user prompt (stated by `Store.ContextLength`, `Store.ContextShape`) |
| Store.ContextLength | src/App.tsx:553-559 | the context holds two messages per contributing turn plus the trailing prompt |
| Store.HistoryLength | src/App.tsx:553-558 | the history holds two messages per contributing turn |
| Store.HistoryAppend | src/App.tsx:553-558 | the `flatMap` over turns distributes over concatenation |
| Store.SkippedTurn | src/App.tsx:554-555 | a turn whose latest attempt failed, or that has none, contributes nothing at all |
| Store.ContextShape | src/App.tsx:553-560 | the context ends with the trailing prompt, has user messages at even positions, and never submits an error message |
| Store.HistoryShape | src/App.tsx:514-521 | the history has user messages at even positions and no error message |
| Store.AppendTurn | src/App.tsx:561-564 | appends the turn to every chat with the id and changes nothing else (stated by `Controller.SendNewTurnEffect`) |
| Store.AppendedResponses | src/App.tsx:673-679 | the responses after a retry (cut at the first error) or a regenerate, followed by the new attempt (stated by `Store.RetryClearsErrors`, `Controller.RetryAppends`) |
| Store.AppendAttempt | src/App.tsx:667-685 | the retry and regenerate updaters over the chats (stated by `Store.AppendAttemptEffect`) |
| Store.VersionsAfterAppend | src/App.tsx:680 | `displayedVersions[turnId]` set to the new last index when the chat and turn are found (stated by `Store.VersionsAfterAppendUnique`) |
| Store.AppendAttemptEffect | src/App.tsx:667-685 | retry and regenerate append the new attempt last to the first matching turn of every matching chat; retry first cuts at the first error; nothing else changes |
| Store.RetryClearsErrors | src/App.tsx:673-679 | after a retry the turn ends with the new attempt and holds no error before it |
| Store.NewestRetryCandidate | src/App.tsx:640-651 | the newest turn whose latest attempt is an error, with no such turn after it, or -1 when there is none |
| Store.RetryCandidateSkipped | src/App.tsx:654-659 | a retry candidate contributes nothing to any context, so retrying it never resubmits the failure |
| Store.VersionsAfterAppendUnique | src/App.tsx:680 | with unique chat ids, the displayed version of the turn becomes the index of its last attempt |
| Store.AppendAtFoundTurn | src/App.tsx:667-685 | the found turn gets the appended responses, and with unique chat ids its displayed version is the new last index |
| Store.UniqueTurnFound | src/App.tsx:670 | with unique turn ids, a turn's own id resolves to that turn |
| Store.EditAppend | src/App.tsx:504-535 | an edit keeps the number of chats |
| Store.EditEffect | src/App.tsx:504-535 | an edit fails exactly on a missing chat or an index out of range; otherwise it grows that one turn by exactly the new attempt, points the new index at it, and leaves every other turn and chat unchanged |
| Store.RenameChat | src/App.tsx:233-237 | the trimmed title, or `Chat <id>` when it is blank, on every chat with the id (stated by `Store.RenameEffect`) |
| Store.RenameEffect | src/App.tsx:233-237 | a rename gives the trimmed title, or `Chat <id>` when it is blank, to every chat with the id, so no renamed chat is left with a blank title, and touches nothing else |
| Store.DeleteChat | src/App.tsx:246 | `filter` by id (stated by `Store.DeleteEffect`, `Store.DeleteAppend`) |
| Store.DeleteEffect | src/App.tsx:246 | delete keeps exactly the chats without the id and changes nothing when no chat has it |
| Store.DeleteAppend | src/App.tsx:246 | deleting from `a + b` is deleting from `a`, then from `b`, so the kept chats stay in order and keep their multiplicity |
| Store.DefaultTitleNumber | src/App.tsx:216-217 | the number of a title matching `^Chat (\d+)$`, as `parseInt` reads it (stated by `Store.DefaultTitleRoundTrip`) |
| Store.MaxDefaultNumber | src/App.tsx:214-218 | the largest default-title number, or 0 (stated by `Store.MaxDefaultNumberIsMax`, computed by `Session.HighestDefaultNumber`) |
| Store.DefaultTitleRoundTrip | src/App.tsx:216-219 | `Chat ${n}` matches `^Chat (\d+)$` and reads back as `n` |
| Store.MaxDefaultNumberIsMax | src/App.tsx:214-218 | the scan's result bounds every default title's number and is one of them, or 0 |
| Store.NewDefaultTitleIsFresh | src/App.tsx:219 | the new chat's `Chat N+1` differs from every existing title |
| Store.FirstMessageTitle | src/App.tsx:603-606 | a prompt of up to 35 characters is the title; a longer one keeps its first 35 characters followed by "..." |
| Store.InstallFirstTurn | src/App.tsx:607-611 | the chat with the id gets the title and the single first turn (stated by `Store.InstallIntoNewChat`) |
| Store.ShouldAutoStart | src/App.tsx:621-624 | a chat qualifies for auto-start when it has exactly one turn with one attempt whose assistant message is empty, not an error and not live (stated by `Store.AutoStartOnce`) |
| Store.InstallIntoNewChat | src/App.tsx:607-611 | installing into the chat just appended under a fresh id changes that chat alone, which the id then finds |
| Store.AutoStartOnce | src/App.tsx:619-631 | the auto-start context is the single prompt, and once the attempt is pending the chat no longer qualifies |
| Store.TitleRequestFor | src/App.tsx:400-406 | a title request is made exactly when the completed attempt is attempt 0 of turn 0, the final text is not blank, the title is a default title and the first prompt is non-empty, as seen in the captured chats |
| Controller.Launch | src/App.tsx:277-319 | a stream starts iff a model is set and nothing is loading; without a model the error is "No model selected."; a start opens a new session with an empty accumulator and its captured chats |
| Controller.ChosenModel | src/App.tsx:103-110 | `loadModels` selects the saved model when the list offers it, otherwise the first name, or none for an empty list; the selection is always one the list offers |
| Controller.Data | src/App.tsx:321-347 | a fragment grows only its own session's accumulator by the fragment, and changes nothing but the chats and that accumulator |
| Controller.DataSteps | src/App.tsx:321-347 | a run of fragments grows the session's accumulator by their concatenation in arrival order, and changes nothing but the chats and the accumulators |
| Controller.ErrorText | src/App.tsx:349-350 | "Request cancelled." for an abort, otherwise the error's message, or "Error streaming." when it has none (used by `Controller.FailureMarks`, `Controller.StreamLifecycle`) |
| Controller.Failure | src/App.tsx:348-390 | an error ends loading, drops the controller, clears the slot, and shows a banner unless it is an abort |
| Controller.Completion | src/App.tsx:391-450 | completion with an empty slot changes nothing; otherwise it ends loading, drops the controller and clears the slot |
| Controller.SyncFailure | src/App.tsx:458-484 | a rejected stream call changes nothing when its controller was aborted or the error is an abort; otherwise it ends loading, clears the slot and shows an error |
| Controller.Stop | src/App.tsx:250-254 | stop marks exactly the live controller's session aborted, none when there is no controller, and changes nothing else |
| Controller.AbortOnly | src/App.tsx:206-210 | the abort of chat creation leaves no controller and stops loading |
| Controller.AbortAndSalvage | src/App.tsx:148-177 | `safeAbort` does nothing without a controller; otherwise it marks exactly the live controller's session aborted and leaves no controller, no loading and an empty slot |
| Controller.SwitchView | src/App.tsx:178-201 | navigating to an existing chat makes it the active one |
| Controller.OpenDefaultChat | src/App.tsx:211-221 | a new chat with no turns is appended last |
| Controller.CreateChatState | src/App.tsx:205-222 | chat creation appends one chat with no turns and keeps the state valid |
| Controller.DeleteView | src/App.tsx:240-248 | delete keeps the state valid |
| Controller.InPlaceWriteHolds | src/App.tsx:325-346 | an in-place write that the located attempts pass keeps the store's shape and leaves every located attempt holding the rewritten message |
| Controller.LaunchMarksPending | src/App.tsx:292-319 | a start sets the slot to the target with a fresh temporary id, aborts the replaced controller, and marks every located attempt as the live empty assistant message |
| Controller.FragmentsAccumulate | src/App.tsx:321-347 | while the slot is live, fragments grow the accumulator by their concatenation and the target shows the whole accumulator; nothing else changes |
| Controller.CompletionSettles | src/App.tsx:391-450 | completion rewrites the live target to its completed form and computes the title request from the captured chats |
| Controller.FailureMarks | src/App.tsx:348-390 | an error rewrites the live target to its failed form, keeping the partial text |
| Controller.StreamLifecycle | src/App.tsx:277-450 | a whole stream shows each fragment as it arrives; it settles on the text, or "Model did not respond." when blank; a stop reported as an abort leaves the trimmed partial text, or "Request cancelled.", as an error with no banner |
| Controller.SwitchAwaySalvages | src/App.tsx:148-177 | switching away during a stream aborts it, keeps a target with text (clearing its id), drops a blank one with every later attempt, and removes no chat or turn |
| Controller.DeleteActiveKeepsSlot | src/App.tsx:240-248 | deleting the active chat aborts and stops loading but leaves the slot set, and no chat with the id remains |
| Controller.SendPlan | src/App.tsx:486-575 | `handleSendMessage`: the guard, then the edit or the new-turn branch (stated by `Controller.HandlerGuards`, `Controller.SendNewTurnEffect`, `Controller.SendEditEffect`, `Controller.SendEditFails`) |
| Controller.EditPlan | src/App.tsx:495-544 | the edit branch: resolve the edited turn's id, then fail or start (stated by `Controller.SendEditEffect`, `Controller.SendEditFails`) |
| Controller.EditFailed | src/App.tsx:537-543 | "Failed to edit.", edit mode and input cleared (stated by `Controller.SendEditFails`) |
| Controller.EditStartPlan | src/App.tsx:499-535 | the edit of a found turn: append the attempt, show it, stream the turns before it (stated by `Controller.SendEditEffect`) |
| Controller.NewTurnPlan | src/App.tsx:545-571 | the new-turn branch: append a turn with one pending attempt and stream every earlier turn (stated by `Controller.SendNewTurnEffect`) |
| Controller.ResubmitPlan | src/App.tsx:661-685 | what retry and regenerate share once the turn is found (stated by `Controller.RetryTarget`, `Controller.RegenerateEffect`) |
| Controller.RetryPlan | src/App.tsx:632-691 | `handleRetryLastMessage` (stated by `Controller.RetryTarget`, `Controller.RetryFails`, `Controller.RetryAppends`) |
| Controller.RegeneratePlan | src/App.tsx:692-732 | `handleRegenerate` (stated by `Controller.RegenerateEffect`) |
| Controller.AutoStartPlan | src/App.tsx:619-631 | the first-send auto-start effect (stated by `Controller.AutoStartFires`) |
| Controller.FirstChatView | src/App.tsx:590-612 | the chat a first message opens (stated by `Controller.FirstChatOpened`) |
| Controller.SendFirstPlan | src/App.tsx:581-618 | `handleSendFirstMessage` (stated by `Controller.FirstSendInstalls`, `Controller.FirstSendAutoStarts`) |
| Controller.HandlerGuards | src/App.tsx:486-490 | send, retry and regenerate do nothing while loading or without an active chat; send does nothing on blank input |
| Controller.SendNewTurnEffect | src/App.tsx:545-571 | sending appends one turn with one pending attempt for the trimmed input to the active chat, and submits the contributing earlier turns followed by the prompt |
| Controller.SendEditEffect | src/App.tsx:495-544 | an edit adds one pending attempt to the edited turn only, shows it, submits the contributing turns before it, and leaves later turns in place |
| Controller.SendEditFails | src/App.tsx:537-543 | an edit whose turn cannot be resolved reports "Failed to edit.", leaves edit mode and the chats alone |
| Controller.RetryFails | src/App.tsx:653-690 | retry fails with "Could not perform retry." exactly when no turn's latest attempt is an error or the newest such turn has an empty id, and then changes nothing else |
| Controller.ChooseRetry | src/App.tsx:636-651 | a chosen retry names a chat and a turn that exist in the store (which turn it is, `Controller.RetryTarget` states) |
| Controller.RetryTarget | src/App.tsx:640-662 | retry targets the newest failed turn, re-submits its prompt after the contributing turns before it, and shows the appended attempt |
| Controller.RetryAppends | src/App.tsx:667-685 | the retried turn drops its attempts from the first error on and gains a pending attempt for the same prompt |
| Controller.RegenerateEffect | src/App.tsx:692-732 | regenerate fails exactly when the turn or attempt does not resolve; otherwise the turn gains a pending attempt with the chosen prompt, shows it, and the contributing turns before it are submitted |
| Controller.NewChatEffect | src/App.tsx:205-222 | a new chat is appended last with no turns and the title `Chat N+1`, which no existing chat carries; errors are cleared and no controller remains |
| Controller.FirstChatOpened | src/App.tsx:590-612 | the first chat is appended under the clock's id, its attempt and turn ids taken from the next two readings, titled after the prompt, and holds a single untouched attempt, with nothing streaming |
| Controller.FirstSendInstalls | src/App.tsx:581-618 | a first message opens and activates that chat, with nothing streaming |
| Controller.FirstSendAutoStarts | src/App.tsx:619-631 | after a first message the auto-start fires with the prompt as its whole context, and then no longer fires |
| Controller.AutoStartFires | src/App.tsx:619-631 | on a qualifying active chat the auto-start fires once, with the prompt as context |
| Session.FindRetryTarget | src/App.tsx:640-651 | the backward scan finds the newest turn whose latest attempt is an error |
| Session.HighestDefaultNumber | src/App.tsx:214-218 | the `forEach` computes the largest number a default title carries |
| Session.Session.constructor | src/App.tsx:25-67 | the initial state holds the saved chats, no active chat, no stream and empty maps |
| Session.Session.SetChats | src/App.tsx:25 | `setChats` changes the chats only |
| Session.Session.SetActiveChatId | src/App.tsx:42 | `setActiveChatId` changes the active chat only |
| Session.Session.SetInput | src/App.tsx:43 | `setInput` changes the input only |
| Session.Session.SetError | src/App.tsx:46 | `setError` changes the error only |
| Session.Session.SetModelError | src/App.tsx:47 | `setModelError` changes the model error only |
| Session.Session.SetModel | src/App.tsx:44 | `setModel` changes the selected model only |
| Session.Session.SetIsFetchingModels | src/App.tsx:49 | `setIsFetchingModels` changes the fetching flag only |
| Session.Session.SetIsLoading | src/App.tsx:48 | `setIsLoading` changes the loading flag only |
| Session.Session.SetAbortController | src/App.tsx:59 | `setAbortController` changes the controller only |
| Session.Session.SetEditingTurn | src/App.tsx:66 | `setEditingTurnInfo` changes the edit target only |
| Session.Session.SetDisplayedVersions | src/App.tsx:67 | `setDisplayedVersions` changes the version map only |
| Session.Session.SetCurrentStream | src/App.tsx:60-65 | assigning `currentStreamRef.current` changes the slot only |
| Session.Session.Abort | src/App.tsx:287 | `abort()` marks the session's controller aborted |
| Session.Session.Now | src/App.tsx:213 | `Date.now()` reads the clock, which then advances |
| Session.Session.OpenSession | src/App.tsx:292-293 | a new session has an empty accumulator and the captured chats |
| Session.Session.Accumulate | src/App.tsx:322 | the session's accumulator takes the new text |
| Session.Session.StartStream | src/App.tsx:277-319 | performs `Controller.Launch` in place |
| Session.Session.OnData | src/App.tsx:321-347 | performs `Controller.Data` in place |
| Session.Session.OnError | src/App.tsx:348-390 | performs `Controller.Failure` in place |
| Session.Session.OnComplete | src/App.tsx:391-450 | performs `Controller.Completion` in place and returns its title request |
| Session.Session.OnSyncFailure | src/App.tsx:458-484 | performs `Controller.SyncFailure` in place |
| Session.Session.Stop | src/App.tsx:250-254 | performs `Controller.Stop` in place |
| Session.Session.DropController | src/App.tsx:206-210 | performs `Controller.AbortOnly` in place |
| Session.Session.SafeAbort | src/App.tsx:148-177 | performs `Controller.AbortAndSalvage` in place |
| Session.Session.SwitchTo | src/App.tsx:178-201 | performs `Controller.SwitchView` in place |
| Session.Session.CreateNewChat | src/App.tsx:205-222 | performs `Controller.CreateChatState` in place and returns the new chat |
| Session.Session.AddDefaultChat | src/App.tsx:211-221 | performs `Controller.OpenDefaultChat` in place |
| Session.Session.UpdateChatTitle | src/App.tsx:233-237 | replaces the chats by `Store.RenameChat` and nothing else |
| Session.Session.DeleteChat | src/App.tsx:240-248 | performs `Controller.DeleteView` in place |
| Session.Session.EditStart | src/App.tsx:576-580 | does nothing while loading or without an active chat; otherwise sets the edit target and the input |
| Session.Session.CancelEdit | src/App.tsx:256-259 | clears the edit target and the input |
| Session.Session.ChangeModel | src/App.tsx:733-735 | `handleModelChange` sets the selected model only |
| Session.Session.BeginModelFetch | src/App.tsx:96-97 | the start of `loadModels` raises the fetching flag and clears the model error |
| Session.Session.ModelsLoaded | src/App.tsx:100-110 | after a fetch the model becomes `Controller.ChosenModel` of the names and the saved choice, one the list offers, and fetching ends |
| Session.Session.ModelsFailed | src/App.tsx:111-119 | after a failed fetch the model error shows the message or "Could not connect.", no model is selected, and fetching ends |
| Session.Session.ShowVersion | src/App.tsx:736-738 | points the turn's displayed version at the index |
| Session.Session.SendMessage | src/App.tsx:486-575 | performs the send plan and the stream start it calls for |
| Session.Session.SendEdit | src/App.tsx:495-544 | performs the edit plan and its stream start |
| Session.Session.FailEdit | src/App.tsx:537-543 | performs `Controller.EditFailed` in place |
| Session.Session.StartEdit | src/App.tsx:499-535 | performs the plan of an edit whose turn was found, and its stream start |
| Session.Session.SendNewTurn | src/App.tsx:545-571 | performs the new-turn plan and its stream start |
| Session.Session.Resubmit | src/App.tsx:661-685 | performs the shared retry/regenerate plan and its stream start |
| Session.Session.Retry | src/App.tsx:632-691 | performs the retry plan and its stream start |
| Session.Session.Regenerate | src/App.tsx:692-732 | performs the regenerate plan and its stream start |
| Session.Session.AutoStart | src/App.tsx:619-631 | performs the auto-start plan and its stream start |
| Session.Session.OpenFirstChat | src/App.tsx:590-612 | performs `Controller.FirstChatView` in place and returns the chat |
| Session.Session.SendFirstMessage | src/App.tsx:581-618 | performs the first-message plan in place |
| ChatView.VersionIndex | src/components/ChatWindow.tsx:419 | `displayedVersions[turnId] ?? totalVersions - 1` (stated by `ChatView.DefaultShowsNewest`, `ChatView.SafeIndex`) |
| ChatView.SafeIndex | src/components/ChatWindow.tsx:418-419 | the clamped index is in range for a non-empty turn, equals the stored index when that is in range, is 0 below it and the last index above it |
| ChatView.DisplayedAttempt | src/components/ChatWindow.tsx:420-423 | a turn renders nothing iff it has no attempts; otherwise it renders one of its attempts |
| ChatView.DefaultShowsNewest | src/components/ChatWindow.tsx:419-421 | with no stored index a turn with attempts shows its newest one |
| ChatView.ShowVersionDisplays | src/components/ChatWindow.tsx:448-449 | after showing version `i` in range, the turn renders attempt `i` |
| ChatView.Navigation | src/components/ChatWindow.tsx:448-449 | the version controls: previous and next ask for `safeIndex - 1` and `safeIndex + 1` and are disabled at the first and the last attempt (stated by `ChatView.NavigationMovesByOne`) |
| ChatView.NavigationMovesByOne | src/components/ChatWindow.tsx:571-595 | enabled previous/next controls ask for an index in range and move the rendered attempt by one; both are disabled iff the turn has one attempt, and the controls are shown otherwise |
| ChatView.RegenerateArgs | src/components/ChatWindow.tsx:450-453 | `onRegenerate(turn.turnId, safeIndex)` (stated by `ChatView.RegenerateUsesDisplayed`) |
| ChatView.RegenerateUsesDisplayed | src/components/ChatWindow.tsx:450-453 | regenerate passes the turn's id and the index of the attempt on screen |
| ChatView.RegenerateFromWindowStarts | src/components/ChatWindow.tsx:450-454 | regenerating from the window always starts a stream for the turn, reusing the rendered attempt's prompt after the turns before it |
| ChatView.ShowRetry | src/components/ChatWindow.tsx:381-385 | `showRetry` on the last turn's unclamped index (stated by `ChatView.RetryShownIffDisplayedError`) |
| ChatView.RetryShownIffDisplayedError | src/components/ChatWindow.tsx:382-385 | retry is offered exactly when the unclamped index points inside the last turn at an assistant error, and never without a handler |
| ChatView.RetryShownForNewestFailure | src/components/ChatWindow.tsx:382-385 | with no stored index, retry is offered exactly when the last turn is the one the retry handler targets and its newest attempt is the assistant's |
| Ollama.StreamCalls | src/services/ollamaAPI.ts:80-128 | the callbacks of a whole stream stated on the received text as one string, the reference the read loop is proved against (stated by `Ollama.CallbacksInOrder`, `Ollama.AbortEndsQuietly`, `Ollama.CompletesWhenAllParse`, `Ollama.FailureIsFinal`) |
| Ollama.Step | src/services/ollamaAPI.ts:110-124 | one line of the reference: skipped when blank, a parse error stops, content becomes `onData` |
| Ollama.Feed | src/services/ollamaAPI.ts:109-125 | the complete lines fed in order until the first failure (stated by `Ollama.FeedStops`, `Ollama.FeedData`, `Ollama.FeedShape`) |
| Ollama.StreamChatResponse | src/services/ollamaAPI.ts:80-128 | the read loop makes exactly the callbacks of the whole-stream reference `StreamCalls` |
| Ollama.HandleLine | src/services/ollamaAPI.ts:110-124 | one line: blank lines are skipped, a parse failure reports the error and stops, content is passed to `onData` and added to the accumulator |
| Ollama.HandleLines | src/services/ollamaAPI.ts:109-125 | the lines of one read are fed in order until the first failure |
| Ollama.FeedStops | src/services/ollamaAPI.ts:117-123 | after a parse failure later lines change nothing |
| Ollama.NextChunkLines | src/services/ollamaAPI.ts:105-108 | after a read the complete lines grow by the complete lines of buffer plus chunk, and the buffer is the last piece |
| Ollama.FailureIsFinal | src/services/ollamaAPI.ts:117-123 | a parse failure ends the whole stream with the callbacks made so far |
| Ollama.FeedData | src/services/ollamaAPI.ts:113-116 | while every line parses, all callbacks are `onData` and their text is the contents of the lines |
| Ollama.FinalFragments | src/services/ollamaAPI.ts:88-102 | the final buffer completes the contents of the whole text |
| Ollama.FeedShape | src/services/ollamaAPI.ts:109-125 | feeding reports only `onData` until a failure, and a failure is a single final `onError` with "Error parsing stream data chunk." |
| Ollama.CallbacksInOrder | src/services/ollamaAPI.ts:80-128 | every callback but the last is `onData`, and `onComplete` comes only last, carrying exactly the text the `onData` calls delivered |
| Ollama.AbortEndsQuietly | src/services/ollamaAPI.ts:81-85 | once the abort is seen the stream neither completes nor reports a read error; only data and a chunk parse failure are reported |
| Ollama.CompletesWhenAllParse | src/services/ollamaAPI.ts:88-128 | without an abort, a reader that reaches `done` and lines that all parse make the stream complete with every line's content |
| Ollama.TitlePrompt | src/services/ollamaAPI.ts:151 | the title prompt starts with the instruction and the user prompt, carries the whole reply when it is at most 200 characters and exactly its first 200 characters otherwise, then "..." |
| Ollama.TitleShape | src/services/ollamaAPI.ts:171-177 | a title is never empty, has no quotes or line breaks, and has at most eight words |
| Ollama.GenerateTitle | src/services/ollamaAPI.ts:170-181 | a failed request gives "Chat"; a reply that cleans to at most eight words is that cleaned text, and one that cleans to nothing gives "Chat" |
| Ollama.Cleaned | src/services/ollamaAPI.ts:171-172 | trim, drop quotes and line breaks, drop a leading `title:`, trim again (stated by `Ollama.CleanedAvoids`) |
| Ollama.LimitWords | src/services/ollamaAPI.ts:173-176 | the first eight words plus "..." beyond eight words (stated by `Ollama.LimitWordsKeeps`) |
| Ollama.CleanTitle | src/services/ollamaAPI.ts:171-177 | the cleaned, word-capped title, or "Chat" when empty (stated by `Ollama.TitleShape`, `Ollama.GenerateTitle`) |
| Ollama.CleanedAvoids | src/services/ollamaAPI.ts:171-172 | the cleaned reply has no quotes or line breaks |
| Ollama.LimitWordsKeeps | src/services/ollamaAPI.ts:173-176 | a text of more than eight words keeps its first seven and the eighth followed by "..."; a shorter one is unchanged |
| Ollama.LongTitleTruncated | src/services/ollamaAPI.ts:173-176 | a cleaned reply of more than eight words becomes its first seven words and the eighth followed by "..." |
| Ollama.ModelNames | src/services/ollamaAPI.ts:20-23 | no names when `models` is not an array; otherwise the names sorted, as a permutation |
| Ollama.Insert | src/services/ollamaAPI.ts:23 | inserts a name before the first name it does not follow (stated by `Ollama.InsertSorts`, `Ollama.InsertPermutes`) |
| Ollama.SortNames | src/services/ollamaAPI.ts:23 | the default `sort` as an insertion sort (stated by `Ollama.SortNamesSorts`, `Ollama.SortedUnique`) |
| Ollama.InsertSorts | src/services/ollamaAPI.ts:23 | inserting into a sorted list keeps it sorted |
| Ollama.InsertPermutes | src/services/ollamaAPI.ts:23 | inserting adds exactly the inserted name and loses none |
| Ollama.SortNamesSorts | src/services/ollamaAPI.ts:23 | the sort yields a sorted permutation |
| Ollama.SortedUnique | src/services/ollamaAPI.ts:23 | two sorted arrangements of the same names are equal, so the list is the one sorted order of the names |

## Left out

- Storage: `localStorage` loading and saving of chats, model, theme and drawer are left out, because they are I/O. The saved chats are a constructor parameter.
- Routing: `navigate`, `selectChat` and the home reset are left out. The URL's chat id is a parameter of `SwitchView`.
- React scheduling: every `setState` is applied at once and in call order. Render batching and deferred updaters are not modelled.
- Transport: `fetch`, `TextDecoder`, the reader and `AbortController` are left out. Chunks arrive already decoded, so a character split across reads and the decoder's final flush are not modelled. The non-ok response path before the read loop (ollamaAPI.ts:65-74) is not modelled either.
- JSON: `JSON.parse` of a stream line is the parameter `parse`; the JSON grammar is not modelled.
- Clock: each `Date.now()` reading gives a fresh value, and the attempt id and turn id of a new turn come from two readings, as in the source. Two readings in the same millisecond, and so colliding ids, are not modelled.
- Title generation in the app: `generateTitleAndUpdateState` (App.tsx:261-275) runs asynchronously after completion. The model stops at the title request that `handleComplete` issues.
- Characters: strings are sequences of Unicode scalar values, not UTF-16 code units. This affects `substring` lengths, sort order beyond the Basic Multilingual Plane, and `trim`.
- `parseInt` is modelled on arbitrary-precision naturals, with no loss of precision for very long digit runs.
- Stale sessions: a callback of an old stream writing through a newer session's slot is modelled as written, because the handlers consult the live slot. No property is proved about interleavings of two streams.
- Chat ids: `newChat?.id` is assumed non-empty; `Date.now().toString()` never gives an empty id.
- `loadModels` (App.tsx:93-127) is modelled only by its state updates (`BeginModelFetch`, `ModelsLoaded`, `ModelsFailed`): the fetch itself, the `isMounted` checks, `availableModels` and the read of the saved model from storage are left out, because they are I/O or presentation. The error paths of `fetchModels` (ollamaAPI.ts:12-19, 24-30) are left out as network I/O; only the mapping of a parsed reply to model names is modelled.
- The `else if (chatModified)` branch of `handleSendMessage` (App.tsx:570-574) is left out, because it is unreachable: a modified chat always has an active chat and a target turn.
- The "Failed to edit." branch inside the edit updater (App.tsx:530-534) is left out, because it is unreachable once the turn id was found in the same chats.
- Rendering, theming, clipboard, snackbars and the chat-history sidebar are left out, because they are presentation.
