/**
 * The streaming session controller of App.tsx, as a state record and the
 * transition each handler and each transport callback performs on it.
 * The class in session.dfy performs these transitions in place.
 *
 * A stream session is numbered by the order in which it started; the
 * number stands for its `AbortController` and for the closure its
 * callbacks share (`accumulatedBotContent` and the `chats` it captured).
 * The callbacks consult the shared slot `currentStream`, which may by then
 * belong to a newer session, exactly as `currentStreamRef.current` does.
 */
module Controller {
  import opened ChatTypes
  import opened Text
  import opened Store

  const NoModelText: string := "No model selected."
  const CancelledText: string := "Request cancelled."
  const StreamingErrorText: string := "Error streaming."
  const UnexpectedText: string := "Unexpected error."
  const EditFailedText: string := "Failed to edit."
  const RetryFailedText: string := "Could not perform retry."
  const RegenerateFailedText: string := "Could not regenerate response."
  const SelectModelText: string := "Please select a model first."
  const ConnectFailedText: string := "Could not connect."

  /** `editingTurnInfo` */
  datatype EditingTurn = EditingTurn(chatId: string, turnIndex: int)

  /** What `streamChatResponse` is called with: the session, the model and the context. */
  datatype StreamRequest = StreamRequest(session: nat, model: string, messages: seq<Message>)

  /**
   * The controller state. `controller` is the live `AbortController`, named
   * by its session; `aborted` holds the sessions whose controller was
   * aborted; `accumulated[s]` and `snapshots[s]` are session `s`'s closure;
   * `clock` stands for `Date.now()`.
   */
  datatype SessionView = SessionView(
    chats: seq<Chat>,
    activeChatId: Option<string>,
    model: string,
    input: string,
    error: string,
    modelError: string,
    isLoading: bool,
    isFetchingModels: bool,
    controller: Option<nat>,
    aborted: set<nat>,
    currentStream: Option<StreamRef>,
    accumulated: seq<string>,
    snapshots: seq<seq<Chat>>,
    editing: Option<EditingTurn>,
    displayedVersions: map<string, int>,
    clock: nat)

  /** Loading implies a live controller; every controller and closure belongs to a started session. */
  predicate ValidView(v: SessionView) {
    && |v.accumulated| == |v.snapshots|
    && (v.isLoading ==> v.controller.Some?)
    && (v.controller.Some? ==> v.controller.value < |v.accumulated|)
  }

  function TempId(n: nat): string {
    "bot-" + NatToString(n)
  }

  function TurnId(n: nat): string {
    "turn-" + NatToString(n)
  }

  // ---------------------------------------------------------------------
  // streamResponseInternal (App.tsx:277-319) and its callbacks

  datatype Launched = Launched(view: SessionView, request: Option<StreamRequest>)

  /**
   * The synchronous part of `streamResponseInternal`: the model check comes
   * first, then the single-flight check; otherwise the previous controller
   * is aborted, a new session starts and the target attempt is marked
   * pending under a fresh temporary id.
   */
  function Launch(v: SessionView, t: StreamTarget, context: seq<Message>, snapshot: seq<Chat>): (r: Launched)
    ensures r.request.Some? <==> v.model != "" && !v.isLoading
    ensures r.request.None? ==>
              r.view.chats == v.chats && r.view.currentStream == v.currentStream
              && r.view.controller == v.controller && r.view.accumulated == v.accumulated
    ensures v.model == "" ==> r.view.error == NoModelText && !r.view.isLoading
    ensures r.request.Some? ==>
              r.view.accumulated == v.accumulated + [""] && r.view.snapshots == v.snapshots + [snapshot]
              && r.request.value == StreamRequest(|v.accumulated|, v.model, context)
              && r.view.isLoading && r.view.controller == Some(|v.accumulated|)
    ensures ValidView(v) ==> ValidView(r.view)
  {
    if v.model == "" then Launched(v.(error := NoModelText, isLoading := false), None)
    else if v.isLoading then Launched(v, None)
    else
      var sid := |v.accumulated|;
      var temp := TempId(v.clock);
      Launched(
        v.(error := "", modelError := "", isLoading := true,
           aborted := if v.controller.Some? then v.aborted + {v.controller.value} else v.aborted,
           controller := Some(sid), clock := v.clock + 1,
           currentStream := Some(StreamRef(t.chatId, t.turnId, t.attemptId, temp)),
           chats := WriteAttempt(v.chats, t, MarkPending(temp)),
           accumulated := v.accumulated + [""], snapshots := v.snapshots + [snapshot]),
        Some(StreamRequest(sid, v.model, context)))
  }

  /**
   * The model `loadModels` selects from a fetched list (App.tsx:103-110):
   * the saved choice when the list offers it, otherwise the first name, or
   * none for an empty list. The selection is always one the list offers.
   */
  function ChosenModel(models: seq<string>, saved: string): (m: string)
    ensures m in models || (models == [] && m == "")
    ensures saved != "" && saved in models ==> m == saved
    ensures !(saved != "" && saved in models) && models != [] ==> m == models[0]
  {
    if saved != "" && saved in models then saved
    else if models != [] then models[0]
    else ""
  }

  /** `handleData`: grow the session's accumulator, then write it through the live slot. */
  function Data(v: SessionView, sid: nat, chunk: string): (r: SessionView)
    requires sid < |v.accumulated|
    ensures r == v.(chats := r.chats, accumulated := v.accumulated[sid := v.accumulated[sid] + chunk])
    ensures ValidView(v) ==> ValidView(r)
  {
    var acc := v.accumulated[sid] + chunk;
    var v1 := v.(accumulated := v.accumulated[sid := acc]);
    match v.currentStream
    case None => v1
    case Some(ref) => v1.(chats := WriteAttempt(v.chats, ref.Target(), WriteContent(ref.tempBotMessageId, acc)))
  }

  /** The fragments of one session, delivered in order. */
  function DataSteps(v: SessionView, sid: nat, fragments: seq<string>): (r: SessionView)
    requires sid < |v.accumulated|
    ensures r == v.(chats := r.chats, accumulated := r.accumulated)
    ensures r.accumulated == v.accumulated[sid := v.accumulated[sid] + Concat(fragments)]
  {
    if fragments == [] then
      assert v.accumulated[sid] + Concat(fragments) == v.accumulated[sid];
      v
    else
      var init := fragments[..|fragments| - 1];
      var last := fragments[|fragments| - 1];
      var d := DataSteps(v, sid, init);
      assert Concat(fragments) == Concat(init) + last;
      assert d.accumulated[sid] + last == v.accumulated[sid] + Concat(fragments);
      Data(d, sid, last)
  }

  /** The text a failed stream reports (App.tsx:349-350). */
  function ErrorText(isAbort: bool, message: string): string {
    if isAbort then CancelledText else if message == "" then StreamingErrorText else message
  }

  /** `handleError` */
  function Failure(v: SessionView, sid: nat, isAbort: bool, message: string): (r: SessionView)
    requires sid < |v.accumulated|
    ensures !r.isLoading && r.controller.None? && r.currentStream.None?
    ensures r.error == if isAbort then "" else ErrorText(isAbort, message)
    ensures ValidView(v) ==> ValidView(r)
  {
    var msg := ErrorText(isAbort, message);
    var v1 := v.(error := if isAbort then "" else msg);
    var v2 := match v.currentStream
      case None => v1
      case Some(ref) => v1.(chats := WriteAttempt(v.chats, ref.Target(), FinalizeError(ref.tempBotMessageId, v.accumulated[sid], msg)));
    v2.(isLoading := false, controller := None, currentStream := None)
  }

  datatype Completed = Completed(view: SessionView, title: Option<TitleRequest>)

  /** `handleComplete`: a no-op when the slot is empty; the title gating reads the captured snapshot. */
  function Completion(v: SessionView, sid: nat, finalContent: string): (r: Completed)
    requires sid < |v.snapshots|
    ensures v.currentStream.None? ==> r == Completed(v, None)
    ensures v.currentStream.Some? ==> !r.view.isLoading && r.view.controller.None? && r.view.currentStream.None?
    ensures ValidView(v) ==> ValidView(r.view)
  {
    match v.currentStream
    case None => Completed(v, None)
    case Some(ref) =>
      Completed(
        v.(chats := WriteAttempt(v.chats, ref.Target(), FinalizeComplete(ref.tempBotMessageId, finalContent)),
           isLoading := false, controller := None, currentStream := None),
        TitleRequestFor(v.snapshots[sid], ref, finalContent))
  }

  /**
   * The `.catch` of the stream call (App.tsx:458-484): unless the session's
   * controller was aborted or the error is an abort, report it, stop loading
   * and roll the live target back.
   */
  function SyncFailure(v: SessionView, sid: nat, isAbortError: bool, message: string): (r: SessionView)
    ensures sid in v.aborted || isAbortError ==> r == v
    ensures !(sid in v.aborted || isAbortError) ==>
              !r.isLoading && r.controller.None? && r.currentStream.None? && r.error != ""
    ensures ValidView(v) ==> ValidView(r)
  {
    if sid in v.aborted || isAbortError then v
    else
      var v1 := v.(error := if message == "" then UnexpectedText else message, isLoading := false, controller := None);
      var v2 := match v.currentStream
        case None => v1
        case Some(ref) => v1.(chats := WriteAttempt(v.chats, ref.Target(), Rollback));
      v2.(currentStream := None)
  }

  // ---------------------------------------------------------------------
  // Aborting

  /** `stopGeneration`: only signals the controller; the transport reports the outcome. */
  function Stop(v: SessionView): (r: SessionView)
    ensures r == v.(aborted := r.aborted)
    ensures r.aborted == if v.controller.Some? then v.aborted + {v.controller.value} else v.aborted
    ensures ValidView(v) ==> ValidView(r)
  {
    if v.controller.Some? then v.(aborted := v.aborted + {v.controller.value}) else v
  }

  /** `abort(); setAbortController(null); setIsLoading(false)`, as createNewChatState and deleteChat do it. */
  function AbortOnly(v: SessionView): (r: SessionView)
    ensures r.controller.None? && (v.controller.Some? ==> !r.isLoading && v.controller.value in r.aborted)
    ensures ValidView(v) ==> ValidView(r)
  {
    if v.controller.Some? then v.(aborted := v.aborted + {v.controller.value}, controller := None, isLoading := false)
    else v
  }

  /** `safeAbort` (App.tsx:148-177): abort, then salvage the live target and clear the slot. */
  function AbortAndSalvage(v: SessionView): (r: SessionView)
    ensures v.controller.None? ==> r == v
    ensures v.controller.Some? ==> r.controller.None? && !r.isLoading && r.currentStream.None?
    ensures v.controller.Some? ==> r.aborted == v.aborted + {v.controller.value}
    ensures ValidView(v) ==> ValidView(r)
  {
    if v.controller.None? then v
    else
      var a := AbortOnly(v);
      match v.currentStream
      case None => a
      case Some(ref) => a.(chats := WriteAttempt(v.chats, ref.Target(), Salvage), currentStream := None)
  }

  /** The route effect (App.tsx:178-201), given the chat id in the URL. */
  function SwitchView(v: SessionView, url: Option<string>): (r: SessionView)
    ensures url.Some? && FindChat(v.chats, url.value) >= 0 ==> r.activeChatId == url
    ensures ValidView(v) ==> ValidView(r)
  {
    if url.Some? && FindChat(v.chats, url.value) >= 0 then
      if v.activeChatId != url then AbortAndSalvage(v).(editing := None, activeChatId := url) else v
    else if v.activeChatId.Some? then AbortAndSalvage(v).(activeChatId := None, editing := None)
    else v
  }

  // ---------------------------------------------------------------------
  // Action handlers: what each does before it may start a stream

  /** A handler either leaves the state alone, settles on a new state, or starts a stream from one. */
  datatype Plan =
    | Unchanged
    | Settle(next: SessionView)
    | Start(next: SessionView, target: StreamTarget, context: seq<Message>, snapshot: seq<Chat>)

  /** The whole effect of a handler: its plan, then `streamResponseInternal` when the plan starts one. */
  function Outcome(v: SessionView, p: Plan): Launched {
    match p
    case Unchanged => Launched(v, None)
    case Settle(w) => Launched(w, None)
    case Start(w, t, c, s) => Launch(w, t, c, s)
  }

  /** `createNewChatState` (App.tsx:205-222), returning the new chat too. */
  datatype NewChat = NewChat(view: SessionView, chat: Chat)

  /** The part of `createNewChat` after the abort: clear the errors and append a default-titled chat. */
  function OpenDefaultChat(v: SessionView): (r: NewChat)
    ensures ValidView(v) ==> ValidView(r.view)
    ensures r.view.chats == v.chats + [r.chat] && r.chat.turns == []
  {
    var chat := Chat(NatToString(v.clock), DefaultTitle(MaxDefaultNumber(v.chats) + 1), []);
    NewChat(v.(error := "", modelError := "", clock := v.clock + 1, chats := v.chats + [chat]), chat)
  }

  function CreateChatState(v: SessionView): (r: NewChat)
    ensures ValidView(v) ==> ValidView(r.view)
    ensures r.view.chats == v.chats + [r.chat] && r.chat.turns == []
  {
    OpenDefaultChat(AbortOnly(v))
  }

  /** `deleteChat` (App.tsx:240-248): aborts only when the active chat is deleted; the slot is left as is. */
  function DeleteView(v: SessionView, id: string): (r: SessionView)
    ensures ValidView(v) ==> ValidView(r)
  {
    var a := if v.activeChatId == Some(id) then AbortOnly(v) else v;
    a.(chats := DeleteChat(v.chats, id))
  }

  /** `handleSendMessage` (App.tsx:486-575) */
  function SendPlan(v: SessionView): Plan {
    var content := Trim(v.input);
    if content == [] || v.activeChatId.None? || v.isLoading then Unchanged
    else if v.editing.Some? && v.editing.value.chatId == v.activeChatId.value then EditPlan(v, content)
    else NewTurnPlan(v, content)
  }

  /** The edit branch of `handleSendMessage` (App.tsx:495-544, 565). */
  function EditPlan(v: SessionView, content: string): Plan
    requires v.activeChatId.Some? && v.editing.Some?
  {
    var e := v.editing.value;
    var ci := FindChat(v.chats, v.activeChatId.value);
    var turnId := if ci >= 0 && 0 <= e.turnIndex < |v.chats[ci].turns| then v.chats[ci].turns[e.turnIndex].turnId else "";
    if turnId == "" then Settle(EditFailed(v))
    else EditStartPlan(v, ci, e.turnIndex, content)
  }

  /** An edit whose turn cannot be resolved: report it and leave edit mode. */
  function EditFailed(v: SessionView): SessionView {
    v.(clock := v.clock + 1, error := EditFailedText, editing := None, input := "")
  }

  /**
   * An edit whose turn was found: the new attempt joins that turn, the
   * turn shows it, and the stream answers the prompt after the turns
   * before it. The turn was found, so the edit cannot miss its chat or index.
   */
  function EditStartPlan(v: SessionView, ci: nat, ti: nat, content: string): Plan
    requires v.activeChatId.Some? && ci == FindChat(v.chats, v.activeChatId.value) && ti < |v.chats[ci].turns|
  {
    var active := v.activeChatId.value;
    var attemptId := NatToString(v.clock);
    var turnId := v.chats[ci].turns[ti].turnId;
    var o := EditAppend(v.chats, active, ti, PendingAttempt(attemptId, content));
    Start(v.(clock := v.clock + 1, chats := o.chats, displayedVersions := v.displayedVersions[turnId := o.newIndex], editing := None, input := ""),
          StreamTarget(active, turnId, attemptId), BuildContext(v.chats[ci].turns[..ti], content), v.chats)
  }

  /** The new-turn branch of `handleSendMessage` (App.tsx:545-565). */
  function NewTurnPlan(v: SessionView, content: string): Plan
    requires v.activeChatId.Some?
  {
    var active := v.activeChatId.value;
    var attemptId := NatToString(v.clock);
    var turnId := TurnId(v.clock + 1);
    var ci := FindChat(v.chats, active);
    var prior := if ci >= 0 then v.chats[ci].turns else [];
    Start(v.(clock := v.clock + 2, chats := AppendTurn(v.chats, active, Turn(turnId, [PendingAttempt(attemptId, content)])), input := ""),
          StreamTarget(active, turnId, attemptId), BuildContext(prior, content), v.chats)
  }

  /**
   * What retry and regenerate share once they have found turn `ti` of chat
   * `ci`: append a pending attempt for `prompt` to it, show that attempt,
   * and stream it after the contributing turns before `ti`.
   */
  function ResubmitPlan(v: SessionView, ci: nat, ti: nat, prompt: string, cutAtFirstError: bool): Plan
    requires v.activeChatId.Some? && ci < |v.chats| && ti < |v.chats[ci].turns|
  {
    var active := v.activeChatId.value;
    var turnId := v.chats[ci].turns[ti].turnId;
    var attemptId := NatToString(v.clock);
    var newChats := AppendAttempt(v.chats, active, turnId, PendingAttempt(attemptId, prompt), cutAtFirstError);
    Start(v.(clock := v.clock + 1, chats := newChats,
             displayedVersions := VersionsAfterAppend(v.displayedVersions, newChats, active, turnId)),
          StreamTarget(active, turnId, attemptId), BuildContext(v.chats[ci].turns[..ti], prompt), v.chats)
  }

  /** The turn a retry resubmits: chat `ci`, turn `i`, and the prompt of its latest attempt. */
  datatype RetryChoice = RetryAt(ci: nat, i: nat, prompt: string) | NothingToRetry

  /**
   * The backward scan of `handleRetryLastMessage` (App.tsx:636-651): the
   * newest turn of the active chat whose latest attempt is an error.
   */
  function ChooseRetry(v: SessionView): (c: RetryChoice)
    requires v.activeChatId.Some?
    ensures c.RetryAt? ==> c.ci < |v.chats| && c.i < |v.chats[c.ci].turns|
  {
    var ci := FindChat(v.chats, v.activeChatId.value);
    var i := if ci >= 0 then NewestRetryCandidate(v.chats[ci].turns) else -1;
    if i >= 0 && v.chats[ci].turns[i].turnId != "" then
      var rs := v.chats[ci].turns[i].responses;
      RetryAt(ci, i, rs[|rs| - 1].promptUsed)
    else NothingToRetry
  }

  /** `handleRetryLastMessage` (App.tsx:632-691) */
  function RetryPlan(v: SessionView): Plan {
    if v.activeChatId.None? || v.isLoading then Unchanged
    else match ChooseRetry(v)
      case RetryAt(ci, i, prompt) => ResubmitPlan(v, ci, i, prompt, true)
      case NothingToRetry => Settle(v.(error := RetryFailedText))
  }

  /** `handleRegenerate` (App.tsx:692-732) */
  function RegeneratePlan(v: SessionView, turnId: string, attemptIndex: int): Plan {
    if v.activeChatId.None? || v.isLoading then Unchanged
    else
      var ci := FindChat(v.chats, v.activeChatId.value);
      var ti := if ci >= 0 then FindTurn(v.chats[ci].turns, turnId) else -1;
      if ti >= 0 && 0 <= attemptIndex < |v.chats[ci].turns[ti].responses| then
        ResubmitPlan(v, ci, ti, v.chats[ci].turns[ti].responses[attemptIndex].promptUsed, false)
      else Settle(v.(error := RegenerateFailedText))
  }

  /** The first-send auto-start effect (App.tsx:619-631). */
  function AutoStartPlan(v: SessionView): Plan {
    var ci := if v.activeChatId.Some? then FindChat(v.chats, v.activeChatId.value) else -1;
    if ci >= 0 && ShouldAutoStart(v.chats[ci]) && !v.isLoading && v.controller.None? then
      var c := v.chats[ci];
      var first := c.turns[0].responses[0];
      Start(v, StreamTarget(c.id, c.turns[0].turnId, first.attemptId), [UserMessage(first.promptUsed)], v.chats)
    else Unchanged
  }

  /**
   * The chat a first message opens, before navigation (App.tsx:590-612):
   * a new chat whose single turn holds one untouched attempt for `prompt`,
   * retitled after the prompt while it still has a default title.
   */
  function FirstChatView(v: SessionView, prompt: string): NewChat {
    var n := CreateChatState(v);
    var w := n.view;
    var turn := Turn(TurnId(w.clock + 1), [PendingAttempt(NatToString(w.clock), prompt)]);
    var title := if DefaultTitleNumber(n.chat.title).Some? then FirstMessageTitle(prompt) else n.chat.title;
    NewChat(w.(clock := w.clock + 2, chats := InstallFirstTurn(w.chats, n.chat.id, title, turn), input := ""), n.chat)
  }

  /**
   * `handleSendFirstMessage` (App.tsx:581-618): open the chat, then
   * navigate to it (the route effect then makes it active).
   */
  function SendFirstPlan(v: SessionView, message: string): Plan {
    var prompt := Trim(message);
    if prompt == [] || v.isLoading || v.isFetchingModels then Unchanged
    else if v.model == "" then Settle(v.(error := SelectModelText))
    else
      var f := FirstChatView(v, prompt);
      Settle(SwitchView(f.view, Some(f.chat.id)))
  }

  // ---------------------------------------------------------------------
  // Properties of the stream lifecycle

  /** Every attempt the target resolves to in `chats` holds message `m`. */
  ghost predicate Holds(chats: seq<Chat>, t: StreamTarget, m: Message) {
    forall k, j, a :: 0 <= k < |chats| && Located(chats[k], t, j, a) ==>
      chats[k].turns[j].responses[a].assistantMessage == m
  }

  /**
   * An in-place write whose guard the located attempts pass keeps the
   * store's shape and leaves every located attempt holding the rewritten
   * message.
   */
  lemma InPlaceWriteHolds(chats: seq<Chat>, t: StreamTarget, w: AttemptWrite, m: Message)
    requires InPlace(w) && (Guarded(w) ==> m.id == Some(GuardId(w))) && Holds(chats, t, m)
    ensures var r := WriteAttempt(chats, t, w);
      SameShape(chats, r) && Holds(r, t, Rewritten(m, w))
  {
    var r := WriteAttempt(chats, t, w);
    InPlaceWriteKeepsShape(chats, t, w);
    forall k, j, a | 0 <= k < |r| && Located(r[k], t, j, a)
      ensures r[k].turns[j].responses[a].assistantMessage == Rewritten(m, w)
    {
      SameShapeLocated(chats, r, t, k, j, a);
      WriteAtLocated(chats, t, w, k, j, a);
    }
  }

  /** The live assistant message of a stream showing `text`. */
  function Live(temp: string, text: string): Message {
    Message(Assistant, text, Some(temp), false)
  }

  /**
   * Starting a stream marks every attempt the target resolves to as the
   * live, empty assistant message, and aborts the controller it replaces.
   */
  lemma LaunchMarksPending(v: SessionView, t: StreamTarget, context: seq<Message>, snapshot: seq<Chat>)
    requires v.model != "" && !v.isLoading
    ensures var r := Launch(v, t, context, snapshot).view;
      var temp := TempId(v.clock);
      && r.currentStream == Some(StreamRef(t.chatId, t.turnId, t.attemptId, temp))
      && r.accumulated == v.accumulated + [""]
      && (v.controller.Some? ==> v.controller.value in r.aborted)
      && SameShape(v.chats, r.chats)
      && Holds(r.chats, t, Live(temp, ""))
  {
    var r := Launch(v, t, context, snapshot).view;
    var temp := TempId(v.clock);
    InPlaceWriteKeepsShape(v.chats, t, MarkPending(temp));
    forall k, j, a | 0 <= k < |r.chats| && Located(r.chats[k], t, j, a)
      ensures r.chats[k].turns[j].responses[a].assistantMessage == Live(temp, "")
    {
      SameShapeLocated(v.chats, r.chats, t, k, j, a);
      WriteAtLocated(v.chats, t, MarkPending(temp), k, j, a);
    }
  }

  /**
   * While a stream's slot is live, each fragment grows its accumulator and
   * the target attempt shows the whole accumulator; nothing else changes.
   */
  lemma {:induction false} FragmentsAccumulate(v: SessionView, sid: nat, fragments: seq<string>, ref: StreamRef)
    requires sid < |v.accumulated| && v.currentStream == Some(ref)
    requires Holds(v.chats, ref.Target(), Live(ref.tempBotMessageId, v.accumulated[sid]))
    ensures var r := DataSteps(v, sid, fragments);
      && r == v.(chats := r.chats, accumulated := r.accumulated)
      && r.accumulated == v.accumulated[sid := v.accumulated[sid] + Concat(fragments)]
      && SameShape(v.chats, r.chats)
      && Holds(r.chats, ref.Target(), Live(ref.tempBotMessageId, r.accumulated[sid]))
  {
    if fragments == [] {
      assert Concat(fragments) == [];
      assert v.accumulated[sid] + Concat(fragments) == v.accumulated[sid];
    } else {
      var init := fragments[..|fragments| - 1];
      var last := fragments[|fragments| - 1];
      FragmentsAccumulate(v, sid, init, ref);
      var d := DataSteps(v, sid, init);
      var r := Data(d, sid, last);
      var acc := d.accumulated[sid] + last;
      assert Concat(fragments) == Concat(init) + last;
      assert acc == v.accumulated[sid] + Concat(fragments);
      InPlaceWriteHolds(d.chats, ref.Target(), WriteContent(ref.tempBotMessageId, acc), Live(ref.tempBotMessageId, d.accumulated[sid]));
      SameShapeTransitive(v.chats, d.chats, r.chats);
    }
  }

  /** Completion rewrites every live target attempt to its completed form and ends loading. */
  lemma CompletionSettles(v: SessionView, sid: nat, finalContent: string, ref: StreamRef, m: Message)
    requires sid < |v.snapshots| && v.currentStream == Some(ref)
    requires Holds(v.chats, ref.Target(), m) && m.id == Some(ref.tempBotMessageId)
    ensures var r := Completion(v, sid, finalContent);
      && SameShape(v.chats, r.view.chats)
      && Holds(r.view.chats, ref.Target(), CompletedMessage(m, ref.tempBotMessageId, finalContent))
      && r.title == TitleRequestFor(v.snapshots[sid], ref, finalContent)
  {
    InPlaceWriteHolds(v.chats, ref.Target(), FinalizeComplete(ref.tempBotMessageId, finalContent), m);
  }

  /** A transport error rewrites every live target attempt to its failed form. */
  lemma FailureMarks(v: SessionView, sid: nat, isAbort: bool, message: string, ref: StreamRef, m: Message)
    requires sid < |v.accumulated| && v.currentStream == Some(ref)
    requires Holds(v.chats, ref.Target(), m) && m.id == Some(ref.tempBotMessageId)
    ensures var r := Failure(v, sid, isAbort, message);
      && SameShape(v.chats, r.chats)
      && Holds(r.chats, ref.Target(),
               FailedMessage(m, ref.tempBotMessageId, v.accumulated[sid], ErrorText(isAbort, message)))
  {
    InPlaceWriteHolds(v.chats, ref.Target(), FinalizeError(ref.tempBotMessageId, v.accumulated[sid], ErrorText(isAbort, message)), m);
  }

  /**
   * A whole stream: once started, its fragments are shown as they arrive; on
   * completion with the streamed text the attempt settles on that text (or
   * becomes "Model did not respond." when it is blank); if the user stops it
   * and the transport reports the abort, the attempt keeps the trimmed
   * partial text (or "Request cancelled.") as an error, and no error banner
   * is shown.
   */
  lemma StreamLifecycle(v: SessionView, t: StreamTarget, context: seq<Message>, snapshot: seq<Chat>, fragments: seq<string>)
    requires ValidView(v) && v.model != "" && !v.isLoading
    ensures var sid := |v.accumulated|;
      var temp := TempId(v.clock);
      var text := Concat(fragments);
      var d := DataSteps(Launch(v, t, context, snapshot).view, sid, fragments);
      var c := Completion(d, sid, text).view;
      var f := Failure(Stop(d), sid, true, "");
      && d.isLoading && d.currentStream == Some(StreamRef(t.chatId, t.turnId, t.attemptId, temp))
      && SameShape(v.chats, d.chats) && Holds(d.chats, t, Live(temp, text))
      && SameShape(v.chats, c.chats) && !c.isLoading && c.currentStream.None?
      && Holds(c.chats, t, if IsBlank(text) then Message(Assistant, NoResponseText, Some(temp), true)
                           else Message(Assistant, text, None, false))
      && SameShape(v.chats, f.chats) && !f.isLoading && f.error == ""
      && Holds(f.chats, t, Message(Assistant, if IsBlank(text) then CancelledText else Trim(text), Some(temp), true))
  {
    var sid := |v.accumulated|;
    var temp := TempId(v.clock);
    var text := Concat(fragments);
    var ref := StreamRef(t.chatId, t.turnId, t.attemptId, temp);
    assert ref.Target() == t;
    var l := Launch(v, t, context, snapshot).view;
    LaunchMarksPending(v, t, context, snapshot);
    FragmentsAccumulate(l, sid, fragments, ref);
    var d := DataSteps(l, sid, fragments);
    assert d.accumulated[sid] == text;
    SameShapeTransitive(v.chats, l.chats, d.chats);
    CompletionSettles(d, sid, text, ref, Live(temp, text));
    SameShapeTransitive(v.chats, d.chats, Completion(d, sid, text).view.chats);
    FailureMarks(Stop(d), sid, true, "", ref, Live(temp, text));
    SameShapeTransitive(v.chats, d.chats, Failure(Stop(d), sid, true, "").chats);
  }

  /**
   * Switching away during a stream aborts it and salvages the target: an
   * attempt with text is kept with its temporary id cleared, a blank one is
   * dropped with every later attempt. No chat and no turn is removed.
   */
  lemma SwitchAwaySalvages(v: SessionView, ref: StreamRef)
    requires v.controller.Some? && v.currentStream == Some(ref)
    ensures var r := AbortAndSalvage(v);
      && v.controller.value in r.aborted
      && |r.chats| == |v.chats|
      && (forall k :: 0 <= k < |v.chats| ==>
            r.chats[k].id == v.chats[k].id && |r.chats[k].turns| == |v.chats[k].turns|)
      && forall k, j, a :: 0 <= k < |v.chats| && Located(v.chats[k], ref.Target(), j, a) ==>
           var rs := v.chats[k].turns[j].responses;
           r.chats[k].turns[j].responses ==
             if IsBlank(rs[a].assistantMessage.content) then rs[..a]
             else rs[a := rs[a].(assistantMessage := rs[a].assistantMessage.(id := None))]
  {
    var r := AbortAndSalvage(v);
    WriteKeepsTree(v.chats, ref.Target(), Salvage);
    forall k, j, a | 0 <= k < |v.chats| && Located(v.chats[k], ref.Target(), j, a)
      ensures var rs := v.chats[k].turns[j].responses;
        r.chats[k].turns[j].responses ==
          if IsBlank(rs[a].assistantMessage.content) then rs[..a]
          else rs[a := rs[a].(assistantMessage := rs[a].assistantMessage.(id := None))]
    {
      WriteAtLocated(v.chats, ref.Target(), Salvage, k, j, a);
    }
  }

  /**
   * Deleting the active chat aborts the stream but leaves the slot set, so
   * the transport's abort report still finalizes through it; no chat with
   * the id remains.
   */
  lemma DeleteActiveKeepsSlot(v: SessionView, id: string)
    requires v.activeChatId == Some(id) && v.controller.Some?
    ensures var r := DeleteView(v, id);
      && r.controller.None? && !r.isLoading && v.controller.value in r.aborted
      && r.currentStream == v.currentStream
      && forall k :: 0 <= k < |r.chats| ==> r.chats[k].id != id
  {
    var r := DeleteView(v, id);
    DeleteEffect(v.chats, id);
    forall k | 0 <= k < |r.chats| ensures r.chats[k].id != id {
      assert r.chats[k] in r.chats;
    }
  }

  // ---------------------------------------------------------------------
  // Properties of the action handlers

  /** Send, retry and regenerate do nothing at all while a stream is loading or no chat is active. */
  lemma HandlerGuards(v: SessionView, turnId: string, attemptIndex: int)
    ensures v.isLoading || v.activeChatId.None? ==>
      && Outcome(v, SendPlan(v)) == Launched(v, None)
      && Outcome(v, RetryPlan(v)) == Launched(v, None)
      && Outcome(v, RegeneratePlan(v, turnId, attemptIndex)) == Launched(v, None)
    ensures IsBlank(v.input) ==> Outcome(v, SendPlan(v)) == Launched(v, None)
  {
  }

  /**
   * Sending outside an edit appends a turn with one pending attempt for the
   * trimmed input to the active chat, and submits every contributing
   * earlier turn followed by the new prompt.
   */
  lemma SendNewTurnEffect(v: SessionView)
    requires !IsBlank(v.input) && v.activeChatId.Some? && !v.isLoading
    requires !(v.editing.Some? && v.editing.value.chatId == v.activeChatId.value)
    ensures var p := SendPlan(v);
      var active := v.activeChatId.value;
      var prompt := Trim(v.input);
      var ci := FindChat(v.chats, active);
      var prior := if ci >= 0 then v.chats[ci].turns else [];
      var turn := Turn(TurnId(v.clock + 1), [PendingAttempt(NatToString(v.clock), prompt)]);
      && p.Start?
      && p.target == StreamTarget(active, turn.turnId, NatToString(v.clock))
      && p.context == BuildContext(prior, prompt)
      && |p.context| == 2 * CountContributing(prior) + 1
      && p.next.input == "" && p.snapshot == v.chats
      && |p.next.chats| == |v.chats|
      && forall k :: 0 <= k < |v.chats| ==>
           p.next.chats[k] == if v.chats[k].id == active then v.chats[k].(turns := v.chats[k].turns + [turn]) else v.chats[k]
  {
    var active := v.activeChatId.value;
    var ci := FindChat(v.chats, active);
    ContextLength(if ci >= 0 then v.chats[ci].turns else [], Trim(v.input));
  }

  /**
   * Sending while editing turn `i` of the active chat adds one pending
   * attempt to that turn only, points its displayed version at it, and
   * submits the contributing turns before `i`; later turns stay in place.
   */
  lemma SendEditEffect(v: SessionView)
    requires !IsBlank(v.input) && v.activeChatId.Some? && !v.isLoading
    requires v.editing.Some? && v.editing.value.chatId == v.activeChatId.value
    requires var ci := FindChat(v.chats, v.activeChatId.value); var i := v.editing.value.turnIndex;
      ci >= 0 && 0 <= i < |v.chats[ci].turns| && v.chats[ci].turns[i].turnId != ""
    ensures var p := SendPlan(v);
      var ci := FindChat(v.chats, v.activeChatId.value);
      var i := v.editing.value.turnIndex;
      var turn := v.chats[ci].turns[i];
      var prompt := Trim(v.input);
      && p.Start?
      && p.target == StreamTarget(v.activeChatId.value, turn.turnId, NatToString(v.clock))
      && p.context == BuildContext(v.chats[ci].turns[..i], prompt)
      && p.next.editing.None? && p.next.input == ""
      && |p.next.chats| == |v.chats|
      && |p.next.chats[ci].turns| == |v.chats[ci].turns|
      && p.next.chats[ci].turns[i] == turn.(responses := turn.responses + [PendingAttempt(NatToString(v.clock), prompt)])
      && p.next.displayedVersions == v.displayedVersions[turn.turnId := |turn.responses|]
      && (forall j :: 0 <= j < |v.chats[ci].turns| && j != i ==> p.next.chats[ci].turns[j] == v.chats[ci].turns[j])
      && (forall k :: 0 <= k < |v.chats| && k != ci ==> p.next.chats[k] == v.chats[k])
  {
    var ci := FindChat(v.chats, v.activeChatId.value);
    EditEffect(v.chats, v.activeChatId.value, v.editing.value.turnIndex,
               PendingAttempt(NatToString(v.clock), Trim(v.input)));
  }

  /** An edit whose turn cannot be resolved reports "Failed to edit." and leaves the chats alone. */
  lemma SendEditFails(v: SessionView)
    requires !IsBlank(v.input) && v.activeChatId.Some? && !v.isLoading
    requires v.editing.Some? && v.editing.value.chatId == v.activeChatId.value
    requires var ci := FindChat(v.chats, v.activeChatId.value); var i := v.editing.value.turnIndex;
      !(ci >= 0 && 0 <= i < |v.chats[ci].turns| && v.chats[ci].turns[i].turnId != "")
    ensures SendPlan(v) == Settle(v.(clock := v.clock + 1, error := EditFailedText, editing := None, input := ""))
  {
  }

  /**
   * Retry fails with "Could not perform retry." exactly when the active
   * chat has no turn whose latest attempt is an error, or the newest such
   * turn has an empty id (`targetTurnId` is falsy), and then changes
   * nothing else.
   */
  lemma RetryFails(v: SessionView)
    requires v.activeChatId.Some? && !v.isLoading
    ensures var ci := FindChat(v.chats, v.activeChatId.value);
      var i := if ci >= 0 then NewestRetryCandidate(v.chats[ci].turns) else -1;
      && (RetryPlan(v).Settle? <==> !(i >= 0 && v.chats[ci].turns[i].turnId != ""))
      && (RetryPlan(v).Settle? ==> RetryPlan(v) == Settle(v.(error := RetryFailedText)))
  {
  }

  /** A retry that finds its target, stated once for the two retry lemmas. */
  predicate RetryFinds(v: SessionView) {
    && v.activeChatId.Some? && !v.isLoading
    && var ci := FindChat(v.chats, v.activeChatId.value);
       ci >= 0 && NewestRetryCandidate(v.chats[ci].turns) >= 0
       && v.chats[ci].turns[NewestRetryCandidate(v.chats[ci].turns)].turnId != ""
  }

  /**
   * Otherwise retry targets the newest turn whose latest attempt is an
   * error, re-submits that attempt's prompt after the contributing turns
   * before it, and points the displayed version of the turn at the attempt
   * it appends.
   */
  lemma RetryTarget(v: SessionView)
    requires RetryFinds(v)
    ensures var p := RetryPlan(v);
      var active := v.activeChatId.value;
      var turns := v.chats[FindChat(v.chats, active)].turns;
      var i := NewestRetryCandidate(turns);
      var prompt := turns[i].responses[|turns[i].responses| - 1].promptUsed;
      && RetryCandidate(turns[i])
      && (forall k :: i < k < |turns| ==> !RetryCandidate(turns[k]))
      && p.Start?
      && p.target == StreamTarget(active, turns[i].turnId, NatToString(v.clock))
      && p.context == BuildContext(turns[..i], prompt)
      && p.next.displayedVersions == VersionsAfterAppend(v.displayedVersions, p.next.chats, active, turns[i].turnId)
  {
    var ci := FindChat(v.chats, v.activeChatId.value);
    var turns := v.chats[ci].turns;
    var i := NewestRetryCandidate(turns);
    assert ChooseRetry(v) == RetryAt(ci, i, turns[i].responses[|turns[i].responses| - 1].promptUsed);
  }

  /**
   * The retried turn, the first carrying the target's id (the target itself
   * when turn ids are unique), drops its attempts from the first error on
   * and gains a pending attempt for the same prompt.
   */
  lemma RetryAppends(v: SessionView)
    requires RetryFinds(v)
    ensures var p := RetryPlan(v);
      var active := v.activeChatId.value;
      var ci := FindChat(v.chats, active);
      var turns := v.chats[ci].turns;
      var i := NewestRetryCandidate(turns);
      var prompt := turns[i].responses[|turns[i].responses| - 1].promptUsed;
      var j := FindTurn(turns, turns[i].turnId);
      && p.Start?
      && 0 <= j <= i && (UniqueTurnIds(turns) ==> j == i)
      && |p.next.chats| == |v.chats| && |p.next.chats[ci].turns| == |turns|
      && p.next.chats[ci].turns[j].responses
         == AppendedResponses(turns[j].responses, PendingAttempt(NatToString(v.clock), prompt), true)
  {
    var active := v.activeChatId.value;
    var ci := FindChat(v.chats, active);
    var turns := v.chats[ci].turns;
    var i := NewestRetryCandidate(turns);
    var prompt := turns[i].responses[|turns[i].responses| - 1].promptUsed;
    var attempt := PendingAttempt(NatToString(v.clock), prompt);
    assert ChooseRetry(v) == RetryAt(ci, i, prompt);
    assert RetryPlan(v).next.chats == AppendAttempt(v.chats, active, turns[i].turnId, attempt, true);
    FirstTurnMatch(turns, i);
    if UniqueTurnIds(turns) {
      UniqueTurnFound(turns, i);
    }
    AppendAtFoundTurn(v.chats, active, turns[i].turnId, attempt, true, ci, v.displayedVersions);
  }

  /**
   * Regenerate fails with "Could not regenerate response." exactly when the
   * turn or the attempt index does not resolve in the active chat. Otherwise
   * the turn gains a pending attempt reusing the chosen attempt's prompt,
   * the displayed version points at it, and the contributing turns before
   * it are submitted.
   */
  lemma RegenerateEffect(v: SessionView, turnId: string, attemptIndex: int)
    requires v.activeChatId.Some? && !v.isLoading
    ensures var p := RegeneratePlan(v, turnId, attemptIndex);
      var active := v.activeChatId.value;
      var ci := FindChat(v.chats, active);
      var ti := if ci >= 0 then FindTurn(v.chats[ci].turns, turnId) else -1;
      && (p.Settle? <==> !(ti >= 0 && 0 <= attemptIndex < |v.chats[ci].turns[ti].responses|))
      && (p.Settle? ==> p == Settle(v.(error := RegenerateFailedText)))
      && (p.Start? ==>
            var turn := v.chats[ci].turns[ti];
            var prompt := turn.responses[attemptIndex].promptUsed;
            && p.target == StreamTarget(active, turnId, NatToString(v.clock))
            && p.context == BuildContext(v.chats[ci].turns[..ti], prompt)
            && |p.next.chats| == |v.chats| && |p.next.chats[ci].turns| == |v.chats[ci].turns|
            && p.next.chats[ci].turns[ti].responses == turn.responses + [PendingAttempt(NatToString(v.clock), prompt)]
            && (UniqueChatIds(v.chats) ==>
                  p.next.displayedVersions == v.displayedVersions[turnId := |turn.responses|]))
  {
    var p := RegeneratePlan(v, turnId, attemptIndex);
    var active := v.activeChatId.value;
    var ci := FindChat(v.chats, active);
    if p.Start? {
      var ti := FindTurn(v.chats[ci].turns, turnId);
      var turn := v.chats[ci].turns[ti];
      var attempt := PendingAttempt(NatToString(v.clock), turn.responses[attemptIndex].promptUsed);
      var newChats := AppendAttempt(v.chats, active, turnId, attempt, false);
      assert p == ResubmitPlan(v, ci, ti, attempt.promptUsed, false);
      assert p.next.chats == newChats;
      AppendAtFoundTurn(v.chats, active, turnId, attempt, false, ci, v.displayedVersions);
    }
  }

  /**
   * A new chat is appended last, with no turns and the title `Chat N+1`,
   * where N is the largest number a default title carries; that title is
   * carried by no existing chat.
   */
  lemma NewChatEffect(v: SessionView)
    ensures var n := CreateChatState(v);
      && n.chat.title == DefaultTitle(MaxDefaultNumber(v.chats) + 1)
      && n.view.chats == v.chats + [n.chat] && n.chat.turns == []
      && (forall k :: 0 <= k < |v.chats| ==> v.chats[k].title != n.chat.title)
      && n.view.error == "" && n.view.modelError == "" && n.view.controller.None?
  {
    var a := AbortOnly(v);
    assert a.chats == v.chats && a.controller.None?;
    MaxDefaultNumberIsMax(v.chats);
    NewDefaultTitleIsFresh(v.chats, MaxDefaultNumber(v.chats));
  }

  /**
   * Opening the first chat appends it under the clock's id, titled after
   * the prompt and holding a single untouched attempt, with nothing
   * streaming.
   */
  lemma FirstChatOpened(v: SessionView, prompt: string)
    requires ValidView(v)
    requires forall k :: 0 <= k < |v.chats| ==> v.chats[k].id != NatToString(v.clock)
    ensures var f := FirstChatView(v, prompt);
      && f.chat.id == NatToString(v.clock)
      && f.view.chats
         == v.chats + [Chat(f.chat.id, FirstMessageTitle(prompt), [Turn(TurnId(v.clock + 2), [PendingAttempt(NatToString(v.clock + 1), prompt)])])]
      && f.view.controller.None? && !f.view.isLoading
  {
    var a := AbortOnly(v);
    assert a.chats == v.chats && a.clock == v.clock && a.controller.None? && !a.isLoading;
    var n := CreateChatState(v);
    assert n == OpenDefaultChat(a);
    assert n.view.chats == v.chats + [n.chat] && n.view.clock == v.clock + 1 && n.chat.id == NatToString(v.clock);
    DefaultTitleRoundTrip(MaxDefaultNumber(v.chats) + 1);
    assert DefaultTitleNumber(n.chat.title).Some?;
    var turn := Turn(TurnId(v.clock + 2), [PendingAttempt(NatToString(v.clock + 1), prompt)]);
    var f := FirstChatView(v, prompt);
    assert f.view.chats == InstallFirstTurn(v.chats + [n.chat], n.chat.id, FirstMessageTitle(prompt), turn);
    InstallIntoNewChat(v.chats, n.chat, FirstMessageTitle(prompt), turn);
  }

  /**
   * A first message creates the chat under the clock's id, titles it after
   * the prompt, gives it a single untouched attempt, and navigates to it
   * with nothing streaming.
   */
  lemma FirstSendInstalls(v: SessionView, message: string)
    requires ValidView(v)
    requires !IsBlank(message) && !v.isLoading && !v.isFetchingModels && v.model != ""
    requires forall k :: 0 <= k < |v.chats| ==> v.chats[k].id != NatToString(v.clock)
    ensures SendFirstPlan(v, message).Settle?
    ensures var w := SendFirstPlan(v, message).next;
      var id := NatToString(v.clock);
      var prompt := Trim(message);
      && w.activeChatId == Some(id)
      && FindChat(w.chats, id) == |v.chats|
      && w.chats[|v.chats|]
         == Chat(id, FirstMessageTitle(prompt), [Turn(TurnId(v.clock + 2), [PendingAttempt(NatToString(v.clock + 1), prompt)])])
      && !w.isLoading && w.controller.None?
  {
    var prompt := Trim(message);
    FirstChatOpened(v, prompt);
    var f := FirstChatView(v, prompt);
    InstallIntoNewChat(v.chats, CreateChatState(v).chat, FirstMessageTitle(prompt),
                       Turn(TurnId(v.clock + 2), [PendingAttempt(NatToString(v.clock + 1), prompt)]));
    assert AbortAndSalvage(f.view) == f.view;
  }

  /**
   * After a first message the auto-start effect fires on the new chat with
   * the prompt as its whole context, after which it no longer fires.
   */
  lemma FirstSendAutoStarts(v: SessionView, message: string)
    requires ValidView(v)
    requires !IsBlank(message) && !v.isLoading && !v.isFetchingModels && v.model != ""
    requires forall k :: 0 <= k < |v.chats| ==> v.chats[k].id != NatToString(v.clock)
    ensures SendFirstPlan(v, message).Settle?
    ensures var w := SendFirstPlan(v, message).next;
      var ci := FindChat(w.chats, NatToString(v.clock));
      && ci >= 0
      && AutoStartPlan(w).Start?
      && AutoStartPlan(w).context == [UserMessage(Trim(message))]
      && var l := Launch(w, AutoStartPlan(w).target, AutoStartPlan(w).context, AutoStartPlan(w).snapshot).view;
         !ShouldAutoStart(l.chats[ci])
  {
    FirstSendInstalls(v, message);
    var w := SendFirstPlan(v, message).next;
    var ci := |v.chats|;
    AutoStartFires(w, ci);
  }

  /** The auto-start effect on an active chat that qualifies: it fires once. */
  lemma AutoStartFires(w: SessionView, ci: nat)
    requires w.activeChatId.Some? && ci < |w.chats| && FindChat(w.chats, w.activeChatId.value) == ci
    requires ShouldAutoStart(w.chats[ci]) && !w.isLoading && w.controller.None?
    ensures AutoStartPlan(w).Start?
    ensures AutoStartPlan(w).context == [UserMessage(w.chats[ci].turns[0].responses[0].promptUsed)]
    ensures var l := Launch(w, AutoStartPlan(w).target, AutoStartPlan(w).context, AutoStartPlan(w).snapshot).view;
      w.model != "" ==> !ShouldAutoStart(l.chats[ci])
  {
    AutoStartOnce(w.chats, ci, TempId(w.clock));
  }

}
