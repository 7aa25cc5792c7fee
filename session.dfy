/**
 * The controller of App.tsx as the mutable object it is: React state and
 * the stream slot become fields, every handler and every transport
 * callback a method that updates them in place. Each method is proved to
 * perform exactly the transition the Controller module specifies.
 */
module Session {
  import opened ChatTypes
  import opened Text
  import opened Store
  import opened Controller

  /** The backward scan of `handleRetryLastMessage` for the newest turn whose latest attempt failed. */
  method FindRetryTarget(turns: seq<Turn>) returns (index: int)
    ensures index == NewestRetryCandidate(turns)
  {
    index := -1;
    var i := |turns| - 1;
    while i >= 0
      invariant -1 <= i < |turns|
      invariant forall k :: i < k < |turns| ==> !RetryCandidate(turns[k])
      decreases i + 1
    {
      var turn := turns[i];
      if |turn.responses| > 0 {
        var lastAttempt := turn.responses[|turn.responses| - 1];
        if lastAttempt.assistantMessage.isError {
          index := i;
          break;
        }
      }
      i := i - 1;
    }
  }

  /** The `forEach` of `createNewChatState` taking the largest number a default title carries. */
  method HighestDefaultNumber(chats: seq<Chat>) returns (maxNum: nat)
    ensures maxNum == MaxDefaultNumber(chats)
  {
    maxNum := 0;
    for i := 0 to |chats|
      invariant maxNum == MaxDefaultNumber(chats[..i])
    {
      assert chats[..i + 1][..i] == chats[..i];
      var n := DefaultTitleNumber(chats[i].title);
      if n.Some? {
        maxNum := if n.value > maxNum then n.value else maxNum;
      }
    }
    assert chats[..|chats|] == chats;
  }

  /**
   * The App component's state. React state changes only through its
   * setters, so every field here changes only through the method named
   * after the setter that changes it; the handlers below are composed of
   * those calls in the order the source makes them.
   */
  class Session {
    var chats: seq<Chat>
    var activeChatId: Option<string>
    var model: string
    var input: string
    var error: string
    var modelError: string
    var isLoading: bool
    var isFetchingModels: bool
    var controller: Option<nat>
    var aborted: set<nat>
    var currentStream: Option<StreamRef>
    var accumulated: seq<string>
    var snapshots: seq<seq<Chat>>
    var editing: Option<EditingTurn>
    var displayedVersions: map<string, int>
    var clock: nat

    function View(): SessionView
      reads this
    {
      SessionView(chats, activeChatId, model, input, error, modelError, isLoading, isFetchingModels,
                  controller, aborted, currentStream, accumulated, snapshots, editing, displayedVersions, clock)
    }

    predicate Valid()
      reads this
      ensures Valid() <==> ValidView(View())
    {
      && |accumulated| == |snapshots|
      && (isLoading ==> controller.Some?)
      && (controller.Some? ==> controller.value < |accumulated|)
    }

    /** The initial state, over the chats read back from storage. */
    constructor(savedChats: seq<Chat>)
      ensures View() == SessionView(savedChats, None, "", "", "", "", false, false, None, {}, None, [], [], None, map[], 0)
      ensures Valid()
    {
      chats := savedChats;
      activeChatId := None;
      model := "";
      input := "";
      error := "";
      modelError := "";
      isLoading := false;
      isFetchingModels := false;
      controller := None;
      aborted := {};
      currentStream := None;
      accumulated := [];
      snapshots := [];
      editing := None;
      displayedVersions := map[];
      clock := 0;
    }

    // -------------------------------------------------------------------
    // State setters

    method SetChats(x: seq<Chat>)
      modifies this
      ensures View() == old(View()).(chats := x)
    {
      chats := x;
    }

    method SetActiveChatId(x: Option<string>)
      modifies this
      ensures View() == old(View()).(activeChatId := x)
    {
      activeChatId := x;
    }

    method SetInput(x: string)
      modifies this
      ensures View() == old(View()).(input := x)
    {
      input := x;
    }

    method SetError(x: string)
      modifies this
      ensures View() == old(View()).(error := x)
    {
      error := x;
    }

    method SetModelError(x: string)
      modifies this
      ensures View() == old(View()).(modelError := x)
    {
      modelError := x;
    }

    method SetModel(x: string)
      modifies this
      ensures View() == old(View()).(model := x)
    {
      model := x;
    }

    method SetIsFetchingModels(x: bool)
      modifies this
      ensures View() == old(View()).(isFetchingModels := x)
    {
      isFetchingModels := x;
    }

    method SetIsLoading(x: bool)
      modifies this
      ensures View() == old(View()).(isLoading := x)
    {
      isLoading := x;
    }

    method SetAbortController(x: Option<nat>)
      modifies this
      ensures View() == old(View()).(controller := x)
    {
      controller := x;
    }

    method SetEditingTurn(x: Option<EditingTurn>)
      modifies this
      ensures View() == old(View()).(editing := x)
    {
      editing := x;
    }

    method SetDisplayedVersions(x: map<string, int>)
      modifies this
      ensures View() == old(View()).(displayedVersions := x)
    {
      displayedVersions := x;
    }

    /** The ref through which the callbacks of any session find the live target. */
    method SetCurrentStream(x: Option<StreamRef>)
      modifies this
      ensures View() == old(View()).(currentStream := x)
    {
      currentStream := x;
    }

    /** `abortController.abort()` on the controller of session `sid`. */
    method Abort(sid: nat)
      modifies this
      ensures View() == old(View()).(aborted := old(aborted) + {sid})
    {
      aborted := aborted + {sid};
    }

    /** `Date.now()`: a fresh reading of the clock. */
    method Now() returns (t: nat)
      modifies this
      ensures t == old(clock)
      ensures View() == old(View()).(clock := old(clock) + 1)
    {
      t := clock;
      clock := clock + 1;
    }

    /** A new stream session: an empty accumulator and the chats its closures captured. */
    method OpenSession(snapshot: seq<Chat>) returns (sid: nat)
      modifies this
      ensures sid == |old(accumulated)|
      ensures View() == old(View()).(accumulated := old(accumulated) + [""], snapshots := old(snapshots) + [snapshot])
    {
      sid := |accumulated|;
      accumulated := accumulated + [""];
      snapshots := snapshots + [snapshot];
    }

    /** The accumulator of session `sid` after a fragment. */
    method Accumulate(sid: nat, text: string)
      requires sid < |accumulated|
      modifies this
      ensures View() == old(View()).(accumulated := old(accumulated)[sid := text])
    {
      accumulated := accumulated[sid := text];
    }

    // -------------------------------------------------------------------
    // streamResponseInternal and its callbacks

    method StartStream(t: StreamTarget, context: seq<Message>, snapshot: seq<Chat>) returns (req: Option<StreamRequest>)
      requires Valid()
      modifies this
      ensures Launched(View(), req) == Launch(old(View()), t, context, snapshot)
      ensures Valid()
    {
      if model == "" {
        SetError(NoModelText);
        SetIsLoading(false);
        return None;
      }
      if isLoading {
        return None;
      }
      if controller.Some? {
        Abort(controller.value);
      }
      SetError("");
      SetModelError("");
      SetIsLoading(true);
      var sid := OpenSession(snapshot);
      SetAbortController(Some(sid));
      var now := Now();
      var temp := TempId(now);
      SetCurrentStream(Some(StreamRef(t.chatId, t.turnId, t.attemptId, temp)));
      SetChats(WriteAttempt(chats, t, MarkPending(temp)));
      req := Some(StreamRequest(sid, model, context));
    }

    method OnData(sid: nat, chunk: string)
      requires Valid() && sid < |accumulated|
      modifies this
      ensures View() == Data(old(View()), sid, chunk)
      ensures Valid()
    {
      var acc := accumulated[sid] + chunk;
      Accumulate(sid, acc);
      if currentStream.Some? {
        var ref := currentStream.value;
        SetChats(WriteAttempt(chats, ref.Target(), WriteContent(ref.tempBotMessageId, acc)));
      }
    }

    method OnError(sid: nat, isAbort: bool, message: string)
      requires Valid() && sid < |accumulated|
      modifies this
      ensures View() == Failure(old(View()), sid, isAbort, message)
      ensures Valid()
    {
      var errorMessage := ErrorText(isAbort, message);
      SetError(if isAbort then "" else errorMessage);
      if currentStream.Some? {
        var ref := currentStream.value;
        SetChats(WriteAttempt(chats, ref.Target(), FinalizeError(ref.tempBotMessageId, accumulated[sid], errorMessage)));
      }
      SetIsLoading(false);
      SetAbortController(None);
      SetCurrentStream(None);
    }

    method OnComplete(sid: nat, finalContent: string) returns (title: Option<TitleRequest>)
      requires Valid() && sid < |accumulated|
      modifies this
      ensures Completed(View(), title) == Completion(old(View()), sid, finalContent)
      ensures Valid()
    {
      if currentStream.None? {
        return None;
      }
      var ref := currentStream.value;
      title := TitleRequestFor(snapshots[sid], ref, finalContent);
      SetChats(WriteAttempt(chats, ref.Target(), FinalizeComplete(ref.tempBotMessageId, finalContent)));
      SetIsLoading(false);
      SetAbortController(None);
      SetCurrentStream(None);
    }

    method OnSyncFailure(sid: nat, isAbortError: bool, message: string)
      requires Valid()
      modifies this
      ensures View() == SyncFailure(old(View()), sid, isAbortError, message)
      ensures Valid()
    {
      if sid !in aborted && !isAbortError {
        SetError(if message == "" then UnexpectedText else message);
        SetIsLoading(false);
        SetAbortController(None);
        if currentStream.Some? {
          SetChats(WriteAttempt(chats, currentStream.value.Target(), Rollback));
        }
        SetCurrentStream(None);
      }
    }

    // -------------------------------------------------------------------
    // Aborting and navigation

    method Stop()
      requires Valid()
      modifies this
      ensures View() == Controller.Stop(old(View()))
      ensures Valid()
    {
      if controller.Some? {
        Abort(controller.value);
      }
    }

    /** `abort(); setAbortController(null); setIsLoading(false)` when a controller is set. */
    method DropController()
      requires Valid()
      modifies this
      ensures View() == AbortOnly(old(View()))
      ensures Valid()
    {
      if controller.Some? {
        Abort(controller.value);
        SetAbortController(None);
        SetIsLoading(false);
      }
    }

    method SafeAbort()
      requires Valid()
      modifies this
      ensures View() == AbortAndSalvage(old(View()))
      ensures Valid()
    {
      if controller.Some? {
        Abort(controller.value);
        SetAbortController(None);
        SetIsLoading(false);
        if currentStream.Some? {
          SetChats(WriteAttempt(chats, currentStream.value.Target(), Salvage));
          SetCurrentStream(None);
        }
      }
    }

    method SwitchTo(url: Option<string>)
      requires Valid()
      modifies this
      ensures View() == SwitchView(old(View()), url)
      ensures Valid()
    {
      if url.Some? && FindChat(chats, url.value) >= 0 {
        if activeChatId != url {
          SafeAbort();
          SetEditingTurn(None);
          SetActiveChatId(url);
        }
      } else if activeChatId.Some? {
        SafeAbort();
        SetActiveChatId(None);
        SetEditingTurn(None);
      }
    }

    // -------------------------------------------------------------------
    // Chat management

    method CreateNewChat() returns (chat: Chat)
      requires Valid()
      modifies this
      ensures NewChat(View(), chat) == CreateChatState(old(View()))
      ensures Valid()
    {
      DropController();
      chat := AddDefaultChat();
    }

    /** The body of `createNewChat` after the abort. */
    method AddDefaultChat() returns (chat: Chat)
      requires Valid()
      modifies this
      ensures NewChat(View(), chat) == OpenDefaultChat(old(View()))
      ensures Valid()
    {
      ghost var v := View();
      ghost var r := OpenDefaultChat(v);
      var maxNum := HighestDefaultNumber(chats);
      chat := Chat(NatToString(clock), DefaultTitle(maxNum + 1), []);
      assert chat == r.chat;
      SetError("");
      SetModelError("");
      var _ := Now();
      SetChats(chats + [chat]);
      assert View() == v.(error := "", modelError := "", clock := v.clock + 1, chats := v.chats + [chat]);
    }

    method UpdateChatTitle(id: string, title: string)
      requires Valid()
      modifies this
      ensures View() == old(View()).(chats := RenameChat(old(chats), id, title))
      ensures Valid()
    {
      SetChats(RenameChat(chats, id, title));
    }

    method DeleteChat(id: string)
      requires Valid()
      modifies this
      ensures View() == DeleteView(old(View()), id)
      ensures Valid()
    {
      if activeChatId == Some(id) {
        DropController();
      }
      SetChats(Store.DeleteChat(chats, id));
    }

    // -------------------------------------------------------------------
    // Editing and version selection

    method EditStart(turnIndex: int, currentContent: string)
      requires Valid()
      modifies this
      ensures old(isLoading) || old(activeChatId).None? ==> View() == old(View())
      ensures !old(isLoading) && old(activeChatId).Some? ==>
        View() == old(View()).(editing := Some(EditingTurn(old(activeChatId).value, turnIndex)), input := currentContent)
      ensures Valid()
    {
      if isLoading || activeChatId.None? {
        return;
      }
      SetEditingTurn(Some(EditingTurn(activeChatId.value, turnIndex)));
      SetInput(currentContent);
    }

    method CancelEdit()
      requires Valid()
      modifies this
      ensures View() == old(View()).(editing := None, input := "")
      ensures Valid()
    {
      SetEditingTurn(None);
      SetInput("");
    }

    /** `handleModelChange` (App.tsx:733-735): the user picks a model. */
    method ChangeModel(x: string)
      requires Valid()
      modifies this
      ensures View() == old(View()).(model := x)
      ensures Valid()
    {
      SetModel(x);
    }

    /** The start of `loadModels` (App.tsx:96-97). */
    method BeginModelFetch()
      requires Valid()
      modifies this
      ensures View() == old(View()).(isFetchingModels := true, modelError := "")
      ensures Valid()
    {
      SetIsFetchingModels(true);
      SetModelError("");
    }

    /**
     * `loadModels` after the fetch returned `models` (App.tsx:103-110,
     * 119): select the saved model when offered, else the first one.
     */
    method ModelsLoaded(models: seq<string>, saved: string)
      requires Valid()
      modifies this
      ensures View() == old(View()).(model := ChosenModel(models, saved), isFetchingModels := false)
      ensures model in models || (models == [] && model == "")
      ensures Valid()
    {
      var modelToSet := "";
      if saved != "" && saved in models {
        modelToSet := saved;
      } else {
        modelToSet := if models != [] then models[0] else "";
      }
      SetModel(modelToSet);
      SetIsFetchingModels(false);
    }

    /** `loadModels` after the fetch failed with `message` (App.tsx:111-119). */
    method ModelsFailed(message: string)
      requires Valid()
      modifies this
      ensures View() == old(View()).(modelError := if message == "" then ConnectFailedText else message,
                                     model := "", isFetchingModels := false)
      ensures Valid()
    {
      SetModelError(if message == "" then ConnectFailedText else message);
      SetModel("");
      SetIsFetchingModels(false);
    }

    method ShowVersion(turnId: string, index: int)
      requires Valid()
      modifies this
      ensures View() == old(View()).(displayedVersions := old(displayedVersions)[turnId := index])
      ensures Valid()
    {
      SetDisplayedVersions(displayedVersions[turnId := index]);
    }

    // -------------------------------------------------------------------
    // Handlers that start a stream

    method SendMessage() returns (req: Option<StreamRequest>)
      requires Valid()
      modifies this
      ensures Launched(View(), req) == Outcome(old(View()), SendPlan(old(View())))
      ensures Valid()
    {
      var content := Trim(input);
      if content == [] || activeChatId.None? || isLoading {
        return None;
      }
      if editing.Some? && editing.value.chatId == activeChatId.value {
        req := SendEdit(content);
      } else {
        req := SendNewTurn(content);
      }
    }

    method SendEdit(content: string) returns (req: Option<StreamRequest>)
      requires Valid() && activeChatId.Some? && editing.Some?
      modifies this
      ensures Launched(View(), req) == Outcome(old(View()), EditPlan(old(View()), content))
      ensures Valid()
    {
      var e := editing.value;
      var ci := FindChat(chats, activeChatId.value);
      var targetTurnId := if ci >= 0 && 0 <= e.turnIndex < |chats[ci].turns| then chats[ci].turns[e.turnIndex].turnId else "";
      if targetTurnId == "" {
        FailEdit();
        return None;
      }
      req := StartEdit(ci, e.turnIndex, content);
    }

    method FailEdit()
      requires Valid()
      modifies this
      ensures View() == EditFailed(old(View()))
      ensures Valid()
    {
      var _ := Now();
      SetError(EditFailedText);
      SetEditingTurn(None);
      SetInput("");
    }

    method StartEdit(ci: nat, ti: nat, content: string) returns (req: Option<StreamRequest>)
      requires Valid() && activeChatId.Some? && ci == FindChat(chats, activeChatId.value) && ti < |chats[ci].turns|
      modifies this
      ensures Launched(View(), req) == Outcome(old(View()), EditStartPlan(old(View()), ci, ti, content))
      ensures Valid()
    {
      var active := activeChatId.value;
      var snapshot := chats;
      var now := Now();
      var attemptId := NatToString(now);
      var targetTurnId := chats[ci].turns[ti].turnId;
      var outcome := EditAppend(chats, active, ti, PendingAttempt(attemptId, content));
      var context := BuildContext(chats[ci].turns[..ti], content);
      SetDisplayedVersions(displayedVersions[targetTurnId := outcome.newIndex]);
      SetChats(outcome.chats);
      SetEditingTurn(None);
      SetInput("");
      req := StartStream(StreamTarget(active, targetTurnId, attemptId), context, snapshot);
    }

    method SendNewTurn(content: string) returns (req: Option<StreamRequest>)
      requires Valid() && activeChatId.Some?
      modifies this
      ensures Launched(View(), req) == Outcome(old(View()), NewTurnPlan(old(View()), content))
      ensures Valid()
    {
      var active := activeChatId.value;
      var snapshot := chats;
      var now := Now();
      var attemptId := NatToString(now);
      var later := Now();
      var turnId := TurnId(later);
      var ci := FindChat(chats, active);
      var prior := if ci >= 0 then chats[ci].turns else [];
      var context := BuildContext(prior, content);
      SetChats(AppendTurn(chats, active, Turn(turnId, [PendingAttempt(attemptId, content)])));
      SetInput("");
      req := StartStream(StreamTarget(active, turnId, attemptId), context, snapshot);
    }

    method Resubmit(ci: nat, ti: nat, prompt: string, cutAtFirstError: bool) returns (req: Option<StreamRequest>)
      requires Valid() && activeChatId.Some? && ci < |chats| && ti < |chats[ci].turns|
      modifies this
      ensures Launched(View(), req) == Outcome(old(View()), ResubmitPlan(old(View()), ci, ti, prompt, cutAtFirstError))
      ensures Valid()
    {
      var active := activeChatId.value;
      var turnId := chats[ci].turns[ti].turnId;
      var context := BuildContext(chats[ci].turns[..ti], prompt);
      var snapshot := chats;
      var now := Now();
      var attemptId := NatToString(now);
      var newChats := AppendAttempt(chats, active, turnId, PendingAttempt(attemptId, prompt), cutAtFirstError);
      SetChats(newChats);
      SetDisplayedVersions(VersionsAfterAppend(displayedVersions, newChats, active, turnId));
      req := StartStream(StreamTarget(active, turnId, attemptId), context, snapshot);
    }

    method Retry() returns (req: Option<StreamRequest>)
      requires Valid()
      modifies this
      ensures Launched(View(), req) == Outcome(old(View()), RetryPlan(old(View())))
      ensures Valid()
    {
      if activeChatId.None? || isLoading {
        return None;
      }
      var ci := FindChat(chats, activeChatId.value);
      var i := -1;
      if ci >= 0 {
        i := FindRetryTarget(chats[ci].turns);
      }
      if i >= 0 && chats[ci].turns[i].turnId != "" {
        var rs := chats[ci].turns[i].responses;
        assert ChooseRetry(View()) == RetryAt(ci, i, rs[|rs| - 1].promptUsed);
        req := Resubmit(ci, i, rs[|rs| - 1].promptUsed, true);
      } else {
        assert ChooseRetry(View()) == NothingToRetry;
        SetError(RetryFailedText);
        req := None;
      }
    }

    method Regenerate(turnId: string, attemptIndex: int) returns (req: Option<StreamRequest>)
      requires Valid()
      modifies this
      ensures Launched(View(), req) == Outcome(old(View()), RegeneratePlan(old(View()), turnId, attemptIndex))
      ensures Valid()
    {
      if activeChatId.None? || isLoading {
        return None;
      }
      var ci := FindChat(chats, activeChatId.value);
      var ti := if ci >= 0 then FindTurn(chats[ci].turns, turnId) else -1;
      if ti >= 0 && 0 <= attemptIndex < |chats[ci].turns[ti].responses| {
        req := Resubmit(ci, ti, chats[ci].turns[ti].responses[attemptIndex].promptUsed, false);
      } else {
        SetError(RegenerateFailedText);
        req := None;
      }
    }

    method AutoStart() returns (req: Option<StreamRequest>)
      requires Valid()
      modifies this
      ensures Launched(View(), req) == Outcome(old(View()), AutoStartPlan(old(View())))
      ensures Valid()
    {
      var ci := -1;
      if activeChatId.Some? {
        ci := FindChat(chats, activeChatId.value);
      }
      if ci >= 0 && ShouldAutoStart(chats[ci]) && !isLoading && controller.None? {
        var c := chats[ci];
        var first := c.turns[0].responses[0];
        req := StartStream(StreamTarget(c.id, c.turns[0].turnId, first.attemptId), [UserMessage(first.promptUsed)], chats);
      } else {
        req := None;
      }
    }

    method OpenFirstChat(prompt: string) returns (chat: Chat)
      requires Valid()
      modifies this
      ensures NewChat(View(), chat) == FirstChatView(old(View()), prompt)
      ensures Valid()
    {
      var newChat := CreateNewChat();
      var now := Now();
      var later := Now();
      var turn := Turn(TurnId(later), [PendingAttempt(NatToString(now), prompt)]);
      var title := if DefaultTitleNumber(newChat.title).Some? then FirstMessageTitle(prompt) else newChat.title;
      SetChats(InstallFirstTurn(chats, newChat.id, title, turn));
      SetInput("");
      chat := newChat;
    }

    method SendFirstMessage(message: string)
      requires Valid()
      modifies this
      ensures View() == Outcome(old(View()), SendFirstPlan(old(View()), message)).view
      ensures Valid()
    {
      var prompt := Trim(message);
      if prompt == [] || isLoading || isFetchingModels {
        return;
      }
      if model == "" {
        SetError(SelectModelText);
        return;
      }
      var newChat := OpenFirstChat(prompt);
      SwitchTo(Some(newChat.id));
    }
  }
}
