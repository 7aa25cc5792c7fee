/**
 * What the chat window derives from a turn and the `displayedVersions`
 * map: which attempt a turn shows, the version navigation around it, the
 * arguments its regenerate button passes, and whether the retry button
 * is offered under the last turn. Rendering itself is not modelled.
 */
module ChatView {
  import opened ChatTypes
  import opened Store
  import opened Controller

  /** `displayedVersions[turn.turnId] ?? totalVersions - 1` */
  function VersionIndex(turn: Turn, displayed: map<string, int>): int {
    if turn.turnId in displayed then displayed[turn.turnId] else |turn.responses| - 1
  }

  /**
   * `Math.max(0, Math.min(currentVersionIndex, totalVersions - 1))`: the
   * stored index clamped into the turn's attempts.
   */
  function SafeIndex(turn: Turn, displayed: map<string, int>): (i: int)
    ensures i >= 0
    ensures |turn.responses| > 0 ==> i < |turn.responses|
    ensures 0 <= VersionIndex(turn, displayed) < |turn.responses| ==> i == VersionIndex(turn, displayed)
    ensures VersionIndex(turn, displayed) < 0 ==> i == 0
    ensures |turn.responses| > 0 && VersionIndex(turn, displayed) >= |turn.responses| ==> i == |turn.responses| - 1
  {
    var top := |turn.responses| - 1;
    var v := VersionIndex(turn, displayed);
    var lowered := if v < top then v else top;
    if lowered < 0 then 0 else lowered
  }

  /** The attempt the turn renders; a turn without attempts renders nothing. */
  function DisplayedAttempt(turn: Turn, displayed: map<string, int>): (a: Option<ResponseAttempt>)
    ensures a.None? <==> |turn.responses| == 0
    ensures a.Some? ==> a.value in turn.responses
  {
    var i := SafeIndex(turn, displayed);
    if i < |turn.responses| then Some(turn.responses[i]) else None
  }

  /**
   * The version controls of one turn: shown only with more than one
   * attempt; previous and next ask for the neighbouring indices and are
   * disabled at the first and at the last attempt.
   */
  datatype VersionNav = VersionNav(shown: bool, position: int, total: int,
                                   prev: int, next: int, prevDisabled: bool, nextDisabled: bool)

  function Navigation(turn: Turn, displayed: map<string, int>): VersionNav {
    var safe := SafeIndex(turn, displayed);
    var total := |turn.responses|;
    VersionNav(total > 1, safe + 1, total, safe - 1, safe + 1, safe == 0, safe == total - 1)
  }

  /** The arguments of `onRegenerate`: the turn's id and the index it shows. */
  function RegenerateArgs(turn: Turn, displayed: map<string, int>): (string, int) {
    (turn.turnId, SafeIndex(turn, displayed))
  }

  /**
   * `showRetry`: the last turn's attempt at the UNCLAMPED stored index
   * exists and is an assistant error, and the window was given a retry
   * handler.
   */
  predicate ShowRetry(chat: Chat, displayed: map<string, int>, hasRetryHandler: bool) {
    && |chat.turns| > 0
    && var last := chat.turns[|chat.turns| - 1];
       var i := VersionIndex(last, displayed);
       && 0 <= i < |last.responses|
       && last.responses[i].assistantMessage.role == Assistant
       && last.responses[i].assistantMessage.isError
       && hasRetryHandler
  }

  /** Without a stored index a turn shows its newest attempt. */
  lemma DefaultShowsNewest(turn: Turn, displayed: map<string, int>)
    requires turn.turnId !in displayed && |turn.responses| > 0
    ensures DisplayedAttempt(turn, displayed) == Some(turn.responses[|turn.responses| - 1])
  {
  }

  /** After `handleShowVersion(turnId, i)` with `i` in range, the turn shows attempt `i`. */
  lemma ShowVersionDisplays(turn: Turn, displayed: map<string, int>, i: int)
    requires 0 <= i < |turn.responses|
    ensures DisplayedAttempt(turn, displayed[turn.turnId := i]) == Some(turn.responses[i])
  {
    assert VersionIndex(turn, displayed[turn.turnId := i]) == i;
  }

  /**
   * An enabled previous or next control asks for an index in range, and
   * showing it moves the displayed attempt by exactly one; the controls
   * are both disabled only for a single attempt.
   */
  lemma NavigationMovesByOne(turn: Turn, displayed: map<string, int>)
    requires |turn.responses| > 0
    ensures var n := Navigation(turn, displayed);
      var safe := SafeIndex(turn, displayed);
      && (!n.prevDisabled ==>
            && 0 <= n.prev < |turn.responses|
            && DisplayedAttempt(turn, displayed[turn.turnId := n.prev]) == Some(turn.responses[safe - 1]))
      && (!n.nextDisabled ==>
            && 0 <= n.next < |turn.responses|
            && DisplayedAttempt(turn, displayed[turn.turnId := n.next]) == Some(turn.responses[safe + 1]))
      && (n.prevDisabled && n.nextDisabled <==> |turn.responses| == 1)
      && (n.shown <==> !(n.prevDisabled && n.nextDisabled))
  {
    var n := Navigation(turn, displayed);
    if !n.prevDisabled {
      ShowVersionDisplays(turn, displayed, n.prev);
    }
    if !n.nextDisabled {
      ShowVersionDisplays(turn, displayed, n.next);
    }
  }

  /** The regenerate button passes the index of the attempt on screen. */
  lemma RegenerateUsesDisplayed(turn: Turn, displayed: map<string, int>)
    requires |turn.responses| > 0
    ensures var (id, i) := RegenerateArgs(turn, displayed);
      && id == turn.turnId && 0 <= i < |turn.responses|
      && DisplayedAttempt(turn, displayed) == Some(turn.responses[i])
  {
  }

  /**
   * Regenerating from the window starts a stream for the attempt on screen
   * whenever the turn is the one its id resolves to in the active chat:
   * the "Could not regenerate response." path is then unreachable, and the
   * new attempt reuses the displayed attempt's prompt.
   */
  lemma RegenerateFromWindowStarts(v: SessionView, ci: nat, ti: nat)
    requires v.activeChatId.Some? && !v.isLoading
    requires ci == FindChat(v.chats, v.activeChatId.value) && ci >= 0
    requires ti < |v.chats[ci].turns| && |v.chats[ci].turns[ti].responses| > 0
    requires FindTurn(v.chats[ci].turns, v.chats[ci].turns[ti].turnId) == ti
    ensures var turn := v.chats[ci].turns[ti];
      var (id, i) := RegenerateArgs(turn, v.displayedVersions);
      var p := RegeneratePlan(v, id, i);
      && p.Start?
      && p.target.turnId == turn.turnId
      && p.context == BuildContext(v.chats[ci].turns[..ti], DisplayedAttempt(turn, v.displayedVersions).value.promptUsed)
  {
    var turn := v.chats[ci].turns[ti];
    var i := SafeIndex(turn, v.displayedVersions);
    assert RegeneratePlan(v, turn.turnId, i) == ResubmitPlan(v, ci, ti, turn.responses[i].promptUsed, false);
  }

  /**
   * Retry is offered exactly when a stored index (or the default) points
   * inside the last turn at an assistant error that is also what the turn
   * shows; an index out of range hides it even though the clamped display
   * still shows an attempt.
   */
  lemma RetryShownIffDisplayedError(chat: Chat, displayed: map<string, int>)
    ensures ShowRetry(chat, displayed, true) <==>
      && |chat.turns| > 0
      && var last := chat.turns[|chat.turns| - 1];
         && 0 <= VersionIndex(last, displayed) < |last.responses|
         && DisplayedAttempt(last, displayed).Some?
         && DisplayedAttempt(last, displayed).value.assistantMessage.role == Assistant
         && DisplayedAttempt(last, displayed).value.assistantMessage.isError
    ensures !ShowRetry(chat, displayed, false)
  {
  }

  /**
   * With no stored index for the last turn, retry is offered exactly when
   * the last turn is the newest retry candidate (its newest attempt failed)
   * and that attempt is the assistant's; the handler then retries that turn.
   */
  lemma RetryShownForNewestFailure(chat: Chat, displayed: map<string, int>)
    requires |chat.turns| > 0 && chat.turns[|chat.turns| - 1].turnId !in displayed
    ensures var last := chat.turns[|chat.turns| - 1];
      ShowRetry(chat, displayed, true) <==>
        && NewestRetryCandidate(chat.turns) == |chat.turns| - 1
        && last.responses[|last.responses| - 1].assistantMessage.role == Assistant
  {
  }
}
