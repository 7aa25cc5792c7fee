/**
 * The conversation store of App.tsx: every update of `chats` is a
 * copy-on-write rewrite of `Chat[] -> Turn[] -> ResponseAttempt[]`, located
 * by id with `findIndex`, where a miss leaves the collection as it was.
 * Also the context assembler (the `flatMap` repeated in four handlers) and
 * the default-title pattern `^Chat (\d+)$`.
 */
module Store {
  import opened ChatTypes
  import opened Text

  // ---------------------------------------------------------------------
  // Lookups (`Array.prototype.findIndex`: the first match, or -1)

  /** `findIndex(x => key(x) === id)`: the first element whose key is `id`, or -1. */
  function FindIndex<T>(s: seq<T>, key: T -> string, id: string): (i: int)
    ensures -1 <= i < |s|
    ensures i >= 0 ==> key(s[i]) == id && forall k :: 0 <= k < i ==> key(s[k]) != id
    ensures i == -1 ==> forall k :: 0 <= k < |s| ==> key(s[k]) != id
  {
    if s == [] then -1
    else if key(s[0]) == id then 0
    else
      var k := FindIndex(s[1..], key, id);
      if k < 0 then -1 else k + 1
  }

  function FindChat(chats: seq<Chat>, id: string): int {
    FindIndex(chats, (c: Chat) => c.id, id)
  }

  function FindTurn(turns: seq<Turn>, turnId: string): int {
    FindIndex(turns, (t: Turn) => t.turnId, turnId)
  }

  function FindAttempt(rs: seq<ResponseAttempt>, attemptId: string): int {
    FindIndex(rs, (r: ResponseAttempt) => r.attemptId, attemptId)
  }

  /** `responses.findIndex(r => r.assistantMessage.isError)` */
  function FirstError(rs: seq<ResponseAttempt>): (i: int)
    ensures -1 <= i < |rs|
    ensures i >= 0 ==> rs[i].assistantMessage.isError && forall k :: 0 <= k < i ==> !rs[k].assistantMessage.isError
    ensures i == -1 ==> forall k :: 0 <= k < |rs| ==> !rs[k].assistantMessage.isError
  {
    if rs == [] then -1
    else if rs[0].assistantMessage.isError then 0
    else
      var k := FirstError(rs[1..]);
      if k < 0 then -1 else k + 1
  }

  // ---------------------------------------------------------------------
  // Stream writes into one attempt

  /** The attempt a stream writes into. */
  datatype StreamTarget = StreamTarget(chatId: string, turnId: string, attemptId: string)

  /** `currentStreamRef.current`: the target plus the temporary message id that marks it live. */
  datatype StreamRef = StreamRef(chatId: string, turnId: string, attemptId: string, tempBotMessageId: string) {
    function Target(): StreamTarget {
      StreamTarget(chatId, turnId, attemptId)
    }
  }

  const NoResponseText: string := "Model did not respond."

  /** The six ways the controller rewrites the attempt a stream targets. */
  datatype AttemptWrite =
    | MarkPending(tempId: string)                                    // App.tsx:301-319
    | WriteContent(tempId: string, content: string)                  // App.tsx:325-346
    | FinalizeError(tempId: string, partial: string, errorMessage: string) // App.tsx:360-383
    | FinalizeComplete(tempId: string, finalContent: string)          // App.tsx:407-443
    | Salvage                                                        // App.tsx:156-168
    | Rollback                                                       // App.tsx:466-480

  /** The message a finished stream leaves behind (`handleComplete`). */
  function CompletedMessage(m: Message, tempId: string, finalContent: string): Message {
    if IsBlank(finalContent) then m.(content := NoResponseText, isError := true, id := Some(tempId))
    else m.(content := finalContent, isError := false, id := None)
  }

  /** The message a failed stream leaves behind (`handleError`): partial text wins over the error text. */
  function FailedMessage(m: Message, tempId: string, partial: string, errorMessage: string): Message {
    m.(content := if IsBlank(partial) then errorMessage else Trim(partial), isError := true, id := Some(tempId))
  }

  /** A guarded write applies only while the attempt still carries the live temporary id. */
  predicate Guarded(w: AttemptWrite) {
    w.WriteContent? || w.FinalizeError? || w.FinalizeComplete?
  }

  function GuardId(w: AttemptWrite): string
    requires Guarded(w)
  {
    w.tempId
  }

  /** Writes that rewrite the attempt's message where it stands (all but salvage and rollback). */
  predicate InPlace(w: AttemptWrite) {
    !w.Salvage? && !w.Rollback?
  }

  /** The message an in-place write leaves in place of `m`. */
  function Rewritten(m: Message, w: AttemptWrite): Message
    requires InPlace(w)
  {
    match w
    case MarkPending(temp) => Message(Assistant, "", Some(temp), false)
    case WriteContent(_, content) => m.(content := content)
    case FinalizeError(temp, partial, err) => FailedMessage(m, temp, partial, err)
    case FinalizeComplete(temp, final) => CompletedMessage(m, temp, final)
  }

  /** The write applied to attempt `i` of a turn's responses. */
  function ApplyWrite(rs: seq<ResponseAttempt>, i: nat, w: AttemptWrite): seq<ResponseAttempt>
    requires i < |rs|
  {
    var at := rs[i];
    var m := at.assistantMessage;
    if Guarded(w) && m.id != Some(GuardId(w)) then rs
    else match w
      case Salvage => if !IsBlank(m.content) then rs[i := at.(assistantMessage := m.(id := None))] else rs[..i]
      case Rollback => rs[..i]
      case _ => rs[i := at.(assistantMessage := Rewritten(m, w))]
  }

  /** The turn and attempt index a target resolves to in one chat, if both are found. */
  predicate Located(chat: Chat, t: StreamTarget, j: int, a: int) {
    && chat.id == t.chatId
    && j == FindTurn(chat.turns, t.turnId) && j >= 0
    && a == FindAttempt(chat.turns[j].responses, t.attemptId) && a >= 0
  }

  function WriteInChat(chat: Chat, t: StreamTarget, w: AttemptWrite): Chat {
    var j := FindTurn(chat.turns, t.turnId);
    if j < 0 then chat
    else
      var a := FindAttempt(chat.turns[j].responses, t.attemptId);
      if a < 0 then chat
      else chat.(turns := chat.turns[j := chat.turns[j].(responses := ApplyWrite(chat.turns[j].responses, a, w))])
  }

  /** `prev.map(chat => chat.id === target.chatId ? <rewrite> : chat)` */
  function WriteAttempt(chats: seq<Chat>, t: StreamTarget, w: AttemptWrite): seq<Chat> {
    seq(|chats|, k requires 0 <= k < |chats| => if chats[k].id == t.chatId then WriteInChat(chats[k], t, w) else chats[k])
  }

  /**
   * A stream write never adds, removes, reorders or renames chats or turns:
   * at worst it removes attempts from the one turn it targets.
   */
  lemma WriteKeepsTree(chats: seq<Chat>, t: StreamTarget, w: AttemptWrite)
    ensures var r := WriteAttempt(chats, t, w);
      && |r| == |chats|
      && forall k :: 0 <= k < |chats| ==>
           && r[k].id == chats[k].id && r[k].title == chats[k].title
           && |r[k].turns| == |chats[k].turns|
           && forall j :: 0 <= j < |chats[k].turns| ==> r[k].turns[j].turnId == chats[k].turns[j].turnId
  {
  }

  /**
   * Only the located turn of a matching chat changes, and it changes by
   * `ApplyWrite` at the located attempt; every other turn is untouched.
   */
  lemma WriteFrame(chats: seq<Chat>, t: StreamTarget, w: AttemptWrite, k: nat, j: nat)
    requires k < |chats| && j < |chats[k].turns|
    ensures var r := WriteAttempt(chats, t, w);
      && j < |r[k].turns|
      && var a := FindAttempt(chats[k].turns[j].responses, t.attemptId);
      r[k].turns[j].responses ==
        if Located(chats[k], t, j, a) then ApplyWrite(chats[k].turns[j].responses, a, w)
        else chats[k].turns[j].responses
  {
  }

  /**
   * Within the turn: attempts before the target never change; every write
   * but `Salvage` of a blank attempt and `Rollback` keeps all attempts after
   * it too and changes the target attempt's message only.
   */
  lemma ApplyWriteFrame(rs: seq<ResponseAttempt>, i: nat, w: AttemptWrite)
    requires i < |rs|
    ensures var r := ApplyWrite(rs, i, w);
      && i <= |r| && r[..i] == rs[..i]
      && (w.Rollback? || (w.Salvage? && IsBlank(rs[i].assistantMessage.content)) <==> |r| == i)
      && (|r| != i ==> |r| == |rs| && r[i + 1..] == rs[i + 1..]
                       && r[i].attemptId == rs[i].attemptId && r[i].promptUsed == rs[i].promptUsed)
  {
  }

  /** The staleness guard: a guarded write whose attempt no longer carries the live id changes nothing. */
  lemma StaleWriteIsNoOp(chats: seq<Chat>, t: StreamTarget, w: AttemptWrite)
    requires Guarded(w)
    requires forall k, j, a :: 0 <= k < |chats| && Located(chats[k], t, j, a) ==>
               chats[k].turns[j].responses[a].assistantMessage.id != Some(GuardId(w))
    ensures WriteAttempt(chats, t, w) == chats
  {
    var r := WriteAttempt(chats, t, w);
    forall k | 0 <= k < |chats| ensures r[k] == chats[k] {
      var c := chats[k];
      if c.id == t.chatId {
        var j := FindTurn(c.turns, t.turnId);
        if j >= 0 {
          var a := FindAttempt(c.turns[j].responses, t.attemptId);
          if a >= 0 {
            assert Located(c, t, j, a);
            assert ApplyWrite(c.turns[j].responses, a, w) == c.turns[j].responses;
            assert c.turns[j := c.turns[j]] == c.turns;
          }
        }
      }
    }
  }

  /** A streamed fragment replaces the whole content and keeps the attempt live for the next one. */
  lemma FragmentKeepsAttemptLive(rs: seq<ResponseAttempt>, i: nat, temp: string, acc: string)
    requires i < |rs| && rs[i].assistantMessage.id == Some(temp)
    ensures var r := ApplyWrite(rs, i, WriteContent(temp, acc));
      |r| == |rs| && r[i].assistantMessage == rs[i].assistantMessage.(content := acc)
      && r[i].assistantMessage.id == Some(temp)
  {
  }

  /**
   * Completion settles the attempt exactly when the final text is not blank;
   * a blank completion becomes an error that keeps its id.
   */
  lemma CompletionOutcome(m: Message, temp: string, final: string)
    ensures var r := CompletedMessage(m, temp, final);
      && (r.isError <==> IsBlank(final))
      && (r.id.None? <==> !IsBlank(final))
      && (!IsBlank(final) ==> r.content == final)
      && (IsBlank(final) ==> r.content == NoResponseText && r.id == Some(temp))
      && r.role == m.role
  {
  }

  /** A failure never discards visible partial text, and never leaves the content empty. */
  lemma FailureKeepsPartial(m: Message, temp: string, partial: string, err: string)
    requires err != []
    ensures var r := FailedMessage(m, temp, partial, err);
      && r.isError && r.id == Some(temp) && r.content != []
      && (!IsBlank(partial) ==> r.content == Trim(partial))
  {
  }

  /**
   * Switching away: an attempt with text is kept with its id cleared; a blank
   * one is dropped together with every later attempt, and the turn stays.
   */
  lemma SalvageOutcome(rs: seq<ResponseAttempt>, i: nat)
    requires i < |rs|
    ensures var r := ApplyWrite(rs, i, Salvage);
      if IsBlank(rs[i].assistantMessage.content) then r == rs[..i]
      else (|r| == |rs| && r[i].assistantMessage == rs[i].assistantMessage.(id := None)
            && forall k :: 0 <= k < |rs| && k != i ==> r[k] == rs[k])
  {
  }

  /** Two stores with the same chats, turns and attempts (by id and position), whatever the contents. */
  predicate SameShape(x: seq<Chat>, y: seq<Chat>) {
    && |x| == |y|
    && forall k :: 0 <= k < |x| ==>
         && x[k].id == y[k].id
         && SameTurnShape(x[k].turns, y[k].turns)
  }

  predicate SameTurnShape(x: seq<Turn>, y: seq<Turn>) {
    && |x| == |y|
    && forall j :: 0 <= j < |x| ==>
         && x[j].turnId == y[j].turnId
         && |x[j].responses| == |y[j].responses|
         && forall a :: 0 <= a < |x[j].responses| ==> x[j].responses[a].attemptId == y[j].responses[a].attemptId
  }

  lemma SameShapeTransitive(x: seq<Chat>, y: seq<Chat>, z: seq<Chat>)
    requires SameShape(x, y) && SameShape(y, z)
    ensures SameShape(x, z)
  {
  }

  /** An in-place write keeps the shape of the store. */
  lemma InPlaceWriteKeepsShape(chats: seq<Chat>, t: StreamTarget, w: AttemptWrite)
    requires InPlace(w)
    ensures SameShape(chats, WriteAttempt(chats, t, w))
  {
    var r := WriteAttempt(chats, t, w);
    WriteKeepsTree(chats, t, w);
    forall k | 0 <= k < |chats|
      ensures SameTurnShape(chats[k].turns, r[k].turns)
    {
      forall j | 0 <= j < |chats[k].turns|
        ensures |chats[k].turns[j].responses| == |r[k].turns[j].responses|
        ensures forall a :: 0 <= a < |chats[k].turns[j].responses| ==>
                  chats[k].turns[j].responses[a].attemptId == r[k].turns[j].responses[a].attemptId
      {
        InPlaceTurnKeepsIds(chats, t, w, k, j);
      }
    }
  }

  /** One turn under an in-place write keeps its attempts' number and ids. */
  lemma InPlaceTurnKeepsIds(chats: seq<Chat>, t: StreamTarget, w: AttemptWrite, k: nat, j: nat)
    requires InPlace(w) && k < |chats| && j < |chats[k].turns|
    ensures var rs := chats[k].turns[j].responses;
      var r := WriteAttempt(chats, t, w)[k].turns[j].responses;
      && |r| == |rs|
      && forall a :: 0 <= a < |rs| ==> rs[a].attemptId == r[a].attemptId
  {
    WriteFrame(chats, t, w, k, j);
    var rs := chats[k].turns[j].responses;
    var i := FindAttempt(rs, t.attemptId);
    if Located(chats[k], t, j, i) {
      ApplyWriteFrame(rs, i, w);
      var r := ApplyWrite(rs, i, w);
      forall a | 0 <= a < |rs|
        ensures rs[a].attemptId == r[a].attemptId
      {
        if a < i {
          assert rs[a] == rs[..i][a] == r[..i][a] == r[a];
        } else if a > i {
          assert rs[a] == rs[i + 1..][a - i - 1] == r[i + 1..][a - i - 1] == r[a];
        }
      }
    }
  }

  lemma {:induction false} FindTurnCongruent(x: seq<Turn>, y: seq<Turn>, id: string)
    requires |x| == |y| && forall j :: 0 <= j < |x| ==> x[j].turnId == y[j].turnId
    ensures FindTurn(x, id) == FindTurn(y, id)
  {
    if x != [] {
      FindTurnCongruent(x[1..], y[1..], id);
    }
  }

  lemma {:induction false} FindAttemptCongruent(x: seq<ResponseAttempt>, y: seq<ResponseAttempt>, id: string)
    requires |x| == |y| && forall a :: 0 <= a < |x| ==> x[a].attemptId == y[a].attemptId
    ensures FindAttempt(x, id) == FindAttempt(y, id)
  {
    if x != [] {
      FindAttemptCongruent(x[1..], y[1..], id);
    }
  }

  /** Stores of the same shape locate a stream target at the same place. */
  lemma SameShapeLocated(x: seq<Chat>, y: seq<Chat>, t: StreamTarget, k: nat, j: int, a: int)
    requires SameShape(x, y) && k < |x|
    ensures Located(x[k], t, j, a) <==> Located(y[k], t, j, a)
  {
    FindTurnCongruent(x[k].turns, y[k].turns, t.turnId);
    if 0 <= j < |x[k].turns| {
      FindAttemptCongruent(x[k].turns[j].responses, y[k].turns[j].responses, t.attemptId);
    }
  }

  /** Where the target is located, the write is `ApplyWrite` at that attempt. */
  lemma WriteAtLocated(chats: seq<Chat>, t: StreamTarget, w: AttemptWrite, k: nat, j: nat, a: nat)
    requires k < |chats| && Located(chats[k], t, j, a)
    ensures var r := WriteAttempt(chats, t, w);
      j < |r[k].turns| && r[k].turns[j].responses == ApplyWrite(chats[k].turns[j].responses, a, w)
  {
    WriteFrame(chats, t, w, k, j);
  }

  /**
   * After `MarkPending` and a run of fragments of the same stream, the
   * attempt is the live assistant message holding the latest accumulator.
   */
  lemma PendingThenFragments(rs: seq<ResponseAttempt>, i: nat, temp: string, acc: string)
    requires i < |rs|
    ensures var p := ApplyWrite(rs, i, MarkPending(temp));
      var d := ApplyWrite(p, i, WriteContent(temp, acc));
      |d| == |rs| && d[i].assistantMessage == Message(Assistant, acc, Some(temp), false)
  {
  }

  /** Once completed with text, the attempt ignores every later guarded write of the same stream. */
  lemma SettledAttemptIgnoresStaleWrites(rs: seq<ResponseAttempt>, i: nat, temp: string, final: string, w: AttemptWrite)
    requires i < |rs| && rs[i].assistantMessage.id == Some(temp) && !IsBlank(final)
    requires Guarded(w) && GuardId(w) == temp
    ensures var settled := ApplyWrite(rs, i, FinalizeComplete(temp, final));
      ApplyWrite(settled, i, w) == settled
  {
  }

  // ---------------------------------------------------------------------
  // Context assembly

  /** A turn contributes history when its most recent attempt exists and is not an error. */
  predicate Contributes(t: Turn) {
    |t.responses| > 0 && !t.responses[|t.responses| - 1].assistantMessage.isError
  }

  /** The body of the repeated `flatMap` callback. */
  function TurnHistory(t: Turn): seq<Message> {
    if Contributes(t) then
      var last := t.responses[|t.responses| - 1];
      [UserMessage(last.promptUsed), last.assistantMessage]
    else []
  }

  /** `turns.flatMap(...)` */
  function History(turns: seq<Turn>): seq<Message> {
    if turns == [] then [] else History(turns[..|turns| - 1]) + TurnHistory(turns[|turns| - 1])
  }

  /** The messages submitted for a prefix of turns and a trailing prompt. */
  function BuildContext(prefix: seq<Turn>, trailing: string): seq<Message> {
    History(prefix) + [UserMessage(trailing)]
  }

  /** The number of turns that contribute history. */
  function CountContributing(turns: seq<Turn>): nat {
    if turns == [] then 0
    else CountContributing(turns[..|turns| - 1]) + if Contributes(turns[|turns| - 1]) then 1 else 0
  }

  /** The context holds two messages per contributing turn, plus the trailing prompt. */
  lemma {:induction false} ContextLength(prefix: seq<Turn>, trailing: string)
    ensures |BuildContext(prefix, trailing)| == 2 * CountContributing(prefix) + 1
  {
    HistoryLength(prefix);
  }

  lemma {:induction false} HistoryLength(turns: seq<Turn>)
    ensures |History(turns)| == 2 * CountContributing(turns)
  {
    if turns != [] {
      HistoryLength(turns[..|turns| - 1]);
    }
  }

  /** `flatMap` distributes over concatenation of turn sequences. */
  lemma {:induction false} HistoryAppend(a: seq<Turn>, b: seq<Turn>)
    ensures History(a + b) == History(a) + History(b)
  {
    if b == [] {
      assert a + b == a;
    } else {
      var b' := b[..|b| - 1];
      var last := b[|b| - 1];
      assert (a + b)[..|a + b| - 1] == a + b';
      assert (a + b)[|a + b| - 1] == last;
      calc {
        History(a + b);
        History(a + b') + TurnHistory(last);
        { HistoryAppend(a, b'); }
        History(a) + History(b') + TurnHistory(last);
        History(a) + History(b);
      }
    }
  }

  /** A turn whose last attempt failed (or that has none) is excluded as a whole. */
  lemma SkippedTurn(a: seq<Turn>, t: Turn, b: seq<Turn>)
    requires !Contributes(t)
    ensures History(a + [t] + b) == History(a + b)
  {
    HistoryAppend(a + [t], b);
    assert (a + [t])[..|a + [t]| - 1] == a;
    assert History(a + [t]) == History(a) + TurnHistory(t);
    assert TurnHistory(t) == [];
    HistoryAppend(a, b);
  }

  /**
   * Context shape: user prompts at even positions, the trailing prompt last,
   * and no error message ever submitted.
   */
  lemma {:induction false} ContextShape(prefix: seq<Turn>, trailing: string)
    ensures var c := BuildContext(prefix, trailing);
      && c[|c| - 1] == UserMessage(trailing)
      && (forall i :: 0 <= i < |c| && i % 2 == 0 ==> c[i].role == User && !c[i].isError)
      && (forall i :: 0 <= i < |c| ==> !c[i].isError)
  {
    HistoryShape(prefix);
    HistoryLength(prefix);
  }

  lemma {:induction false} HistoryShape(turns: seq<Turn>)
    ensures var h := History(turns);
      && (forall i :: 0 <= i < |h| && i % 2 == 0 ==> h[i].role == User)
      && (forall i :: 0 <= i < |h| ==> !h[i].isError)
  {
    if turns != [] {
      var init := turns[..|turns| - 1];
      HistoryShape(init);
      HistoryLength(init);
    }
  }

  // ---------------------------------------------------------------------
  // Action transforms

  /** `prev.map(chat => chat.id === chatId ? {...chat, turns: [...chat.turns, newTurn]} : chat)` */
  function AppendTurn(chats: seq<Chat>, chatId: string, turn: Turn): seq<Chat> {
    seq(|chats|, k requires 0 <= k < |chats| =>
      if chats[k].id == chatId then chats[k].(turns := chats[k].turns + [turn]) else chats[k])
  }

  /**
   * The new responses of a turn that receives `attempt`: regenerate appends
   * (App.tsx:719); retry first cuts the responses at the FIRST error attempt
   * (App.tsx:673-678).
   */
  function AppendedResponses(rs: seq<ResponseAttempt>, attempt: ResponseAttempt, cutAtFirstError: bool): seq<ResponseAttempt> {
    var e := FirstError(rs);
    (if cutAtFirstError && e >= 0 then rs[..e] else rs) + [attempt]
  }

  function AppendAttemptInChat(chat: Chat, turnId: string, attempt: ResponseAttempt, cut: bool): Chat {
    var j := FindTurn(chat.turns, turnId);
    if j < 0 then chat
    else chat.(turns := chat.turns[j := chat.turns[j].(responses := AppendedResponses(chat.turns[j].responses, attempt, cut))])
  }

  /** The store update of regenerate (`cut` false) and retry (`cut` true). */
  function AppendAttempt(chats: seq<Chat>, chatId: string, turnId: string, attempt: ResponseAttempt, cut: bool): seq<Chat> {
    seq(|chats|, k requires 0 <= k < |chats| =>
      if chats[k].id == chatId then AppendAttemptInChat(chats[k], turnId, attempt, cut) else chats[k])
  }

  /**
   * The displayed-version update `setDisplayedVersions(d => ({...d, [turnId]: len - 1}))`
   * that the same map callback issues for each matching chat in which the
   * turn is found; the last such call wins.
   */
  function VersionsAfterAppend(d: map<string, int>, updated: seq<Chat>, chatId: string, turnId: string): map<string, int> {
    if updated == [] then d
    else
      var c := updated[|updated| - 1];
      var j := FindTurn(c.turns, turnId);
      if c.id == chatId && j >= 0 then d[turnId := |c.turns[j].responses| - 1]
      else VersionsAfterAppend(d, updated[..|updated| - 1], chatId, turnId)
  }

  /**
   * Regenerate and retry: in every matching chat that has the turn, the turn
   * gains the new attempt as its last one; nothing else in the store changes.
   * Retry first drops every attempt from the first error on.
   */
  lemma AppendAttemptEffect(chats: seq<Chat>, chatId: string, turnId: string, attempt: ResponseAttempt, cut: bool, k: nat, j: nat)
    requires k < |chats| && j < |chats[k].turns|
    ensures var r := AppendAttempt(chats, chatId, turnId, attempt, cut);
      && |r| == |chats| && r[k].id == chats[k].id && r[k].title == chats[k].title
      && |r[k].turns| == |chats[k].turns| && r[k].turns[j].turnId == chats[k].turns[j].turnId
      && var old_rs := chats[k].turns[j].responses;
      r[k].turns[j].responses ==
        if chats[k].id == chatId && j == FindTurn(chats[k].turns, turnId) then
          (if cut && FirstError(old_rs) >= 0 then old_rs[..FirstError(old_rs)] else old_rs) + [attempt]
        else old_rs
  {
  }

  /** After a retry the retried turn holds no error attempt unless the new attempt is one. */
  lemma RetryClearsErrors(rs: seq<ResponseAttempt>, attempt: ResponseAttempt)
    ensures var r := AppendedResponses(rs, attempt, true);
      && r[|r| - 1] == attempt
      && |r| <= |rs| + 1
      && forall i :: 0 <= i < |r| - 1 ==> !r[i].assistantMessage.isError
  {
  }

  /** A turn the retry handler can target: its latest attempt is an error. */
  predicate RetryCandidate(t: Turn) {
    |t.responses| > 0 && t.responses[|t.responses| - 1].assistantMessage.isError
  }

  /** The newest retry candidate among `turns`, or -1. */
  function NewestRetryCandidate(turns: seq<Turn>): (i: int)
    ensures -1 <= i < |turns|
    ensures i >= 0 ==> RetryCandidate(turns[i]) && forall k :: i < k < |turns| ==> !RetryCandidate(turns[k])
    ensures i == -1 ==> forall k :: 0 <= k < |turns| ==> !RetryCandidate(turns[k])
  {
    if turns == [] then -1
    else if RetryCandidate(turns[|turns| - 1]) then |turns| - 1
    else NewestRetryCandidate(turns[..|turns| - 1])
  }

  /** A retry candidate contributes nothing to any context, so retrying it never resubmits the failure. */
  lemma RetryCandidateSkipped(prefix: seq<Turn>, t: Turn, suffix: seq<Turn>)
    requires RetryCandidate(t)
    ensures History(prefix + [t] + suffix) == History(prefix + suffix)
  {
    SkippedTurn(prefix, t, suffix);
  }

  /** No two chats share an id. */
  predicate UniqueChatIds(chats: seq<Chat>) {
    forall k, l :: 0 <= k < l < |chats| ==> chats[k].id != chats[l].id
  }

  /** No two turns of a chat share an id. */
  predicate UniqueTurnIds(turns: seq<Turn>) {
    forall k, l :: 0 <= k < l < |turns| ==> turns[k].turnId != turns[l].turnId
  }

  lemma VersionsAfterAppendUnique(d: map<string, int>, chats: seq<Chat>, chatId: string, turnId: string, ci: nat)
    requires ci < |chats| && chats[ci].id == chatId && UniqueChatIds(chats)
    requires FindTurn(chats[ci].turns, turnId) >= 0
    ensures VersionsAfterAppend(d, chats, chatId, turnId)
            == d[turnId := |chats[ci].turns[FindTurn(chats[ci].turns, turnId)].responses| - 1]
    decreases |chats|
  {
    if ci < |chats| - 1 {
      VersionsAfterAppendUnique(d, chats[..|chats| - 1], chatId, turnId, ci);
    }
  }

  /** `FindTurn` resolves a turn's own id to the first turn carrying it. */
  lemma FirstTurnMatch(turns: seq<Turn>, i: nat)
    requires i < |turns|
    ensures 0 <= FindTurn(turns, turns[i].turnId) <= i
  {
  }

  /** After an append, the chat keeps its id and the turn is found at the same index. */
  lemma AppendShapeAt(chats: seq<Chat>, chatId: string, turnId: string, attempt: ResponseAttempt, cut: bool, ci: nat)
    requires ci < |chats| && chats[ci].id == chatId
    ensures var r := AppendAttempt(chats, chatId, turnId, attempt, cut);
      && |r| == |chats|
      && (forall k :: 0 <= k < |r| ==> r[k].id == chats[k].id)
      && (UniqueChatIds(chats) ==> UniqueChatIds(r))
      && FindTurn(r[ci].turns, turnId) == FindTurn(chats[ci].turns, turnId)
  {
    var r := AppendAttempt(chats, chatId, turnId, attempt, cut);
    forall j | 0 <= j < |chats[ci].turns| ensures r[ci].turns[j].turnId == chats[ci].turns[j].turnId {
      AppendAttemptEffect(chats, chatId, turnId, attempt, cut, ci, j);
    }
    FindTurnCongruent(r[ci].turns, chats[ci].turns, turnId);
  }

  /**
   * Appending to a turn found in chat `ci`: the first turn with the id gets
   * the new responses and, when chat ids are unique, the displayed version
   * of the turn becomes the index of the new last attempt.
   */
  lemma AppendAtFoundTurn(chats: seq<Chat>, chatId: string, turnId: string, attempt: ResponseAttempt, cut: bool, ci: nat, d: map<string, int>)
    requires ci < |chats| && chats[ci].id == chatId && FindTurn(chats[ci].turns, turnId) >= 0
    ensures var j := FindTurn(chats[ci].turns, turnId);
      var r := AppendAttempt(chats, chatId, turnId, attempt, cut);
      && |r| == |chats| && |r[ci].turns| == |chats[ci].turns|
      && r[ci].turns[j].responses == AppendedResponses(chats[ci].turns[j].responses, attempt, cut)
      && (UniqueChatIds(chats) ==>
            VersionsAfterAppend(d, r, chatId, turnId) == d[turnId := |r[ci].turns[j].responses| - 1])
  {
    var j := FindTurn(chats[ci].turns, turnId);
    var r := AppendAttempt(chats, chatId, turnId, attempt, cut);
    AppendAttemptEffect(chats, chatId, turnId, attempt, cut, ci, j);
    if UniqueChatIds(chats) {
      AppendShapeAt(chats, chatId, turnId, attempt, cut, ci);
      VersionsAfterAppendUnique(d, r, chatId, turnId, ci);
    }
  }

  /** With unique turn ids, a turn's own id resolves to that turn. */
  lemma UniqueTurnFound(turns: seq<Turn>, i: nat)
    requires i < |turns| && UniqueTurnIds(turns)
    ensures FindTurn(turns, turns[i].turnId) == i
  {
  }

  /** The edit handler's updater outcome (App.tsx:504-535). */
  datatype EditOutcome = Edited(chats: seq<Chat>, newIndex: int) | EditChatMissing | EditIndexInvalid

  /**
   * Edit appends the new attempt to turn `turnIndex` of the first chat with
   * `chatId`; later turns stay where they are.
   */
  function EditAppend(chats: seq<Chat>, chatId: string, turnIndex: int, attempt: ResponseAttempt): (o: EditOutcome)
    ensures o.Edited? ==> |o.chats| == |chats|
  {
    var ci := FindChat(chats, chatId);
    if ci < 0 then EditChatMissing
    else
      var c := chats[ci];
      if 0 <= turnIndex < |c.turns| then
        var t := c.turns[turnIndex];
        Edited(chats[ci := c.(turns := c.turns[turnIndex := t.(responses := t.responses + [attempt])])], |t.responses|)
      else EditIndexInvalid
  }

  /**
   * Edit grows exactly one turn by exactly the new attempt and points the new
   * index at it; every other turn of every chat is unchanged, the later turns
   * included. An index out of range changes nothing.
   */
  lemma EditEffect(chats: seq<Chat>, chatId: string, turnIndex: int, attempt: ResponseAttempt)
    ensures var o := EditAppend(chats, chatId, turnIndex, attempt);
      var ci := FindChat(chats, chatId);
      && (o.EditChatMissing? <==> ci < 0)
      && (o.EditIndexInvalid? <==> ci >= 0 && !(0 <= turnIndex < |chats[ci].turns|))
      && (o.Edited? ==>
            && |o.chats[ci].turns| == |chats[ci].turns|
            && o.chats[ci].turns[turnIndex].responses == chats[ci].turns[turnIndex].responses + [attempt]
            && o.chats[ci].turns[turnIndex].responses[o.newIndex] == attempt
            && o.chats[ci].turns[turnIndex].turnId == chats[ci].turns[turnIndex].turnId
            && (forall k :: 0 <= k < |chats| && k != ci ==> o.chats[k] == chats[k])
            && (forall j :: 0 <= j < |chats[ci].turns| && j != turnIndex ==> o.chats[ci].turns[j] == chats[ci].turns[j])
            && o.chats[ci].id == chats[ci].id && o.chats[ci].title == chats[ci].title)
  {
  }

  /** `updateChatTitle`: `title.trim() || \`Chat ${id}\`` on every chat with the id. */
  function RenameChat(chats: seq<Chat>, id: string, title: string): seq<Chat> {
    seq(|chats|, k requires 0 <= k < |chats| =>
      if chats[k].id == id then chats[k].(title := if IsBlank(title) then "Chat " + id else Trim(title)) else chats[k])
  }

  /** A rename never leaves a blank title on the renamed chats and touches nothing else. */
  lemma RenameEffect(chats: seq<Chat>, id: string, title: string)
    ensures var r := RenameChat(chats, id, title);
      && |r| == |chats|
      && forall k :: 0 <= k < |chats| ==>
           && r[k].id == chats[k].id && r[k].turns == chats[k].turns
           && (chats[k].id != id ==> r[k].title == chats[k].title)
           && (chats[k].id == id ==> !IsBlank(r[k].title))
           && (chats[k].id == id && !IsBlank(title) ==> r[k].title == Trim(title))
           && (chats[k].id == id && IsBlank(title) ==> r[k].title == "Chat " + id)
  {
    forall k | 0 <= k < |chats| && chats[k].id == id
      ensures !IsBlank(RenameChat(chats, id, title)[k].title)
    {
      var t := RenameChat(chats, id, title)[k].title;
      if IsBlank(title) {
        assert t[0] == 'C' && !IsSpace(t[0]);
      }
    }
  }

  /** `chats.filter(chat => chat.id !== id)` */
  function DeleteChat(chats: seq<Chat>, id: string): seq<Chat> {
    if chats == [] then []
    else (if chats[0].id == id then [] else [chats[0]]) + DeleteChat(chats[1..], id)
  }

  /** Delete removes exactly the chats with the id, keeping the others and their order. */
  lemma {:induction false} DeleteEffect(chats: seq<Chat>, id: string)
    ensures var r := DeleteChat(chats, id);
      && (forall c :: c in r <==> c in chats && c.id != id)
      && |r| <= |chats|
      && ((forall k :: 0 <= k < |chats| ==> chats[k].id != id) ==> r == chats)
  {
    if chats != [] {
      DeleteEffect(chats[1..], id);
      assert chats == [chats[0]] + chats[1..];
    }
  }

  /**
   * Delete works chat by chat: filtering a concatenation filters each part,
   * so the kept chats stay in their order and keep their multiplicity.
   */
  lemma {:induction false} DeleteAppend(a: seq<Chat>, b: seq<Chat>, id: string)
    ensures DeleteChat(a + b, id) == DeleteChat(a, id) + DeleteChat(b, id)
  {
    if a == [] {
      assert a + b == b;
    } else {
      DeleteAppend(a[1..], b, id);
      var head := if a[0].id == id then [] else [a[0]];
      assert (a + b)[0] == a[0] && (a + b)[1..] == a[1..] + b;
      assert DeleteChat(a + b, id) == head + (DeleteChat(a[1..], id) + DeleteChat(b, id));
    }
  }

  // ---------------------------------------------------------------------
  // Default titles: /^Chat (\d+)$/ and `Chat ${n}`

  /** The number of a title matching `^Chat (\d+)$`, as `parseInt` reads it. */
  function DefaultTitleNumber(title: string): Option<nat> {
    if |title| > 5 && title[..5] == "Chat " && AllDigits(title[5..]) then Some(DigitsValue(title[5..]))
    else None
  }

  function DefaultTitle(n: nat): string {
    "Chat " + NatToString(n)
  }

  /** A generated default title matches the pattern and reads back as its number. */
  lemma DefaultTitleRoundTrip(n: nat)
    ensures DefaultTitleNumber(DefaultTitle(n)) == Some(n)
  {
    var t := DefaultTitle(n);
    assert t[..5] == "Chat ";
    assert t[5..] == NatToString(n);
    DigitsValueOfNatToString(n);
  }

  /** The largest number a default title carries, 0 if none does. */
  function MaxDefaultNumber(chats: seq<Chat>): nat {
    if chats == [] then 0
    else
      var m := MaxDefaultNumber(chats[..|chats| - 1]);
      var n := DefaultTitleNumber(chats[|chats| - 1].title);
      if n.Some? && n.value > m then n.value else m
  }

  /** `MaxDefaultNumber` bounds every default title's number and is one of them (or 0). */
  lemma {:induction false} MaxDefaultNumberIsMax(chats: seq<Chat>)
    ensures forall k :: 0 <= k < |chats| && DefaultTitleNumber(chats[k].title).Some? ==>
              DefaultTitleNumber(chats[k].title).value <= MaxDefaultNumber(chats)
    ensures MaxDefaultNumber(chats) == 0 ||
            exists k :: 0 <= k < |chats| && DefaultTitleNumber(chats[k].title) == Some(MaxDefaultNumber(chats))
  {
    if chats != [] {
      var init := chats[..|chats| - 1];
      MaxDefaultNumberIsMax(init);
      assert forall k :: 0 <= k < |init| ==> init[k] == chats[k];
      var m := MaxDefaultNumber(init);
      if MaxDefaultNumber(chats) == m && m != 0 {
        var k :| 0 <= k < |init| && DefaultTitleNumber(init[k].title) == Some(m);
        assert chats[k] == init[k];
      }
    }
  }

  /**
   * The title of a new chat differs from every existing title when its
   * number exceeds every number a default title already carries.
   */
  lemma NewDefaultTitleIsFresh(chats: seq<Chat>, maxNum: nat)
    requires forall k :: 0 <= k < |chats| && DefaultTitleNumber(chats[k].title).Some? ==>
               DefaultTitleNumber(chats[k].title).value <= maxNum
    ensures forall k :: 0 <= k < |chats| ==> chats[k].title != DefaultTitle(maxNum + 1)
  {
    DefaultTitleRoundTrip(maxNum + 1);
  }

  /** The title `handleSendFirstMessage` gives a new chat: the prompt cut to 35 characters, marked when cut. */
  function FirstMessageTitle(prompt: string): (title: string)
    ensures |prompt| <= 35 ==> title == prompt
    ensures |prompt| > 35 ==> |title| == 38 && title[..35] == prompt[..35] && title[35..] == "..."
  {
    if |prompt| > 35 then prompt[..35] + "..." else prompt
  }

  /** The first-send update: the new chat gets its title and its single first turn. */
  function InstallFirstTurn(chats: seq<Chat>, id: string, title: string, turn: Turn): seq<Chat> {
    seq(|chats|, k requires 0 <= k < |chats| =>
      if chats[k].id == id then chats[k].(title := title, turns := [turn]) else chats[k])
  }

  /** Installing into a chat just appended under a fresh id touches that chat alone, which the id then finds. */
  lemma InstallIntoNewChat(chats: seq<Chat>, chat: Chat, title: string, turn: Turn)
    requires forall k :: 0 <= k < |chats| ==> chats[k].id != chat.id
    ensures var r := InstallFirstTurn(chats + [chat], chat.id, title, turn);
      && r == chats + [chat.(title := title, turns := [turn])]
      && FindChat(r, chat.id) == |chats|
  {
    var r := InstallFirstTurn(chats + [chat], chat.id, title, turn);
    assert r == chats + [chat.(title := title, turns := [turn])];
    assert r[|chats|].id == chat.id;
    assert forall k :: 0 <= k < |chats| ==> r[k].id == chats[k].id;
  }

  /** The fresh first chat that the auto-start effect launches: one turn, one untouched attempt. */
  predicate ShouldAutoStart(chat: Chat) {
    && |chat.turns| == 1
    && |chat.turns[0].responses| == 1
    && var m := chat.turns[0].responses[0].assistantMessage;
       m.content == "" && !m.isError && m.id.None?
  }

  /**
   * The auto-start fires once: its context is the single prompt, and once
   * the attempt is marked pending the chat no longer qualifies.
   */
  lemma AutoStartOnce(chats: seq<Chat>, k: nat, temp: string)
    requires k < |chats| && ShouldAutoStart(chats[k])
    ensures BuildContext(chats[k].turns[..0], chats[k].turns[0].responses[0].promptUsed)
            == [UserMessage(chats[k].turns[0].responses[0].promptUsed)]
    ensures var c := chats[k];
      var t := StreamTarget(c.id, c.turns[0].turnId, c.turns[0].responses[0].attemptId);
      !ShouldAutoStart(WriteAttempt(chats, t, MarkPending(temp))[k])
  {
    var c := chats[k];
    var t := StreamTarget(c.id, c.turns[0].turnId, c.turns[0].responses[0].attemptId);
    assert Located(c, t, 0, 0);
    WriteAtLocated(chats, t, MarkPending(temp), k, 0, 0);
  }

  // ---------------------------------------------------------------------
  // Title-generation gating (App.tsx:400-406, 447)

  datatype TitleRequest = TitleRequest(chatId: string, prompt: string, finalContent: string)

  /**
   * Whether `handleComplete` fires a title request, judged on the `chats`
   * its closure captured: only for attempt 0 of turn 0, with non-blank final
   * text, a title still matching `^Chat \d+$`, and a non-empty first prompt.
   */
  function TitleRequestFor(snapshot: seq<Chat>, ref: StreamRef, finalContent: string): (req: Option<TitleRequest>)
    ensures req.Some? ==> var ci := FindChat(snapshot, ref.chatId);
      && ci >= 0 && |snapshot[ci].turns| > 0
      && snapshot[ci].turns[0].turnId == ref.turnId
      && |snapshot[ci].turns[0].responses| > 0
      && snapshot[ci].turns[0].responses[0].attemptId == ref.attemptId
      && DefaultTitleNumber(snapshot[ci].title).Some?
      && !IsBlank(finalContent)
      && req.value == TitleRequest(ref.chatId, snapshot[ci].turns[0].responses[0].promptUsed, finalContent)
      && req.value.prompt != []
    ensures (var ci := FindChat(snapshot, ref.chatId);
      && ci >= 0 && |snapshot[ci].turns| > 0
      && snapshot[ci].turns[0].turnId == ref.turnId
      && |snapshot[ci].turns[0].responses| > 0
      && snapshot[ci].turns[0].responses[0].attemptId == ref.attemptId
      && DefaultTitleNumber(snapshot[ci].title).Some?
      && !IsBlank(finalContent)
      && snapshot[ci].turns[0].responses[0].promptUsed != [])
      ==> req.Some?
  {
    var ci := FindChat(snapshot, ref.chatId);
    if ci < 0 then None
    else
      var chat := snapshot[ci];
      var ti := FindTurn(chat.turns, ref.turnId);
      if ti != 0 then None
      else
        var ai := FindAttempt(chat.turns[0].responses, ref.attemptId);
        if ai == 0 && !IsBlank(finalContent) && DefaultTitleNumber(chat.title).Some?
           && chat.turns[0].responses[0].promptUsed != [] then
          Some(TitleRequest(ref.chatId, chat.turns[0].responses[0].promptUsed, finalContent))
        else None
  }
}
