// The chat session routes: message validation, the long-poll endpoint and
// the table of waiting poll requests that new messages resolve. The message
// store and the assistant are parameters; the 30-second timeout, the
// request's close event and the store's answer are events.
module ChatRoute {
  import opened Common

  datatype StoredMessage = StoredMessage(id: int, role: string, content: string)

  const MaxMessageLength := 4000
  const DefaultHistoryLimit := 50

  const MessageRequired := "Message is required and must be a string"
  const MessageBlank := "Message cannot be empty or contain only whitespace"
  const SessionNotFound := "Session not found"

  function TooLong(length: nat): string
  {
    "Message exceeds maximum length of 4000 characters (received " + NatToString(length) + ")"
  }

  /**
   * The message checks, in order: a string that is not empty, a trimmed
   * text that is not empty, and at most 4000 trimmed characters. The
   * trimmed text is what goes on.
   */
  function ValidateMessage(message: JsValue): (r: HttpResult<string>)
    ensures r.Fail? ==> r.status == 400
    ensures !(message.JStr? && message.s != "") ==> r == Fail(400, MessageRequired)
    ensures r.Ok? ==> message.JStr? && r.value == Trim(message.s) && 0 < |r.value| <= MaxMessageLength
  {
    if !Truthy(message) || !message.JStr? then Fail(400, MessageRequired)
    else CheckTrimmed(Trim(message.s))
  }

  /** The checks a non-empty string goes through, on its trimmed text. */
  function CheckTrimmed(trimmed: string): (r: HttpResult<string>)
  {
    if |trimmed| == 0 then Fail(400, MessageBlank)
    else if |trimmed| > MaxMessageLength then Fail(400, TooLong(|trimmed|))
    else Ok(trimmed)
  }

  lemma ValidateString(s: string)
    ensures ValidateMessage(JStr(s)) == if s == "" then Fail(400, MessageRequired) else CheckTrimmed(Trim(s))
  {
  }

  lemma CheckTrimmedIff(t: string)
    ensures CheckTrimmed(t).Ok? <==> 0 < |t| <= MaxMessageLength
    ensures CheckTrimmed(t) == Fail(400, MessageBlank) <==> t == ""
    ensures |t| > MaxMessageLength ==> CheckTrimmed(t) == Fail(400, TooLong(|t|))
  {
    if t != "" && |t| > MaxMessageLength {
      var prefix := "Message exceeds maximum length of 4000 characters (received ";
      assert TooLong(|t|) == prefix + NatToString(|t|) + ")";
      assert |TooLong(|t|)| > |prefix| > |MessageBlank|;
    }
  }

  /**
   * A string message is accepted exactly when its trimmed text has 1 to
   * 4000 characters; the blank-message error is for non-empty whitespace.
   */
  lemma ValidateMessageIff(s: string)
    ensures ValidateMessage(JStr(s)).Ok? <==> 0 < |Trim(s)| <= MaxMessageLength
    ensures ValidateMessage(JStr(s)) == Fail(400, MessageBlank) <==> s != "" && AllWhitespace(s)
    ensures |Trim(s)| > MaxMessageLength ==> ValidateMessage(JStr(s)) == Fail(400, TooLong(|Trim(s)|))
  {
    ValidateString(s);
    CheckTrimmedIff(Trim(s));
    TrimEmptyIffBlank(s);
    if s == "" {
      RequiredIsNotBlank();
    }
  }

  lemma RequiredIsNotBlank()
    ensures MessageRequired != MessageBlank
  {
    assert |MessageRequired| == 40 && |MessageBlank| == 50;
  }

  /** The send-message route's checks: the message first, then the session. */
  function SendMessageCheck(message: JsValue, sessionExists: bool): (r: HttpResult<string>)
    ensures ValidateMessage(message).Fail? ==> r == ValidateMessage(message)
    ensures ValidateMessage(message).Ok? && !sessionExists ==> r == Fail(404, SessionNotFound)
    ensures r.Ok? <==> ValidateMessage(message).Ok? && sessionExists
  {
    match ValidateMessage(message)
    case Fail(status, error) => Fail(status, error)
    case Ok(trimmed) => if sessionExists then Ok(trimmed) else Fail(404, SessionNotFound)
  }

  /** `parseInt(limit) || 50`. */
  function HistoryLimit(limit: Option<string>): (r: int)
    ensures r != 0
    ensures limit.Some? && ParseInt(limit.value).Some? && ParseInt(limit.value).value != 0 ==>
              r == ParseInt(limit.value).value
    ensures limit.None? || ParseInt(limit.value).None? || ParseInt(limit.value) == Some(0) ==> r == DefaultHistoryLimit
  {
    ParseIntOr(limit, DefaultHistoryLimit)
  }

  /** `parseInt(lastMessageId) || 0`: the number read, or 0 when there is none. */
  function LastMessageId(param: Option<string>): (r: int)
    ensures param.Some? && ParseInt(param.value).Some? ==> r == ParseInt(param.value).value
    ensures param.None? || ParseInt(param.value).None? ==> r == 0
  {
    ParseIntOr(param, 0)
  }

  function After(lastId: int): StoredMessage -> bool
  {
    (m: StoredMessage) => m.id > lastId
  }

  /** `messages.filter(msg => msg.id > lastMessageId)`. */
  function NewMessages(history: seq<StoredMessage>, lastId: int): (r: seq<StoredMessage>)
    ensures |r| <= |history|
  {
    Filter(history, After(lastId))
  }

  /** The new messages are exactly those of the history above the cursor, in history order. */
  lemma NewMessagesMembers(history: seq<StoredMessage>, lastId: int)
    ensures forall m :: m in NewMessages(history, lastId) <==> m in history && m.id > lastId
    ensures NewMessages(history, lastId) == [] <==> forall i :: 0 <= i < |history| ==> history[i].id <= lastId
  {
    forall m ensures m in NewMessages(history, lastId) <==> m in history && m.id > lastId {
      FilterMembers(history, After(lastId), m);
    }
    if NewMessages(history, lastId) != [] {
      var m := NewMessages(history, lastId)[0];
      assert m in NewMessages(history, lastId);
    }
  }

  /** How a poll starts: unknown session, an immediate answer, or a wait. */
  datatype PollStart = NoSession | Immediate(messages: seq<StoredMessage>) | Wait(lastMessageId: int)

  function StartPoll(sessionExists: bool, lastIdParam: Option<string>, history: seq<StoredMessage>): (r: PollStart)
    ensures !sessionExists <==> r.NoSession?
    ensures r.Immediate? ==> r.messages == NewMessages(history, LastMessageId(lastIdParam)) && r.messages != []
    ensures r.Wait? ==> r.lastMessageId == LastMessageId(lastIdParam)
                        && NewMessages(history, r.lastMessageId) == []
  {
    if !sessionExists then NoSession
    else
      var lastId := LastMessageId(lastIdParam);
      var newer := NewMessages(history, lastId);
      if |newer| > 0 then Immediate(newer) else Wait(lastId)
  }

  // ---------------------------------------------------------------------
  // Request ids

  /** `req_${now}_${n}`. */
  function RequestId(now: int, n: nat): string
  {
    "req_" + IntToString(now) + "_" + IntToString(n)
  }

  lemma RequestIdParts(now: int, n: nat)
    ensures RequestId(now, n) == Join(["req", IntToString(now), IntToString(n)], "_")
  {
    var parts := ["req", IntToString(now), IntToString(n)];
    assert parts[1..][1..] == [IntToString(n)];
    assert Join(parts[1..], "_") == IntToString(now) + "_" + IntToString(n);
  }

  /** Ids made from different counter values differ, whatever the clock says. */
  lemma RequestIdsDistinct(now1: int, n1: nat, now2: int, n2: nat)
    requires n1 != n2
    ensures RequestId(now1, n1) != RequestId(now2, n2)
  {
    var p1 := ["req", IntToString(now1), IntToString(n1)];
    var p2 := ["req", IntToString(now2), IntToString(n2)];
    IntToStringLacks(now1, '_');
    IntToStringLacks(n1, '_');
    IntToStringLacks(now2, '_');
    IntToStringLacks(n2, '_');
    assert Lacks("req", '_');
    RequestIdParts(now1, n1);
    RequestIdParts(now2, n2);
    if RequestId(now1, n1) == RequestId(now2, n2) {
      SplitOnJoin(p1, "_");
      SplitOnJoin(p2, "_");
      assert p1[2] == p2[2];
      IntToStringInjective(n1, n2);
    }
  }

  // ---------------------------------------------------------------------
  // The waiter table

  /** A waiting poll: its id, its cursor, and whether its response has already ended. */
  datatype Waiter = Waiter(id: string, lastMessageId: int, ended: bool)

  /** A waiter resolved by a notification, with the messages it is answered with. */
  datatype Resolution = Resolution(requestId: string, messages: seq<StoredMessage>)

  /** The waiter is resolved: its response is open and the history has messages past its cursor. */
  function Ready(history: seq<StoredMessage>): Waiter -> bool
  {
    (w: Waiter) => !w.ended && NewMessages(history, w.lastMessageId) != []
  }

  /** The waiter keeps waiting: its response is open but nothing is past its cursor. */
  function StillWaiting(history: seq<StoredMessage>): Waiter -> bool
  {
    (w: Waiter) => !w.ended && NewMessages(history, w.lastMessageId) == []
  }

  function Ended(w: Waiter): bool { w.ended }

  function Resolutions(ws: seq<Waiter>, history: seq<StoredMessage>): (r: seq<Resolution>)
    ensures |r| == |Filter(ws, Ready(history))|
  {
    var ready := Filter(ws, Ready(history));
    seq(|ready|, i requires 0 <= i < |ready| =>
      Resolution(ready[i].id, NewMessages(history, ready[i].lastMessageId)))
  }

  lemma ResolutionsSnoc(ws: seq<Waiter>, w: Waiter, history: seq<StoredMessage>)
    ensures Resolutions(ws + [w], history)
            == Resolutions(ws, history)
               + (if Ready(history)(w) then [Resolution(w.id, NewMessages(history, w.lastMessageId))] else [])
  {
    FilterConcat(ws, [w], Ready(history));
    assert Filter([w], Ready(history)) == (if Ready(history)(w) then [w] else []) + Filter([w][1..], Ready(history));
  }

  lemma FilterSnoc<T>(s: seq<T>, x: T, p: T -> bool)
    ensures Filter(s + [x], p) == Filter(s, p) + (if p(x) then [x] else [])
  {
    FilterConcat(s, [x], p);
    assert Filter([x], p) == (if p(x) then [x] else []) + Filter([x][1..], p);
  }

  /**
   * Every waiter of a notified list is exactly one of: ended (dropped),
   * resolved, or still waiting.
   */
  lemma {:induction false} NotifyPartitions(ws: seq<Waiter>, history: seq<StoredMessage>)
    ensures |Filter(ws, Ended)| + |Filter(ws, Ready(history))| + |Filter(ws, StillWaiting(history))| == |ws|
  {
    if ws != [] {
      NotifyPartitions(ws[1..], history);
    }
  }

  /** Each resolution answers a waiter of the list with exactly the messages past its cursor. */
  lemma ResolutionsAnswer(ws: seq<Waiter>, history: seq<StoredMessage>, k: nat)
    requires k < |Resolutions(ws, history)|
    ensures exists w :: w in ws && !w.ended && Resolutions(ws, history)[k] == Resolution(w.id, NewMessages(history, w.lastMessageId))
                        && NewMessages(history, w.lastMessageId) != []
  {
    var ready := Filter(ws, Ready(history));
    var w := ready[k];
    assert w in ready;
    FilterMembers(ws, Ready(history), w);
  }

  /** The first index holding a waiter with this id. */
  function FirstIndexOf(ws: seq<Waiter>, id: string): (r: Option<nat>)
    ensures r.Some? ==> r.value < |ws| && ws[r.value].id == id
                        && forall j :: 0 <= j < r.value ==> ws[j].id != id
    ensures r.None? ==> forall j :: 0 <= j < |ws| ==> ws[j].id != id
  {
    if ws == [] then None
    else if ws[0].id == id then Some(0)
    else match FirstIndexOf(ws[1..], id)
      case None => None
      case Some(i) => Some(i + 1)
  }

  /** `findIndex` then `splice(index, 1)`. */
  function RemoveFirst(ws: seq<Waiter>, id: string): (r: seq<Waiter>)
  {
    match FirstIndexOf(ws, id)
    case None => ws
    case Some(i) => ws[..i] + ws[i + 1..]
  }

  /**
   * Removal drops exactly one waiter, the first with the id, and keeps the
   * others in order; without such a waiter the list is unchanged.
   */
  lemma RemoveFirstSpec(ws: seq<Waiter>, id: string)
    ensures (forall j :: 0 <= j < |ws| ==> ws[j].id != id) ==> RemoveFirst(ws, id) == ws
    ensures (exists j :: 0 <= j < |ws| && ws[j].id == id) ==>
              |RemoveFirst(ws, id)| == |ws| - 1
              && multiset(RemoveFirst(ws, id)) + multiset{ws[FirstIndexOf(ws, id).value]} == multiset(ws)
  {
    match FirstIndexOf(ws, id)
    case None =>
    case Some(i) =>
      assert ws == ws[..i] + [ws[i]] + ws[i + 1..];
  }

  class PendingRequests {
    /** The waiting polls by session, oldest first. */
    var table: map<string, seq<Waiter>>
    var counter: nat

    /** No session is kept with an empty list. */
    predicate Valid()
      reads this
    {
      forall s :: s in table ==> table[s] != []
    }

    constructor ()
      ensures table == map[] && counter == 0 && Valid()
    {
      table := map[];
      counter := 0;
    }

    /** `generateRequestId`: the counter goes up by one and names the id. */
    method GenerateRequestId(now: int) returns (id: string)
      modifies this
      ensures counter == old(counter) + 1 && id == RequestId(now, counter)
      ensures table == old(table)
    {
      counter := counter + 1;
      id := RequestId(now, counter);
    }

    /** Register a waiter: a new session gets a list, and the waiter goes last. */
    method Add(sessionId: string, w: Waiter)
      modifies this
      ensures table == old(table)[sessionId := (if sessionId in old(table) then old(table)[sessionId] else []) + [w]]
      ensures counter == old(counter)
      ensures old(Valid()) ==> Valid()
    {
      if sessionId !in table {
        table := table[sessionId := []];
      }
      table := table[sessionId := table[sessionId] + [w]];
    }

    /**
     * `notifyPendingRequests` once the store answers with the history
     * (`None` when reading it failed): ended waiters are dropped, waiters
     * with new messages are resolved and removed, the rest keep waiting in
     * order, and a session left with no waiter is deleted. A read failure
     * drops the whole session.
     */
    method Notify(sessionId: string, history: Option<seq<StoredMessage>>) returns (resolved: seq<Resolution>)
      modifies this
      ensures sessionId !in old(table) || old(table)[sessionId] == [] ==> table == old(table) && resolved == []
      ensures sessionId in old(table) && old(table)[sessionId] != [] && history.None? ==>
                table == old(table) - {sessionId} && resolved == []
      ensures sessionId in old(table) && old(table)[sessionId] != [] && history.Some? ==>
                var ws := old(table)[sessionId];
                var waiting := Filter(ws, StillWaiting(history.value));
                resolved == Resolutions(ws, history.value)
                && table == (if waiting == [] then old(table) - {sessionId} else old(table)[sessionId := waiting])
      ensures counter == old(counter)
      ensures old(Valid()) ==> Valid()
    {
      resolved := [];
      if sessionId !in table || table[sessionId] == [] {
        return;
      }
      if history.None? {
        table := table - {sessionId};
        return;
      }
      var all := history.value;
      var requests := table[sessionId];
      var unresolved: seq<Waiter> := [];
      var i := 0;
      while i < |requests|
        invariant 0 <= i <= |requests|
        invariant table == old(table) && counter == old(counter)
        invariant unresolved == Filter(requests[..i], StillWaiting(all))
        invariant resolved == Resolutions(requests[..i], all)
      {
        var request := requests[i];
        assert requests[..i + 1] == requests[..i] + [request];
        FilterSnoc(requests[..i], request, StillWaiting(all));
        ResolutionsSnoc(requests[..i], request, all);
        if request.ended {
          // the response is already closed: only its timeout is cleared
        } else {
          var newer := NewMessages(all, request.lastMessageId);
          if |newer| > 0 {
            resolved := resolved + [Resolution(request.id, newer)];
          } else {
            unresolved := unresolved + [request];
          }
        }
        i := i + 1;
      }
      assert requests[..i] == requests;
      if |unresolved| > 0 {
        table := table[sessionId := unresolved];
      } else {
        table := table - {sessionId};
      }
    }

    /**
     * `removePendingRequest`: a missing session is left alone; otherwise the
     * first waiter with the id goes, and an emptied list removes the session.
     */
    method Remove(sessionId: string, requestId: string)
      modifies this
      ensures sessionId !in old(table) ==> table == old(table)
      ensures sessionId in old(table) ==>
                var rest := RemoveFirst(old(table)[sessionId], requestId);
                table == (if rest == [] then old(table) - {sessionId} else old(table)[sessionId := rest])
      ensures counter == old(counter)
      ensures old(Valid()) ==> Valid()
    {
      if sessionId !in table {
        return;
      }
      var requests := table[sessionId];
      var index := FirstIndexOf(requests, requestId);
      if index.Some? {
        requests := requests[..index.value] + requests[index.value + 1..];
      }
      if |requests| == 0 {
        table := table - {sessionId};
      } else {
        table := table[sessionId := requests];
      }
    }
  }

  // ---------------------------------------------------------------------
  // One poll's response

  /** The three ways a waiting poll can finish. */
  datatype PollEvent = TimedOut | Resolved(messages: seq<StoredMessage>) | Closed

  /**
   * One waiting poll's response. `handled` is the `responseHandled` flag
   * shared by the timeout, the resolve callback and the close handler;
   * `answers` are the bodies written to the response.
   */
  class PollResponse {
    var handled: bool
    var answers: seq<seq<StoredMessage>>

    predicate Valid()
      reads this
    {
      |answers| <= 1 && (answers != [] ==> handled)
    }

    constructor ()
      ensures !handled && answers == [] && Valid()
    {
      handled := false;
      answers := [];
    }

    /**
     * The 30-second timeout: the first path to run answers with no
     * messages and asks for the waiter to be unregistered.
     */
    method OnTimeout() returns (unregister: bool)
      modifies this
      ensures handled && unregister == !old(handled)
      ensures answers == if !old(handled) && old(answers) == [] then [[]] else old(answers)
      ensures old(Valid()) ==> Valid()
    {
      if handled {
        return false;
      }
      handled := true;
      unregister := true;
      if answers == [] {
        answers := answers + [[]];
      }
    }

    /** The resolve callback a notification calls. */
    method Resolve(messages: seq<StoredMessage>)
      modifies this
      ensures handled
      ensures answers == if !old(handled) && old(answers) == [] then [messages] else old(answers)
      ensures old(Valid()) ==> Valid()
    {
      if handled {
        return;
      }
      handled := true;
      if answers == [] {
        answers := answers + [messages];
      }
    }

    /** The client disconnects: unregister without answering. */
    method OnClose() returns (unregister: bool)
      modifies this
      ensures handled && unregister == !old(handled) && answers == old(answers)
      ensures old(Valid()) ==> Valid()
    {
      unregister := false;
      if !handled {
        handled := true;
        unregister := true;
      }
    }
  }

  /** What a poll answers with when `e` is the first of its events to happen. */
  function FirstAnswer(e: PollEvent): (r: seq<seq<StoredMessage>>)
    ensures |r| <= 1 && (r == [] <==> e.Closed?)
  {
    match e
    case TimedOut => [[]]
    case Resolved(ms) => [ms]
    case Closed => []
  }

  /**
   * Whatever the order of the timeout, resolutions and the close event,
   * a waiting poll is answered at most once, and the first event alone
   * decides how, and whether it is unregistered.
   */
  method RunPoll(events: seq<PollEvent>) returns (answers: seq<seq<StoredMessage>>, unregistered: nat)
    ensures |answers| <= 1 && unregistered <= 1
    ensures events == [] ==> answers == [] && unregistered == 0
    ensures events != [] ==> answers == FirstAnswer(events[0])
                             && unregistered == (if events[0].Resolved? then 0 else 1)
  {
    var response := new PollResponse();
    unregistered := 0;
    var i := 0;
    while i < |events|
      invariant 0 <= i <= |events|
      invariant response.Valid()
      invariant i == 0 ==> response.answers == [] && !response.handled && unregistered == 0
      invariant i > 0 ==> response.handled && response.answers == FirstAnswer(events[0])
                          && unregistered == (if events[0].Resolved? then 0 else 1)
    {
      match events[i] {
        case TimedOut =>
          var u := response.OnTimeout();
          if u { unregistered := unregistered + 1; }
        case Resolved(ms) =>
          response.Resolve(ms);
        case Closed =>
          var u := response.OnClose();
          if u { unregistered := unregistered + 1; }
      }
      i := i + 1;
    }
    answers := response.answers;
  }
}
