// The conversation routes of the chat service: the id, content and
// existence checks in front of each handler, and the history handed to the
// assistant. The database is the set of known conversation ids and the
// stored history.
module ConversationRoutes {
  import opened Common

  const DefaultUserId := "default_user"
  const InvalidId := "Invalid conversation ID"
  const NotFound := "Conversation not found"
  const ContentRequired := "Message content is required"
  const KeyValueRequired := "Both key and value are required"

  /** A stored message: `{id, role, content}`. */
  datatype ConversationMessage = ConversationMessage(id: int, role: string, content: string)

  /** An entry of the assistant's context: `{role, content}`. */
  datatype Turn = Turn(role: string, content: string)

  /** `req.body.userId || 'default_user'`. */
  function UserIdOf(userId: JsValue): (r: JsValue)
    ensures Truthy(r)
    ensures Truthy(userId) ==> r == userId
    ensures !Truthy(userId) ==> r == JStr(DefaultUserId)
  {
    if Truthy(userId) then userId else JStr(DefaultUserId)
  }

  /** `parseInt(req.params.id)`, with `NaN` as an error. */
  function ParseConversationId(param: string): (r: HttpResult<int>)
    ensures r.Fail? <==> ParseInt(param).None?
    ensures r.Fail? ==> r == Fail(400, InvalidId)
    ensures r.Ok? ==> r.value == ParseInt(param).value
  {
    match ParseInt(param)
    case None => Fail(400, InvalidId)
    case Some(id) => Ok(id)
  }

  /** `GET /conversations/:id/messages`: the id, then existence. */
  function GetMessagesCheck(param: string, known: set<int>): (r: HttpResult<int>)
    ensures ParseInt(param).None? ==> r == Fail(400, InvalidId)
    ensures ParseInt(param).Some? && ParseInt(param).value !in known ==> r == Fail(404, NotFound)
    ensures r.Ok? <==> ParseInt(param).Some? && ParseInt(param).value in known
  {
    match ParseConversationId(param)
    case Fail(status, error) => Fail(status, error)
    case Ok(id) => if id in known then Ok(id) else Fail(404, NotFound)
  }

  /**
   * `POST /conversations/:id/messages`: the id, then the content (any
   * non-empty string, untrimmed and uncapped), then existence. On success,
   * the conversation and the content to save.
   */
  function SendMessageCheck(param: string, content: JsValue, known: set<int>): (r: HttpResult<(int, string)>)
    ensures ParseInt(param).None? ==> r == Fail(400, InvalidId)
    ensures ParseInt(param).Some? && !(content.JStr? && content.s != "") ==> r == Fail(400, ContentRequired)
    ensures r.Ok? <==> ParseInt(param).Some? && content.JStr? && content.s != "" && ParseInt(param).value in known
    ensures r.Ok? ==> r.value == (ParseInt(param).value, content.s)
  {
    match ParseConversationId(param)
    case Fail(status, error) => Fail(status, error)
    case Ok(id) =>
      if !Truthy(content) || !content.JStr? then Fail(400, ContentRequired)
      else if id !in known then Fail(404, NotFound)
      else Ok((id, content.s))
  }

  /** `GET /conversations/:id/context`: only the id is checked. */
  function GetContextCheck(param: string): (r: HttpResult<int>)
    ensures r == ParseConversationId(param)
    ensures r.Ok? <==> ParseInt(param).Some?
  {
    ParseConversationId(param)
  }

  /** `POST /conversations/:id/context`: the id, then both key and value truthy. */
  function SaveContextCheck(param: string, key: JsValue, value: JsValue): (r: HttpResult<(int, JsValue, JsValue)>)
    ensures ParseInt(param).None? ==> r == Fail(400, InvalidId)
    ensures ParseInt(param).Some? && !(Truthy(key) && Truthy(value)) ==> r == Fail(400, KeyValueRequired)
    ensures r.Ok? <==> ParseInt(param).Some? && Truthy(key) && Truthy(value)
  {
    match ParseConversationId(param)
    case Fail(status, error) => Fail(status, error)
    case Ok(id) => if !Truthy(key) || !Truthy(value) then Fail(400, KeyValueRequired) else Ok((id, key, value))
  }

  /** `history.slice(0, -1).map(msg => ({role, content}))`. */
  function ContextHistory(history: seq<ConversationMessage>): (r: seq<Turn>)
    ensures |r| == if history == [] then 0 else |history| - 1
    ensures forall i :: 0 <= i < |r| ==> r[i] == Turn(history[i].role, history[i].content)
  {
    var kept := if history == [] then [] else history[..|history| - 1];
    seq(|kept|, i requires 0 <= i < |kept| => Turn(kept[i].role, kept[i].content))
  }

  function Turns(history: seq<ConversationMessage>): (r: seq<Turn>)
    ensures |r| == |history|
    ensures forall i :: 0 <= i < |r| ==> r[i] == Turn(history[i].role, history[i].content)
  {
    seq(|history|, i requires 0 <= i < |history| => Turn(history[i].role, history[i].content))
  }

  /**
   * With the just-saved user message last in the stored history, the
   * assistant sees exactly the turns before it.
   */
  lemma ContextExcludesNewMessage(before: seq<ConversationMessage>, saved: ConversationMessage)
    ensures ContextHistory(before + [saved]) == Turns(before)
  {
    var r := ContextHistory(before + [saved]);
    assert |r| == |before|;
    forall i | 0 <= i < |r| ensures r[i] == Turns(before)[i] {
      assert (before + [saved])[i] == before[i];
    }
  }

  /** A non-numeric id is refused with 400 by every conversation endpoint, before anything else. */
  lemma InvalidIdEverywhere(param: string, content: JsValue, key: JsValue, value: JsValue, known: set<int>)
    requires ParseInt(param).None?
    ensures GetMessagesCheck(param, known) == Fail(400, InvalidId)
    ensures SendMessageCheck(param, content, known) == Fail(400, InvalidId)
    ensures GetContextCheck(param) == Fail(400, InvalidId)
    ensures SaveContextCheck(param, key, value) == Fail(400, InvalidId)
  {
  }

  /** Unlike the chat-session route, content made of whitespace only is accepted. */
  lemma WhitespaceContentAccepted(param: string, known: set<int>)
    requires ParseInt(param).Some? && ParseInt(param).value in known
    ensures SendMessageCheck(param, JStr(" "), known) == Ok((ParseInt(param).value, " "))
  {
  }

  /** A conversation id like `"12abc"` reads as 12: `parseInt` stops at the first non-digit. */
  lemma TrailingTextIgnored()
    ensures ParseConversationId("12abc") == Ok(12)
  {
    var u := "12abc";
    assert !IsWhitespace(u[0]);
    assert TrimStart(u) == u;
    assert DigitPrefixLength(u, false) == 2 by {
      assert DigitPrefixLength(u[2..], false) == 0 by { assert u[2..][0] == 'a'; }
      assert u[1..][1..] == u[2..];
    }
    assert u[..2] == "12";
    assert RadixValue("12", false) == 12 by {
      assert "12"[..1] == "1";
      assert "1"[..0] == "";
    }
  }
}
