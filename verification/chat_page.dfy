/**
 * The chat page (app/chat/page.tsx): the reply classifier that decides
 * between a structured and a plain-text answer, and the send handler that
 * appends the user's message and then the assistant's reply (or an
 * apology) to the conversation.
 */
module ChatPage {
  import opened Wrappers

  /** A value `JSON.parse` can produce. */
  datatype Json =
    | JNull
    | JBool(b: bool)
    | JNum(n: real)
    | JStr(s: string)
    | JArr(items: seq<Json>)
    | JObj(fields: map<string, Json>)

  /** JavaScript truthiness of a parsed value. */
  predicate Truthy(v: Json) {
    match v
    case JNull => false
    case JBool(b) => b
    case JNum(n) => n != 0.0
    case JStr(s) => s != ""
    case JArr(_) => true
    case JObj(_) => true
  }

  /**
   * `v[key]` is truthy. Only an object has the keys `sections` and `title`;
   * on any other value the property is `undefined`, except on `null`, where
   * reading it throws and the reply is treated as text all the same.
   */
  predicate TruthyField(v: Json, key: string) {
    v.JObj? && key in v.fields && Truthy(v.fields[key])
  }

  /** `parsed.sections || parsed.title`. */
  predicate LooksStructured(v: Json) {
    TruthyField(v, "sections") || TruthyField(v, "title")
  }

  /** What `formatAIResponse` returns. */
  datatype Formatted = Structured(content: Json) | PlainText(text: string)

  /**
   * `formatAIResponse`, with `JSON.parse` as the `parse` parameter (`None`
   * when it throws): structured exactly when the reply parses to a value
   * with a truthy `sections` or `title`, and then it carries that value;
   * otherwise the reply text, verbatim.
   */
  function FormatAIResponse(text: string, parse: string -> Option<Json>): (r: Formatted)
    ensures r.Structured? <==> parse(text).Some? && LooksStructured(parse(text).value)
    ensures r.Structured? ==> r.content == parse(text).value
    ensures r.PlainText? ==> r.text == text
  {
    var parsed := parse(text);
    if parsed.Some? && LooksStructured(parsed.value) then Structured(parsed.value)
    else PlainText(text)
  }

  /** A reply that does not parse, or parses to a value without `sections` or `title`, stays text. */
  lemma UnstructuredStaysText(text: string, parse: string -> Option<Json>)
    requires parse(text).None? || parse(text).value.JNull? || parse(text).value.JStr?
          || (parse(text).value.JObj? && "sections" !in parse(text).value.fields
                                      && "title" !in parse(text).value.fields)
    ensures FormatAIResponse(text, parse) == PlainText(text)
  {
  }

  /** A titled object is structured even with no sections; an empty title is not enough. */
  lemma TitleDecides(text: string, parse: string -> Option<Json>, title: string)
    requires parse(text) == Some(JObj(map["title" := JStr(title)]))
    ensures FormatAIResponse(text, parse).Structured? <==> title != ""
  {
  }

  // ---- Messages ----

  datatype Sender = User | Ai
  datatype Format = TextFormat | StructuredFormat

  /** A chat message; `structuredContent` is `None` where the page leaves it undefined. */
  datatype Message = Message(
    id: int,
    text: string,
    sender: Sender,
    timestamp: int,
    format: Format,
    structuredContent: Option<Json>)

  const ErrorText := "Sorry, there was an error processing your request."

  /** The user's message, stamped with the clock reading taken when it is sent. */
  function UserMessage(text: string, now: int): Message {
    Message(now, text, User, now, TextFormat, None)
  }

  /**
   * The assistant's message for a classified reply: a structured reply has
   * empty text and carries its content, a text reply carries the text and
   * no content. Its id is the clock reading plus one.
   */
  function AiMessage(f: Formatted, now: int): (m: Message)
    ensures m.sender == Ai && m.id == now + 1 && m.timestamp == now
    ensures m.format == StructuredFormat <==> f.Structured?
    ensures f.Structured? ==> m.text == "" && m.structuredContent == Some(f.content)
    ensures f.PlainText? ==> m.text == f.text && m.structuredContent == None
  {
    match f
    case Structured(content) => Message(now + 1, "", Ai, now, StructuredFormat, Some(content))
    case PlainText(text) => Message(now + 1, text, Ai, now, TextFormat, None)
  }

  /** The apology appended when the request or the reading of its answer fails. */
  function ErrorMessage(now: int): Message {
    Message(now + 1, ErrorText, Ai, now, TextFormat, None)
  }

  /**
   * The message appended after the user's: `reply` is the reply text the
   * request produced, or `None` when fetching it threw.
   */
  function ReplyMessage(reply: Option<string>, parse: string -> Option<Json>, now: int): (m: Message)
    ensures m.sender == Ai && m.id == now + 1 && m.timestamp == now
    ensures reply.Some? ==>
              (m.format == StructuredFormat <==> parse(reply.value).Some? && LooksStructured(parse(reply.value).value))
    ensures reply.Some? && m.format == StructuredFormat ==>
              m.text == "" && m.structuredContent == Some(parse(reply.value).value)
    ensures reply.None? ==> m.text == ErrorText && m.format == TextFormat && m.structuredContent == None
    ensures reply.Some? && m.format == TextFormat ==> m.text == reply.value && m.structuredContent == None
  {
    if reply.None? then ErrorMessage(now)
    else AiMessage(FormatAIResponse(reply.value, parse), now)
  }

  // ---- The blank-input guard ----

  /** The characters `String.prototype.trim` removes: white space and line terminators. */
  predicate IsWhitespace(c: char) {
    || c == '\t' || c == '\n' || c == '\U{B}' || c == '\U{C}' || c == '\r' || c == ' '
    || c == '\U{A0}' || c == '\U{1680}' || ('\U{2000}' <= c <= '\U{200A}')
    || c == '\U{2028}' || c == '\U{2029}' || c == '\U{202F}' || c == '\U{205F}'
    || c == '\U{3000}' || c == '\U{FEFF}'
  }

  /** The text without its leading white space. */
  function TrimStart(s: string): (r: string)
    ensures |r| <= |s|
  {
    if s != [] && IsWhitespace(s[0]) then TrimStart(s[1..]) else s
  }

  /** The text without its trailing white space. */
  function TrimEnd(s: string): (r: string)
    ensures |r| <= |s|
  {
    if s != [] && IsWhitespace(s[|s| - 1]) then TrimEnd(s[..|s| - 1]) else s
  }

  function Trim(s: string): string {
    TrimEnd(TrimStart(s))
  }

  /** `trimStart` drops a run of white space and stops at the first other character. */
  lemma {:induction false} TrimStartDrops(s: string)
    ensures TrimStart(s) == s[|s| - |TrimStart(s)|..]
    ensures forall i :: 0 <= i < |s| - |TrimStart(s)| ==> IsWhitespace(s[i])
    ensures TrimStart(s) == [] || !IsWhitespace(TrimStart(s)[0])
  {
    if s != [] && IsWhitespace(s[0]) {
      TrimStartDrops(s[1..]);
    }
  }

  /** `trimEnd` drops a run of white space and stops at the last other character. */
  lemma {:induction false} TrimEndDrops(s: string)
    ensures TrimEnd(s) == s[..|TrimEnd(s)|]
    ensures forall i :: |TrimEnd(s)| <= i < |s| ==> IsWhitespace(s[i])
    ensures TrimEnd(s) == [] || !IsWhitespace(TrimEnd(s)[|TrimEnd(s)| - 1])
  {
    if s != [] && IsWhitespace(s[|s| - 1]) {
      TrimEndDrops(s[..|s| - 1]);
    }
  }

  /** `inputMessage.trim() === ''` holds exactly when every character is white space. */
  lemma {:induction false} BlankIff(s: string)
    ensures Trim(s) == "" <==> forall i :: 0 <= i < |s| ==> IsWhitespace(s[i])
  {
    var t := TrimStart(s);
    TrimStartDrops(s);
    TrimEndDrops(t);
    if Trim(s) != "" {
      var r := Trim(s);
      assert t[..|r|] == r;
      assert !IsWhitespace(t[|r| - 1]);
      assert s[|s| - |t| + |r| - 1] == t[|r| - 1];
    }
  }

  // ---- The page's state ----

  /** The conversation state the page keeps. */
  class ChatSession {
    var messages: seq<Message>
    var inputMessage: string
    var isTyping: bool

    constructor ()
      ensures messages == [] && inputMessage == "" && !isTyping
    {
      messages := [];
      inputMessage := "";
      isTyping := false;
    }

    /** The input box's change handler. */
    method SetInput(text: string)
      modifies this
      ensures inputMessage == text
      ensures messages == old(messages) && isTyping == old(isTyping)
    {
      inputMessage := text;
    }

    /**
     * `handleSendMessage`. A blank input sends nothing and changes nothing.
     * Otherwise the user's message is appended, the input is cleared, and
     * once the request settles exactly one assistant message follows it:
     * the classified reply, or the apology when the request failed. The
     * earlier messages are left as they were.
     *
     * `reply` is what the request produced, `sentAt` and `repliedAt` are the
     * two clock readings the handler takes.
     */
    method HandleSendMessage(reply: Option<string>, parse: string -> Option<Json>, sentAt: int, repliedAt: int)
      modifies this
      ensures Trim(old(inputMessage)) == "" ==>
                messages == old(messages) && inputMessage == old(inputMessage) && isTyping == old(isTyping)
      ensures Trim(old(inputMessage)) != "" ==>
                && messages == old(messages) + [UserMessage(old(inputMessage), sentAt),
                                                ReplyMessage(reply, parse, repliedAt)]
                && inputMessage == ""
                && !isTyping
    {
      var trimmed := Trim(inputMessage);
      if trimmed == "" {
        return;
      }
      var newMessage := UserMessage(inputMessage, sentAt);
      var answer;
      if reply.Some? {
        var formatted := FormatAIResponse(reply.value, parse);
        answer := AiMessage(formatted, repliedAt);
      } else {
        answer := ErrorMessage(repliedAt);
      }
      assert answer == ReplyMessage(reply, parse, repliedAt);

      messages := messages + [newMessage];
      inputMessage := "";
      isTyping := true;
      messages := messages + [answer];
      isTyping := false;
    }
  }
}
