/** The message log of app/components/Chatbot.tsx.

    The component keeps a list of `{role, content}` messages, opened by one greeting, and
    an `isLoading` flag. `handleSubmit` rejects blank input; otherwise it appends the
    user's message and sets the flag, awaits the AI service, appends exactly one
    assistant message (the reply, or a fixed error text) and clears the flag. The await
    splits the handler in two: `Submit` and `ReceiveReply`.
 */
module Chatbot {
  import opened AiChat

  datatype Role = User | Assistant

  datatype Message = Message(role: Role, content: string)

  const GreetingMessage := Message(Assistant, "Hi! Ask me anything about this resume analysis.")

  const ErrorText := "Sorry, an error occurred."

  // ---------------------------------------------------------------------------------
  // String.prototype.trim

  /** The characters `trim` removes: ECMAScript's WhiteSpace (tab, vertical tab, form
      feed, the byte order mark and every space separator) and LineTerminator. */
  predicate IsWhitespace(c: char) {
    c == '\t' || c == '\n' || c == '\U{B}' || c == '\U{C}' || c == '\r' || c == ' ' ||
    c == '\U{A0}' || c == '\U{1680}' || ('\U{2000}' <= c <= '\U{200A}') ||
    c == '\U{2028}' || c == '\U{2029}' || c == '\U{202F}' || c == '\U{205F}' ||
    c == '\U{3000}' || c == '\U{FEFF}'
  }

  predicate IsBlank(s: string) {
    forall i :: 0 <= i < |s| ==> IsWhitespace(s[i])
  }

  /** `s` without its leading whitespace. */
  function TrimStart(s: string): (r: string)
    ensures |r| <= |s| && r == s[|s| - |r|..]
    ensures IsBlank(s[..|s| - |r|])
    ensures r == [] || !IsWhitespace(r[0])
  {
    if s != [] && IsWhitespace(s[0]) then TrimStart(s[1..]) else s
  }

  /** `s` without its trailing whitespace. */
  function TrimEnd(s: string): (r: string)
    ensures |r| <= |s| && r == s[..|r|]
    ensures IsBlank(s[|r|..])
    ensures r == [] || !IsWhitespace(r[|r| - 1])
  {
    if s != [] && IsWhitespace(s[|s| - 1]) then TrimEnd(s[..|s| - 1]) else s
  }

  /** `s.trim()`: what is left begins and ends with a character other than whitespace. */
  function Trim(s: string): (r: string)
    ensures |r| <= |s|
    ensures r == [] || (!IsWhitespace(r[0]) && !IsWhitespace(r[|r| - 1]))
    ensures exists i, j :: 0 <= i <= j <= |s| && r == s[i..j] && IsBlank(s[..i]) && IsBlank(s[j..])
  {
    var t := TrimStart(s);
    var r := TrimEnd(t);
    var i := |s| - |t|;
    assert r == s[i..i + |r|] && IsBlank(s[..i]);
    assert IsBlank(s[i + |r|..]) by {
      assert s[i + |r|..] == t[|r|..];
    }
    r
  }

  lemma BlankTrimsToEmpty(s: string)
    requires IsBlank(s)
    ensures Trim(s) == ""
  {
    var t := TrimStart(s);
    assert t == s[|s| - |t|..];
  }

  lemma NonBlankSurvivesTrim(s: string, i: nat)
    requires i < |s| && !IsWhitespace(s[i])
    ensures Trim(s) != ""
  {
    var t := TrimStart(s);
    var k := |s| - |t|;
    assert forall j :: 0 <= j < k ==> s[..k][j] == s[j];
    assert k <= i && t[i - k] == s[i];
    var r := TrimEnd(t);
    assert forall j :: |r| <= j < |t| ==> t[|r|..][j - |r|] == t[j];
    assert i - k < |r|;
  }

  /** `!userInput.trim()` holds exactly for input made of whitespace only (or nothing). */
  lemma TrimEmptyIffBlank(s: string)
    ensures Trim(s) == "" <==> IsBlank(s)
  {
    if IsBlank(s) {
      BlankTrimsToEmpty(s);
    } else {
      var i :| 0 <= i < |s| && !IsWhitespace(s[i]);
      NonBlankSurvivesTrim(s, i);
    }
  }

  // ---------------------------------------------------------------------------------
  // The log as a value

  datatype Chat = Chat(messages: seq<Message>, isLoading: bool)

  /** The initial state of the component. */
  function Opened(): Chat {
    Chat([GreetingMessage], false)
  }

  /** `handleSubmit` up to its `await`: blank input changes nothing; other input is
      appended as typed, untrimmed, and starts loading. */
  function OnSubmit(c: Chat, input: string): (r: Chat)
    ensures IsBlank(input) ==> r == c
    ensures !IsBlank(input) ==> r == Chat(c.messages + [Message(User, input)], true)
  {
    TrimEmptyIffBlank(input);
    if Trim(input) == "" then c
    else Chat(c.messages + [Message(User, input)], true)
  }

  /** What the assistant says for a reply: its text, or the error text when the call
      failed or came back without a (non-empty) content. */
  function AnswerText(reply: Reply<string>): (text: string)
    ensures reply.Ok? && reply.content != "" ==> text == reply.content
    ensures reply.Fail? || reply.content == "" ==> text == "Sorry, an error occurred."
  {
    match Text(reply)
    case Some(text) => text
    case None => ErrorText
  }

  /** `handleSubmit` after its `await`, through its `finally`: the log is kept and
      exactly one assistant message follows it, after which nothing is loading. */
  function OnReply(c: Chat, reply: Reply<string>): (r: Chat)
    ensures c.messages <= r.messages && |r.messages| == |c.messages| + 1
    ensures r.messages[|c.messages|] == Message(Assistant, AnswerText(reply))
    ensures !r.isLoading
  {
    Chat(c.messages + [Message(Assistant, AnswerText(reply))], false)
  }

  /** The log the component keeps: the greeting, then user and assistant messages in
      turn, with `isLoading` set exactly while the last message is the user's, awaiting
      its reply. */
  predicate WellFormed(c: Chat) {
    && |c.messages| >= 1
    && c.messages[0] == GreetingMessage
    && (forall k :: 0 <= k < |c.messages| - 1 ==> c.messages[k].role != c.messages[k + 1].role)
    && (c.isLoading <==> c.messages[|c.messages| - 1].role == User)
  }

  /** One use of the form: what the user typed, and how the AI call settles if it is made. */
  datatype Exchange = Exchange(input: string, reply: Reply<string>)

  /** The exchanges of `xs` in order, each completed before the next submit (the form
      is disabled while loading). */
  function Converse(c: Chat, xs: seq<Exchange>): Chat
    decreases |xs|
  {
    if xs == [] then c
    else
      var sent := OnSubmit(c, xs[0].input);
      Converse(if sent == c then c else OnReply(sent, xs[0].reply), xs[1..])
  }

  /** The number of exchanges in `xs` whose input is not blank. */
  function Sent(xs: seq<Exchange>): nat
    decreases |xs|
  {
    if xs == [] then 0
    else (if IsBlank(xs[0].input) then 0 else 1) + Sent(xs[1..])
  }

  // ---------------------------------------------------------------------------------
  // What the component promises

  lemma OpenedWellFormed()
    ensures WellFormed(Opened())
    ensures Opened().messages == [Message(Assistant, "Hi! Ask me anything about this resume analysis.")]
    ensures !Opened().isLoading
  {
  }

  /** A submit of non-blank input followed by its reply adds exactly two messages. */
  lemma ExchangeAddsTwo(c: Chat, input: string, reply: Reply<string>)
    requires WellFormed(c) && !c.isLoading && !IsBlank(input)
    ensures var d := OnReply(OnSubmit(c, input), reply);
      && d.messages == c.messages + [Message(User, input), Message(Assistant, AnswerText(reply))]
      && WellFormed(d) && !d.isLoading
  {
    var d := OnReply(OnSubmit(c, input), reply);
    var n := |c.messages|;
    assert d.messages == c.messages + [Message(User, input), Message(Assistant, AnswerText(reply))];
    forall k | 0 <= k < |d.messages| - 1
      ensures d.messages[k].role != d.messages[k + 1].role
    {
      if k < n - 1 {
        assert d.messages[k] == c.messages[k] && d.messages[k + 1] == c.messages[k + 1];
      }
    }
  }

  /** Over any sequence of exchanges the log only grows (earlier messages are neither
      changed nor reordered), it stays well formed, and it gains exactly two messages
      per non-blank input. */
  lemma {:induction false} ConverseGrows(c: Chat, xs: seq<Exchange>)
    requires WellFormed(c) && !c.isLoading
    ensures var d := Converse(c, xs);
      && c.messages <= d.messages
      && |d.messages| == |c.messages| + 2 * Sent(xs)
      && WellFormed(d) && !d.isLoading
    decreases |xs|
  {
    if xs != [] {
      var sent := OnSubmit(c, xs[0].input);
      if IsBlank(xs[0].input) {
        ConverseGrows(c, xs[1..]);
      } else {
        assert sent != c;
        var next := OnReply(sent, xs[0].reply);
        ExchangeAddsTwo(c, xs[0].input, xs[0].reply);
        ConverseGrows(next, xs[1..]);
      }
    }
  }

  // ---------------------------------------------------------------------------------
  // The component

  class ChatWindow {
    var messages: seq<Message>
    var isLoading: bool

    function State(): Chat
      reads this
    {
      Chat(messages, isLoading)
    }

    ghost predicate Valid()
      reads this
    {
      WellFormed(State())
    }

    constructor ()
      ensures State() == Opened() && Valid()
    {
      messages := [GreetingMessage];
      isLoading := false;
    }

    /** `handleSubmit` up to its `await`; `sent` tells whether the AI service is called.
        The form is disabled while loading, so a submit only comes when not loading. */
    method Submit(input: string) returns (sent: bool)
      requires Valid() && !isLoading
      modifies this
      ensures State() == OnSubmit(old(State()), input)
      ensures Valid()
      ensures sent <==> !IsBlank(input)
      ensures sent ==> messages == old(messages) + [Message(User, input)] && isLoading
      ensures !sent ==> messages == old(messages) && !isLoading
    {
      TrimEmptyIffBlank(input);
      if Trim(input) == "" {
        return false;
      }
      messages, isLoading := messages + [Message(User, input)], true;
      sent := true;
    }

    /** `handleSubmit` after its `await`: the reply or the error text, then `finally`. */
    method ReceiveReply(reply: Reply<string>)
      requires Valid() && isLoading
      modifies this
      ensures State() == OnReply(old(State()), reply)
      ensures Valid()
      ensures messages == old(messages) + [Message(Assistant, AnswerText(reply))]
      ensures !isLoading
    {
      var text := Text(reply);
      if text.Some? {
        messages := messages + [Message(Assistant, text.value)];
      } else {
        messages := messages + [Message(Assistant, ErrorText)];
      }
      isLoading := false;
    }
  }
}
