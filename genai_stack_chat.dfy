/** The chat panel: its transcript, the request it sends for each message,
    how it records the answer or the failure, and the dash and line-break
    steps of the message formatter. */
module GenAIStackChat {
  import opened Wrappers
  import opened Text
  import Seqs
  import ChatRoute

  const TitleText: string := "GenAI Stack Chat"
  const SubtitleText: string := "Start a conversation to test your stack"
  const SorryText: string := "Sorry, I encountered an error. Please try again."

  /** A transcript entry; the timestamp is not modelled. */
  datatype ChatMessage = ChatMessage(role: string, content: string,
                                     isTitle: bool, isSubtitle: bool, isError: bool)

  function Plain(role: string, content: string): ChatMessage {
    ChatMessage(role, content, false, false, false)
  }

  /** The greeting the panel opens with. */
  const Greeting: seq<ChatMessage> := [
    ChatMessage("assistant", TitleText, true, false, false),
    ChatMessage("assistant", SubtitleText, false, true, false)
  ]

  /** `!m.isTitle && !m.isSubtitle`. */
  predicate IsConversation(m: ChatMessage) {
    !m.isTitle && !m.isSubtitle
  }

  function Conversational(): ChatMessage -> bool {
    m => IsConversation(m)
  }

  /** The `conversationHistory` sent with a message: the transcript without its
      headings, reduced to role and content. */
  function HistoryOf(ms: seq<ChatMessage>): (h: seq<ChatRoute.Message>)
    ensures |h| == |Seqs.Filter(ms, Conversational())|
  {
    var kept := Seqs.Filter(ms, Conversational());
    seq(|kept|, i requires 0 <= i < |kept| => ChatRoute.Message(kept[i].role, kept[i].content))
  }

  /** The greeting contributes nothing to the history. */
  lemma GreetingHasNoHistory()
    ensures HistoryOf(Greeting) == []
  {
    var g := Greeting;
    assert !IsConversation(g[0]) && !IsConversation(g[1]);
    assert g[1..][1..] == [];
    assert Seqs.Filter(g, Conversational()) == Seqs.Filter(g[1..], Conversational());
  }

  /** Appending an entry extends the history by exactly that entry when it is
      not a heading; error entries are not headings, so they are sent too. */
  lemma HistoryAppend(ms: seq<ChatMessage>, m: ChatMessage)
    ensures IsConversation(m) ==>
      HistoryOf(ms + [m]) == HistoryOf(ms) + [ChatRoute.Message(m.role, m.content)]
    ensures !IsConversation(m) ==> HistoryOf(ms + [m]) == HistoryOf(ms)
  {
    Seqs.FilterConcat(ms, [m], Conversational());
    var single := Seqs.Filter([m], Conversational());
    assert [m][1..] == [];
    assert single == if IsConversation(m) then [m] else [];
  }

  /** The reply body: `response`, and a `message` field the frontend falls back on. */
  datatype ReplyData = ReplyData(response: Option<string>, message: Option<string>)

  /** `response.data.response || response.data.message`; a missing value is shown as "". */
  function ReplyContent(d: ReplyData): (c: string)
    ensures d.response.Some? && d.response.value != "" ==> c == d.response.value
    ensures !(d.response.Some? && d.response.value != "") ==> c == d.message.GetOr("")
  {
    if d.response.Some? && Truthy(d.response.value) then d.response.value else d.message.GetOr("")
  }

  /** What the request produced: a body, or a thrown error (network failure or
      an HTTP error status). */
  datatype SendOutcome = Delivered(data: ReplyData) | Failed

  /** The entry the catch block appends. */
  const Apology: ChatMessage := ChatMessage("assistant", SorryText, false, false, true)

  /** The entry appended once the request settles: the reply, or the apology. */
  function Answer(o: SendOutcome): ChatMessage {
    match o
    case Delivered(data) => Plain("assistant", ReplyContent(data))
    case Failed => Apology
  }

  /** The apology appears exactly when the request failed: a delivered reply,
      whatever its text, is never marked as an error. */
  lemma ApologyOnlyOnFailure(o: SendOutcome)
    ensures Answer(o) == Apology <==> o.Failed?
    ensures Answer(o).isError <==> o.Failed?
  {
  }

  class ChatPanel {
    const workflowId: Option<string>
    var messages: seq<ChatMessage>
    var input: string
    var isLoading: bool

    constructor (id: Option<string>)
      ensures workflowId == id && messages == Greeting && input == "" && !isLoading
    {
      workflowId := id;
      messages := Greeting;
      input := "";
      isLoading := false;
    }

    /** The input box's `onChange`. */
    method SetInput(text: string)
      modifies this`input
      ensures input == text
    {
      input := text;
    }

    /** The synchronous half of `handleSendMessage`: a blank input does nothing;
        otherwise the user's message is appended, the box cleared, the spinner
        started, and the request built from the transcript as it was before. */
    method BeginSend() returns (request: Option<ChatRoute.ChatRequest>)
      modifies this
      ensures JsBlank(old(input)) ==>
        request == None && messages == old(messages) && input == old(input) && isLoading == old(isLoading)
      ensures !JsBlank(old(input)) ==>
        && request == Some(ChatRoute.ChatRequest(old(input), workflowId, Some(HistoryOf(old(messages)))))
        && messages == old(messages) + [Plain("user", old(input))]
        && input == ""
        && isLoading
    {
      if JsBlank(input) {
        return None;
      }
      var text := input;
      request := Some(ChatRoute.ChatRequest(text, workflowId, Some(HistoryOf(messages))));
      messages := messages + [Plain("user", text)];
      input := "";
      isLoading := true;
    }

    /** The asynchronous half: the answer, or the apology marked as an error,
        is appended, and the spinner stops either way. */
    method Finish(outcome: SendOutcome)
      modifies this
      ensures outcome.Delivered? ==>
        messages == old(messages) + [Plain("assistant", ReplyContent(outcome.data))]
      ensures outcome.Failed? ==> messages == old(messages) + [Apology]
      ensures !isLoading && input == old(input)
    {
      messages := messages + [Answer(outcome)];
      isLoading := false;
    }
  }

  /** How the panel sees the route's answer: a success body, or a thrown error
      for any HTTP error status. */
  function Receive(r: Result<ChatRoute.ChatResponse>): (o: SendOutcome)
    ensures r.Ok? ==> o == Delivered(ReplyData(Some(r.value.response), None))
    ensures r.Err? ==> o == Failed
  {
    match r
    case Ok(resp) => Delivered(ReplyData(Some(resp.response), None))
    case Err(_) => Failed
  }

  /** `handleSendMessage` as the panel is written: `chatAPI` is not among the
      API module's exports, so `chatAPI.sendMessage` throws before any request
      leaves, and every non-blank send ends with the apology. `built` is the
      request the handler assembles as the argument of that call; it is never
      sent. */
  method ExchangeAsWritten(panel: ChatPanel) returns (built: Option<ChatRoute.ChatRequest>)
    modifies panel
    ensures JsBlank(old(panel.input)) ==> built == None && panel.messages == old(panel.messages)
    ensures !JsBlank(old(panel.input)) ==>
      && built.Some?
      && panel.messages == old(panel.messages) + [Plain("user", old(panel.input)), Apology]
      && !panel.isLoading && panel.input == ""
  {
    built := panel.BeginSend();
    if built.Some? {
      panel.Finish(Failed);
    }
  }

  /** `handleSendMessage` as intended: the request goes through the chat route,
      and its answer is what the panel appends. The second new entry is the
      route's reply text when the key is configured, the message is not blank
      for the route and Gemini replies; in every other case it is the apology. */
  method Exchange(panel: ChatPanel, apiKey: Option<string>, gemini: ChatRoute.Session -> ChatRoute.Outcome)
    returns (request: Option<ChatRoute.ChatRequest>)
    modifies panel
    ensures JsBlank(old(panel.input)) ==> request == None && panel.messages == old(panel.messages)
    ensures !JsBlank(old(panel.input)) ==>
      && request == Some(ChatRoute.ChatRequest(old(panel.input), panel.workflowId, Some(HistoryOf(old(panel.messages)))))
      && |panel.messages| == |old(panel.messages)| + 2
      && panel.messages[..|old(panel.messages)|] == old(panel.messages)
      && panel.messages[|old(panel.messages)|] == Plain("user", old(panel.input))
      && !panel.isLoading && panel.input == ""
    ensures request.Some? ==>
      var outcome := gemini(ChatRoute.SessionFor(request.value));
      panel.messages[|old(panel.messages)| + 1] ==
        if ChatRoute.Configured(apiKey) && !PyBlank(request.value.message) && outcome.Replied?
        then Plain("assistant", ChatRoute.ResponseText(outcome.reply))
        else Apology
  {
    request := panel.BeginSend();
    if request.Some? {
      var result := ChatRoute.Chat(apiKey, request.value, gemini);
      panel.Finish(Receive(result));
    }
  }

  /** The panel and the route disagree on what is blank: a lone U+001C passes
      the panel's `trim()` test, so it is sent, and the route's `strip()`
      rejects it with a 400, which the panel shows as its apology. */
  lemma BlankRulesDisagree()
    ensures !JsBlank("\U{1c}") && PyBlank("\U{1c}")
    ensures !PyBlank("\U{feff}") && JsBlank("\U{feff}")
  {
    assert "\U{1c}"[0] == '\U{1c}';
    assert "\U{feff}"[0] == '\U{feff}';
  }

  // ---- formatting: the em-dash and line-break replacements ------------------

  /** `text.replace(/--/g, '—')`: left to right, without overlaps. */
  function EmDashes(s: string): string
    decreases |s|
  {
    if |s| >= 2 && s[0] == '-' && s[1] == '-' then "\U{2014}" + EmDashes(s[2..])
    else if s == [] then []
    else [s[0]] + EmDashes(s[1..])
  }

  /** `text.replace(/\n/g, '<br />')`. */
  function LineBreaks(s: string): string
    decreases |s|
  {
    if s == [] then []
    else (if s[0] == '\n' then "<br />" else [s[0]]) + LineBreaks(s[1..])
  }

  /** No `--` anywhere in `s`. */
  predicate NoDoubleDash(s: string) {
    forall i :: 0 <= i < |s| - 1 ==> !(s[i] == '-' && s[i + 1] == '-')
  }

  /** After the em-dash step no `--` is left. */
  lemma {:induction false} EmDashesRemoveDoubleDash(s: string)
    ensures NoDoubleDash(EmDashes(s))
    decreases |s|
  {
    if |s| >= 2 && s[0] == '-' && s[1] == '-' {
      EmDashesRemoveDoubleDash(s[2..]);
      var r := EmDashes(s);
      assert r == "\U{2014}" + EmDashes(s[2..]);
      forall i | 0 <= i < |r| - 1 ensures !(r[i] == '-' && r[i + 1] == '-') {
        if i > 0 {
          assert r[i] == EmDashes(s[2..])[i - 1];
        }
      }
    } else if s != [] {
      EmDashesRemoveDoubleDash(s[1..]);
      var r := EmDashes(s);
      var t := EmDashes(s[1..]);
      assert r == [s[0]] + t;
      forall i | 0 <= i < |r| - 1 ensures !(r[i] == '-' && r[i + 1] == '-') {
        if i > 0 {
          assert r[i] == t[i - 1] && r[i + 1] == t[i];
        }
      }
    }
  }

  /** A text without `--` passes the em-dash step unchanged, so the step is idempotent. */
  lemma {:induction false} EmDashesIdentity(s: string)
    requires NoDoubleDash(s)
    ensures EmDashes(s) == s
    decreases |s|
  {
    if s != [] {
      assert !(|s| >= 2 && s[0] == '-' && s[1] == '-');
      assert NoDoubleDash(s[1..]) by {
        forall i | 0 <= i < |s[1..]| - 1 ensures !(s[1..][i] == '-' && s[1..][i + 1] == '-') {
          assert s[1..][i] == s[i + 1] && s[1..][i + 1] == s[i + 2];
        }
      }
      EmDashesIdentity(s[1..]);
    }
  }

  lemma {:induction false} LineBreaksHead(s: string)
    requires s != []
    ensures LineBreaks(s) != []
    ensures LineBreaks(s)[0] == (if s[0] == '\n' then '<' else s[0])
  {
  }

  /** After the line-break step no newline is left, and no `--` is created. */
  lemma {:induction false} LineBreaksClean(s: string)
    ensures '\n' !in LineBreaks(s)
    ensures NoDoubleDash(s) ==> NoDoubleDash(LineBreaks(s))
    decreases |s|
  {
    if s != [] {
      var piece: string := if s[0] == '\n' then "<br />" else [s[0]];
      var t := LineBreaks(s[1..]);
      var r := LineBreaks(s);
      assert r == piece + t;
      assert NoDoubleDash(s) ==> NoDoubleDash(s[1..]) by {
        if NoDoubleDash(s) {
          forall i | 0 <= i < |s[1..]| - 1 ensures !(s[1..][i] == '-' && s[1..][i + 1] == '-') {
            assert s[1..][i] == s[i + 1] && s[1..][i + 1] == s[i + 2];
          }
        }
      }
      LineBreaksClean(s[1..]);
      if NoDoubleDash(s) {
        forall i | 0 <= i < |r| - 1 ensures !(r[i] == '-' && r[i + 1] == '-') {
          if i >= |piece| {
            assert r[i] == t[i - |piece|] && r[i + 1] == t[i + 1 - |piece|];
          } else if i == |piece| - 1 && r[i] == '-' {
            assert piece == [s[0]] && s[0] == '-';
            LineBreaksHead(s[1..]);
            assert r[i + 1] == t[0];
          }
        }
      }
    }
  }

  /** The two steps in the formatter's order. */
  function DashesAndBreaks(text: string): string {
    LineBreaks(EmDashes(text))
  }

  /** A formatted message has neither a `--` nor a raw newline. */
  lemma FormattedIsClean(text: string)
    ensures NoDoubleDash(DashesAndBreaks(text))
    ensures '\n' !in DashesAndBreaks(text)
  {
    EmDashesRemoveDoubleDash(text);
    LineBreaksClean(EmDashes(text));
  }
}
