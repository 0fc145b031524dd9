/** The chat endpoint: checks, the conversation handed to the Gemini chat
    session, and the mapping of the session's outcome to a reply or an HTTP
    error. The Gemini service is a parameter. */
module ChatRoute {
  import opened Wrappers
  import opened Text

  const KeyMissingMessage: string := "GEMINI_API_KEY not configured"
  const EmptyMessage: string := "Message cannot be empty"
  const ErrorPrefix: string := "Error processing chat request: "
  const ModelName: string := "gemini-2.5-flash-lite"
  const Acknowledgement: string :=
    "I understand. I'm here to help with GenAI Stack workflows and related questions."
  /** The system instruction, given to the model and also sent as the first turn. */
  const SystemPrompt: string :=
    "You are a helpful AI assistant for the GenAI Stack platform. \n"
    + "You help users understand and work with their workflow stacks, answer questions about components, \n"
    + "and provide guidance on creating and executing workflows.\n\n"
    + "When formatting responses:\n"
    + "- Use **text** for bold emphasis\n"
    + "- Use -- for em dashes (\U{2014})\n"
    + "- Use numbered lists for step-by-step instructions (1. item, 2. item, etc.)\n"
    + "- Use bullet points for lists (\U{2022} item)\n"
    + "- Keep responses clear and concise\n"
    + "- Provide practical examples when helpful\n\n"
    + "Be professional, helpful, and focused on workflow and AI topics."

  datatype Message = Message(role: string, content: string)
  datatype ChatRequest = ChatRequest(message: string, workflowId: Option<string>,
                                     conversationHistory: Option<seq<Message>>)
  datatype ChatResponse = ChatResponse(response: string, status: string)

  /** One entry of the Gemini conversation: a role and its single part. */
  datatype Turn = Turn(role: string, part: string)

  /** What the route hands to the Gemini library. */
  datatype Session = Session(modelName: string, systemInstruction: string,
                             history: seq<Turn>, sent: string)

  /** The reply object: `text` when it has one, and its `str()` form. */
  datatype Reply = Reply(text: Option<string>, repr: string)

  /** What the library call does: answer, or raise an exception with this text. */
  datatype Outcome = Replied(reply: Reply) | Raised(error: string)

  /** The roles Gemini understands: `user` stays `user`, anything else is `model`. */
  function GeminiRole(role: string): (r: string)
    ensures r == "user" || r == "model"
    ensures r == "user" <==> role == "user"
  {
    if role == "user" then "user" else "model"
  }

  /** The history turns of a request; a missing or empty history gives none. */
  function HistoryTurns(h: Option<seq<Message>>): (ts: seq<Turn>)
    ensures h.None? ==> ts == []
    ensures h.Some? ==> |ts| == |h.value|
    ensures h.Some? ==> forall i :: 0 <= i < |ts| ==>
      ts[i] == Turn(GeminiRole(h.value[i].role), h.value[i].content)
  {
    if h.None? then []
    else seq(|h.value|, i requires 0 <= i < |h.value| =>
           Turn(GeminiRole(h.value[i].role), h.value[i].content))
  }

  /** The full conversation built by the route: the system prompt as a user turn,
      the canned acknowledgement, the mapped history, then the new message. */
  function Conversation(request: ChatRequest): seq<Turn> {
    [Turn("user", SystemPrompt), Turn("model", Acknowledgement)]
      + HistoryTurns(request.conversationHistory)
      + [Turn("user", request.message)]
  }

  /** `history=messages[2:]`: the two opening turns are dropped. */
  function SessionFor(request: ChatRequest): Session {
    Session(ModelName, SystemPrompt, Conversation(request)[2..], request.message)
  }

  /** `response.text if hasattr(response, 'text') else str(response)`. */
  function ResponseText(reply: Reply): (t: string)
    ensures reply.text.Some? ==> t == reply.text.value
    ensures reply.text.None? ==> t == reply.repr
  {
    if reply.text.Some? then reply.text.value else reply.repr
  }

  /** `if not GEMINI_API_KEY`: unset or empty both count as missing. */
  predicate Configured(apiKey: Option<string>) {
    apiKey.Some? && Truthy(apiKey.value)
  }

  /** The loop that builds `messages`. */
  method BuildMessages(request: ChatRequest) returns (messages: seq<Turn>)
    ensures messages == Conversation(request)
  {
    messages := [Turn("user", SystemPrompt), Turn("model", Acknowledgement)];
    if request.conversationHistory.Some? && request.conversationHistory.value != [] {
      var history := request.conversationHistory.value;
      for i := 0 to |history|
        invariant |messages| == 2 + i
        invariant messages[..2] == [Turn("user", SystemPrompt), Turn("model", Acknowledgement)]
        invariant forall k :: 0 <= k < i ==>
          messages[2 + k] == Turn(GeminiRole(history[k].role), history[k].content)
      {
        messages := messages + [Turn(GeminiRole(history[i].role), history[i].content)];
      }
      assert messages == [Turn("user", SystemPrompt), Turn("model", Acknowledgement)]
        + HistoryTurns(request.conversationHistory);
    }
    messages := messages + [Turn("user", request.message)];
  }

  /** The conversation's shape: three fixed turns around the history, each
      history entry carried over in order with its role mapped, and only the
      two Gemini roles used. */
  lemma ConversationShape(request: ChatRequest)
    ensures var c := Conversation(request);
            var n := if request.conversationHistory.Some? then |request.conversationHistory.value| else 0;
            && |c| == 3 + n
            && c[0] == Turn("user", SystemPrompt)
            && c[1] == Turn("model", Acknowledgement)
            && c[|c| - 1] == Turn("user", request.message)
            && (forall k :: 0 <= k < n ==>
                  c[2 + k] == Turn(GeminiRole(request.conversationHistory.value[k].role),
                                   request.conversationHistory.value[k].content))
            && (forall k :: 0 <= k < |c| ==> c[k].role == "user" || c[k].role == "model")
  {
    var c := Conversation(request);
    var h := HistoryTurns(request.conversationHistory);
    forall k | 0 <= k < |c|
      ensures c[k].role == "user" || c[k].role == "model"
    {
      if 2 <= k < |c| - 1 {
        assert c[k] == h[k - 2];
      }
    }
  }

  /** The session history already ends with the new message, and the same
      message is then sent again: Gemini sees it twice in a row. */
  lemma SessionRepeatsMessage(request: ChatRequest)
    ensures var s := SessionFor(request);
            && |s.history| >= 1
            && s.history[|s.history| - 1] == Turn("user", s.sent)
            && s.sent == request.message
            && s.history == HistoryTurns(request.conversationHistory) + [Turn("user", request.message)]
  {
    var c := Conversation(request);
    assert c[2..] == HistoryTurns(request.conversationHistory) + [Turn("user", request.message)];
  }

  /** `POST /api/chat/`. `apiKey` is the environment's `GEMINI_API_KEY` and
      `gemini` the library call on the session the route builds. */
  method Chat(apiKey: Option<string>, request: ChatRequest, gemini: Session -> Outcome)
    returns (r: Result<ChatResponse>)
    ensures !Configured(apiKey) ==> r == Err(HttpError(500, KeyMissingMessage))
    ensures Configured(apiKey) && PyBlank(request.message) ==> r == Err(HttpError(400, EmptyMessage))
    ensures Configured(apiKey) && !PyBlank(request.message) ==>
      match gemini(SessionFor(request))
      case Replied(reply) => r == Ok(ChatResponse(ResponseText(reply), "success"))
      case Raised(e) => r == Err(HttpError(500, ErrorPrefix + e))
    ensures r.Ok? <==> Configured(apiKey) && !PyBlank(request.message) && gemini(SessionFor(request)).Replied?
  {
    if !Configured(apiKey) {
      return Err(HttpError(500, KeyMissingMessage));
    }
    if PyBlank(request.message) {
      return Err(HttpError(400, EmptyMessage));
    }
    var messages := BuildMessages(request);
    var session := Session(ModelName, SystemPrompt, messages[2..], request.message);
    var outcome := gemini(session);
    match outcome {
      case Replied(reply) =>
        r := Ok(ChatResponse(ResponseText(reply), "success"));
      case Raised(e) =>
        r := Err(HttpError(500, ErrorPrefix + e));
    }
  }

  datatype Health = Health(status: string, service: string, geminiConfigured: bool)

  /** `GET /api/chat/health`. */
  function ChatHealth(apiKey: Option<string>): (h: Health)
    ensures h.status == "healthy" && h.service == "Chat Service"
    ensures h.geminiConfigured <==> apiKey.Some? && apiKey.value != ""
  {
    Health("healthy", "Chat Service", Configured(apiKey))
  }
}
