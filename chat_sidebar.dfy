/** The assistant panel of frontend/src/components/chat-sidebar.tsx: an
    append-only message log fed by spoken questions, by replies of the
    analysis endpoint and by `aiAnalysis` window events, together with the
    panel's own copy of the speech-capture toggle. The panel renders no text
    input: its only way to send a question is the recognition handler. The
    asynchronous completions of the analysis request are events of their
    own. */
module ChatSidebar {
  import opened Wrappers
  import opened JsText
  import SpeechCapture

  datatype Sender = User | Bot

  /** The optional `type` of a message; the greeting and user messages have none. */
  datatype MessageType = Untyped | FeedbackType | ChatType

  /** A message id: the greeting's literal `"1"`, or a `Date.now()` reading
      (plus one for a reply), which the model keeps opaque. */
  datatype MessageId = Literal(text: string) | Millis(ms: int)

  datatype Message = Message(id: MessageId, content: string, sender: Sender, timestamp: int, kind: MessageType)

  const GreetingText := "Hi! I'm your coding assistant. How can I help with your problem?"
  const FallbackText := "I'll help you analyze your code and provide suggestions for improvement."

  /** The component's props: the editor contents and the selected problem's
      description (`None` when no problem is passed, in which case reading
      `selectedProblem.description` throws). */
  datatype Props = Props(code: string, description: Option<string>)

  /** The body of the POST to `/api/analyse`. */
  datatype AnalyseRequest = AnalyseRequest(code: string, language: string, problemDescription: string, userInput: string)

  /** How a request ended: its JSON body was parsed (with or without a
      string `feedback`), or the fetch or the parse failed. */
  datatype Reply = Parsed(feedback: Option<string>) | Failed

  /** The panel's state. `requests` lists every request sent; `pending`
      counts those not yet settled. `mountProps` are the props of the first
      render, which the recognition handler registered on mount still sees. */
  datatype Chat = Chat(
    capture: SpeechCapture.Capture,
    messages: seq<Message>,
    inputValue: string,
    requests: seq<AnalyseRequest>,
    pending: nat,
    props: Props,
    mountProps: Props)

  datatype ChatEvent =
    | Recognised(results: seq<seq<string>>, now: int)
    | Settled(reply: Reply, now: int)
    | AiAnalysis(feedback: string, now: int)
    | Rerender(newProps: Props)
    | ToggleMic
    | RecognitionError
    | RecognitionEnd

  function GreetingMessage(now: int): Message {
    Message(Literal("1"), GreetingText, Bot, now, Untyped)
  }

  /** The panel right after mounting: only the greeting in the log. */
  function Mount(props: Props, available: bool, now: int): (s: Chat)
    ensures s.messages == [GreetingMessage(now)]
    ensures s.inputValue == "" && s.requests == [] && s.pending == 0
    ensures s.capture == SpeechCapture.Mount(available)
  {
    Chat(SpeechCapture.Mount(available), [GreetingMessage(now)], "", [], 0, props, props)
  }

  /** The content of the bot's reply: `data.feedback || fallback`, so a
      missing or empty `feedback` gives the fixed fallback sentence. A reply
      is never empty. */
  function ReplyContent(feedback: Option<string>): (content: string)
    ensures content != []
    ensures feedback.Some? && feedback.value != [] ==> content == feedback.value
    ensures feedback.None? || feedback.value == [] ==> content == FallbackText
  {
    if feedback.Some? && feedback.value != [] then feedback.value else FallbackText
  }

  /** `handleSendMessage(text)` as defined in a render whose props were
      `props`: nothing for blank text; otherwise append the user's message
      (untrimmed), clear the input and, unless reading the problem
      description throws, send the request. */
  function SendMessage(s: Chat, text: string, props: Props, now: int): (r: Chat)
    ensures IsBlank(text) ==> r == s
    ensures !IsBlank(text) ==>
              && r.messages == s.messages + [Message(Millis(now), text, User, now, Untyped)]
              && r.inputValue == ""
    ensures !IsBlank(text) && props.description.Some? ==>
              r.requests == s.requests + [AnalyseRequest(props.code, "python", props.description.value, text)]
              && r.pending == s.pending + 1
    ensures IsBlank(text) || props.description.None? ==> r.requests == s.requests && r.pending == s.pending
    ensures r.capture == s.capture && r.props == s.props && r.mountProps == s.mountProps
  {
    if IsBlank(text) then s
    else
      var logged := s.(messages := s.messages + [Message(Millis(now), text, User, now, Untyped)], inputValue := "");
      match props.description
      case None => logged
      case Some(d) => logged.(requests := s.requests + [AnalyseRequest(props.code, "python", d, text)],
                              pending := s.pending + 1)
  }

  /** The recognition handler given a transcript, with the props its
      `handleSendMessage` closes over: put the transcript in the input, then
      send it. The handler is registered by an effect that runs once, so the
      `handleSendMessage` it calls is the first render's, and the props it
      sees are `mountProps`. */
  function OnTranscript(s: Chat, results: seq<seq<string>>, props: Props, now: int): Chat {
    match SpeechCapture.Transcript(results)
    case None => s
    case Some(t) => SendMessage(s.(inputValue := t), t, props, now)
  }

  /** The events the platform can deliver in state `s`: a request can only
      settle while one is pending, and recognition events only come from an
      existing instance. */
  predicate Enabled(s: Chat, e: ChatEvent) {
    match e
    case Settled(_, _) => s.pending > 0
    case Recognised(_, _) => s.capture.recognition.Some?
    case RecognitionError => s.capture.recognition.Some?
    case RecognitionEnd => s.capture.recognition.Some?
    case _ => true
  }

  /** One step of the panel. Every step either leaves the log alone or
      appends one message at its end, and a request is only ever sent for a
      spoken question, with the code and description of the first render. */
  function Apply(s: Chat, e: ChatEvent): (r: Chat)
    requires Enabled(s, e)
    ensures s.messages <= r.messages && |r.messages| <= |s.messages| + 1
    ensures r.mountProps == s.mountProps
    ensures r.requests == s.requests || |r.requests| == |s.requests| + 1
    ensures |r.requests| == |s.requests| + 1 ==>
              && e.Recognised? && s.mountProps.description.Some?
              && SpeechCapture.Transcript(e.results).Some?
              && r.requests[|s.requests|] == AnalyseRequest(s.mountProps.code, "python", s.mountProps.description.value,
                                                            SpeechCapture.Transcript(e.results).value)
    ensures e.Settled? && e.reply.Failed? ==> r.messages == s.messages && r.pending == s.pending - 1
    ensures e.Settled? && e.reply.Parsed? ==>
              r.messages == s.messages + [Message(Millis(e.now + 1), ReplyContent(e.reply.feedback), Bot, e.now, ChatType)]
    ensures e.AiAnalysis? ==> r.messages == s.messages + [Message(Millis(e.now), e.feedback, Bot, e.now, FeedbackType)]
  {
    match e
    case Recognised(results, now) => OnTranscript(s, results, s.mountProps, now)
    case Settled(reply, now) =>
      var settled := s.(pending := s.pending - 1);
      (match reply
       case Failed => settled
       case Parsed(feedback) =>
         settled.(messages := s.messages + [Message(Millis(now + 1), ReplyContent(feedback), Bot, now, ChatType)]))
    case AiAnalysis(feedback, now) =>
      s.(messages := s.messages + [Message(Millis(now), feedback, Bot, now, FeedbackType)])
    case Rerender(props) => s.(props := props)
    case ToggleMic => s.(capture := SpeechCapture.Next(s.capture, SpeechCapture.Toggle))
    case RecognitionError => s.(capture := SpeechCapture.Next(s.capture, SpeechCapture.Error))
    case RecognitionEnd => s.(capture := SpeechCapture.Next(s.capture, SpeechCapture.End))
  }

  /** `events` can be delivered one after the other from `s`. */
  predicate ValidTrace(s: Chat, events: seq<ChatEvent>)
    decreases |events|
  {
    events == [] || (Enabled(s, events[0]) && ValidTrace(Apply(s, events[0]), events[1..]))
  }

  /** The state after a valid sequence of events. */
  function RunChat(s: Chat, events: seq<ChatEvent>): Chat
    requires ValidTrace(s, events)
    decreases |events|
  {
    if events == [] then s else RunChat(Apply(s, events[0]), events[1..])
  }

  /** The log is append-only: whatever happens, the earlier log is a prefix
      of the later one, so no message is ever removed, edited or moved. */
  lemma {:induction false} LogOnlyGrows(s: Chat, events: seq<ChatEvent>)
    requires ValidTrace(s, events)
    ensures s.messages <= RunChat(s, events).messages
    decreases |events|
  {
    if events != [] {
      LogOnlyGrows(Apply(s, events[0]), events[1..]);
    }
  }

  /** The greeting stays the first message forever. */
  lemma GreetingStaysFirst(props: Props, available: bool, now: int, events: seq<ChatEvent>)
    requires ValidTrace(Mount(props, available, now), events)
    ensures |RunChat(Mount(props, available, now), events).messages| >= 1
    ensures RunChat(Mount(props, available, now), events).messages[0] == GreetingMessage(now)
  {
    LogOnlyGrows(Mount(props, available, now), events);
  }

  /** The number of messages from the user. */
  function UserCount(ms: seq<Message>): nat {
    if ms == [] then 0 else UserCount(ms[..|ms| - 1]) + (if ms[|ms| - 1].sender == User then 1 else 0)
  }

  /** The number of bot replies to requests (messages of type `chat`). */
  function ReplyCount(ms: seq<Message>): nat {
    if ms == [] then 0 else ReplyCount(ms[..|ms| - 1]) + (if ms[|ms| - 1].kind == ChatType then 1 else 0)
  }

  /** Every request was sent together with a user message, and every reply
      answers a request that is no longer pending. */
  ghost predicate Balanced(s: Chat) {
    ReplyCount(s.messages) + s.pending <= |s.requests| <= UserCount(s.messages)
  }

  lemma CountsAppend(ms: seq<Message>, m: Message)
    ensures UserCount(ms + [m]) == UserCount(ms) + (if m.sender == User then 1 else 0)
    ensures ReplyCount(ms + [m]) == ReplyCount(ms) + (if m.kind == ChatType then 1 else 0)
  {
    assert (ms + [m])[..|ms|] == ms;
  }

  lemma ApplyBalanced(s: Chat, e: ChatEvent)
    requires Enabled(s, e) && Balanced(s)
    ensures Balanced(Apply(s, e))
  {
    var r := Apply(s, e);
    if r.messages != s.messages {
      CountsAppend(s.messages, r.messages[|s.messages|]);
      assert r.messages == s.messages + [r.messages[|s.messages|]];
    }
  }

  /** From mounting on, replies never outnumber requests and requests never
      outnumber the user's messages. */
  lemma {:induction false} RunBalanced(s: Chat, events: seq<ChatEvent>)
    requires ValidTrace(s, events) && Balanced(s)
    ensures Balanced(RunChat(s, events))
    decreases |events|
  {
    if events != [] {
      ApplyBalanced(s, events[0]);
      RunBalanced(Apply(s, events[0]), events[1..]);
    }
  }

  /** The balance holds in every state the panel reaches after mounting. */
  lemma MountedBalanced(props: Props, available: bool, now: int, events: seq<ChatEvent>)
    requires ValidTrace(Mount(props, available, now), events)
    ensures Balanced(RunChat(Mount(props, available, now), events))
  {
    RunBalanced(Mount(props, available, now), events);
  }

  /** A panel whose first render had no problem description never sends a
      request, whatever happens later: every spoken question throws when the
      first render's `handleSendMessage` reads the description. This is the
      panel as the dashboard mounts it, without props. */
  lemma {:induction false} WithoutProblemNoRequests(s: Chat, events: seq<ChatEvent>)
    requires ValidTrace(s, events) && s.mountProps.description.None?
    ensures RunChat(s, events).requests == s.requests
    decreases |events|
  {
    if events != [] {
      WithoutProblemNoRequests(Apply(s, events[0]), events[1..]);
    }
  }

  /** The recognition handler as evidently intended: sending with the props
      of the latest render. */
  function RecognisedCorrected(s: Chat, results: seq<seq<string>>, now: int): Chat {
    OnTranscript(s, results, s.props, now)
  }

  /** A recognised transcript that is not blank is sent by the corrected
      handler with the props the panel has now. */
  lemma TranscriptUsesCurrentProps(s: Chat, results: seq<seq<string>>, now: int)
    requires SpeechCapture.Transcript(results).Some?
    requires !IsBlank(SpeechCapture.Transcript(results).value) && s.props.description.Some?
    ensures var r := RecognisedCorrected(s, results, now);
            |r.requests| == |s.requests| + 1
            && r.requests[|s.requests|].code == s.props.code
            && r.requests[|s.requests|].problemDescription == s.props.description.value
            && r.requests[|s.requests|].userInput == results[0][0]
  {
  }

  /** The correction keeps the log append-only and balanced. */
  lemma CorrectedKeepsBalance(s: Chat, results: seq<seq<string>>, now: int)
    requires Balanced(s)
    ensures s.messages <= RecognisedCorrected(s, results, now).messages
    ensures Balanced(RecognisedCorrected(s, results, now))
  {
    var r := RecognisedCorrected(s, results, now);
    if r.messages != s.messages {
      CountsAppend(s.messages, r.messages[|s.messages|]);
      assert r.messages == s.messages + [r.messages[|s.messages|]];
    }
  }

  /** As written, a spoken question asked after the code was edited is sent
      with the code as it was on mount, where the corrected handler sends the
      edited code. */
  lemma StaleCodeWitness()
    ensures var s0 := Mount(Props("def f(): pass", Some("Two Sum")), true, 0);
            var s1 := Apply(s0, Rerender(Props("def f(): return 1", Some("Two Sum"))));
            var s2 := Apply(s1, Recognised([["why does it fail"]], 7));
            && s2.requests == [AnalyseRequest("def f(): pass", "python", "Two Sum", "why does it fail")]
            && s2.requests[0].code != s1.props.code
            && RecognisedCorrected(s1, [["why does it fail"]], 7).requests
               == [AnalyseRequest("def f(): return 1", "python", "Two Sum", "why does it fail")]
  {
    var t := "why does it fail";
    assert t[0] == 'w' && !IsWhitespace(t[0]);
    assert !AllWhitespace(t);
  }

  /** The panel as a component whose state React updates in place. */
  class ChatPanel {
    var recognition: Option<SpeechCapture.Recognizer>
    var isRecording: bool
    var commands: seq<SpeechCapture.Command>
    var messages: seq<Message>
    var inputValue: string
    var requests: seq<AnalyseRequest>
    var pending: nat
    var props: Props
    var mountProps: Props

    function Snapshot(): Chat
      reads this
    {
      Chat(SpeechCapture.Capture(recognition, isRecording, commands),
           messages, inputValue, requests, pending, props, mountProps)
    }

    /** The first render and the mount effects. */
    constructor (props: Props, available: bool, now: int)
      ensures Snapshot() == Mount(props, available, now)
    {
      recognition := if available then Some(SpeechCapture.Configured) else None;
      isRecording := false;
      commands := [];
      messages := [GreetingMessage(now)];
      inputValue := "";
      requests := [];
      pending := 0;
      this.props := props;
      mountProps := props;
    }

    /** A later render with new props. */
    method Rerender(newProps: Props)
      modifies this
      ensures Snapshot() == Apply(old(Snapshot()), ChatEvent.Rerender(newProps))
    {
      props := newProps;
    }

    /** The body of `handleSendMessage`, with the props its render closed over. */
    method Send(text: string, closedProps: Props, now: int)
      modifies this
      ensures Snapshot() == SendMessage(old(Snapshot()), text, closedProps, now)
    {
      if IsBlank(text) {
        return;
      }
      messages := messages + [Message(Millis(now), text, User, now, Untyped)];
      inputValue := "";
      if closedProps.description.Some? {
        requests := requests + [AnalyseRequest(closedProps.code, "python", closedProps.description.value, text)];
        pending := pending + 1;
      }
    }

    /** The `.then`/`.catch` continuation of a pending request. */
    method OnAnalyseSettled(reply: Reply, now: int)
      requires pending > 0
      modifies this
      ensures Snapshot() == Apply(old(Snapshot()), Settled(reply, now))
    {
      pending := pending - 1;
      if reply.Parsed? {
        messages := messages + [Message(Millis(now + 1), ReplyContent(reply.feedback), Bot, now, ChatType)];
      }
    }

    /** The `aiAnalysis` window-event listener. */
    method OnAiAnalysis(feedback: string, now: int)
      modifies this
      ensures Snapshot() == Apply(old(Snapshot()), AiAnalysis(feedback, now))
    {
      messages := messages + [Message(Millis(now), feedback, Bot, now, FeedbackType)];
    }

    /** `toggleRecording`. */
    method ToggleRecording()
      modifies this
      ensures Snapshot() == Apply(old(Snapshot()), ToggleMic)
    {
      if recognition.None? {
        return;
      }
      if isRecording {
        commands := commands + [SpeechCapture.Stop];
      } else {
        commands := commands + [SpeechCapture.Start];
        isRecording := true;
      }
    }

    /** `recognition.onresult`, calling the first render's
        `handleSendMessage`, which sees the props of that render. */
    method OnRecognitionResult(results: seq<seq<string>>, now: int)
      requires recognition.Some?
      modifies this
      ensures Snapshot() == Apply(old(Snapshot()), Recognised(results, now))
    {
      if |results| > 0 && |results[0]| > 0 {
        var transcript := results[0][0];
        inputValue := transcript;
        Send(transcript, mountProps, now);
      }
    }

    /** `recognition.onerror`. */
    method OnRecognitionError()
      requires recognition.Some?
      modifies this
      ensures Snapshot() == Apply(old(Snapshot()), RecognitionError)
    {
      isRecording := false;
    }

    /** `recognition.onend`. */
    method OnRecognitionEnd()
      requires recognition.Some?
      modifies this
      ensures Snapshot() == Apply(old(Snapshot()), RecognitionEnd)
    {
      isRecording := false;
    }
  }
}
