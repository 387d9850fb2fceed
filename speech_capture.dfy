/** The speech-capture toggle of frontend/src/hooks/useSpeechRecognition.ts
    (and of its inlined copy in the chat sidebar): an Idle/Listening state
    machine over one single-utterance recognition instance, driven by the
    toggle button and by the instance's `result`, `error` and `end` events. */
module SpeechCapture {
  import opened Wrappers

  /** A call the controller makes on the recognition instance. */
  datatype Command = Start | Stop

  /** The configuration of the recognition instance. */
  datatype Recognizer = Recognizer(continuous: bool, interimResults: bool, lang: string)

  /** How the instance is configured on mount: one utterance, final results
      only, US English. */
  const Configured := Recognizer(false, false, "en-US")

  /** The controller's state: the instance (absent when the platform has no
      recognition constructor), `isRecording`, and the calls made on the
      instance so far. */
  datatype Capture = Capture(recognition: Option<Recognizer>, isRecording: bool, commands: seq<Command>)

  /** What can happen to the controller. A `Result` carries the event's
      `results` list, each result a list of alternative transcripts. */
  datatype Event = Toggle | Result(results: seq<seq<string>>) | Error | End

  /** The state after mounting, with or without the platform capability. */
  function Mount(available: bool): (c: Capture)
    ensures c.recognition.Some? <==> available
    ensures c.recognition.Some? ==> c.recognition.value == Configured
    ensures !c.isRecording && c.commands == []
  {
    Capture(if available then Some(Configured) else None, false, [])
  }

  /** The transcript a `result` event hands to the callback: the first
      alternative of the first result. With no such alternative the handler
      throws before calling anything. */
  function Transcript(results: seq<seq<string>>): (t: Option<string>)
    ensures t.Some? <==> |results| > 0 && |results[0]| > 0
    ensures t.Some? ==> t.value == results[0][0]
  {
    if |results| > 0 && |results[0]| > 0 then Some(results[0][0]) else None
  }

  /** One step of the state machine. */
  function Next(c: Capture, e: Event): (c': Capture)
    ensures c'.recognition == c.recognition
    // without an instance nothing ever happens
    ensures c.recognition.None? ==> c' == c
    // toggling while idle starts the instance and sets the flag
    ensures e.Toggle? && c.recognition.Some? && !c.isRecording ==>
              c'.isRecording && c'.commands == c.commands + [Start]
    // toggling while recording stops the instance but leaves the flag set
    ensures e.Toggle? && c.recognition.Some? && c.isRecording ==>
              c'.isRecording && c'.commands == c.commands + [Stop]
    // error and end return to Idle whatever the prior state
    ensures (e.Error? || e.End?) && c.recognition.Some? ==>
              !c'.isRecording && c'.commands == c.commands
    // a result never changes the state
    ensures e.Result? ==> c' == c
  {
    if c.recognition.None? then c
    else
      match e
      case Toggle =>
        if c.isRecording then c.(commands := c.commands + [Stop])
        else c.(isRecording := true, commands := c.commands + [Start])
      case Result(_) => c
      case Error => c.(isRecording := false)
      case End => c.(isRecording := false)
  }

  /** The transcript `e` delivers to the callback in state `c`, if any. */
  function Delivered(c: Capture, e: Event): (t: Option<string>)
    ensures t.Some? ==> e.Result? && c.recognition.Some?
  {
    if c.recognition.Some? && e.Result? then Transcript(e.results) else None
  }

  /** The state after a sequence of events. */
  function Run(c: Capture, events: seq<Event>): Capture
    decreases |events|
  {
    if events == [] then c else Run(Next(c, events[0]), events[1..])
  }

  /** The transcripts delivered along a sequence of events, in order. */
  function Transcripts(c: Capture, events: seq<Event>): seq<string>
    decreases |events|
  {
    if events == [] then []
    else
      var t := Delivered(c, events[0]);
      (if t.Some? then [t.value] else []) + Transcripts(Next(c, events[0]), events[1..])
  }

  /** Without the platform capability the toggle is inert: no event sequence
      ever starts the instance, sets the flag or delivers a transcript. */
  lemma {:induction false} InertWithoutCapability(events: seq<Event>)
    ensures Run(Mount(false), events) == Mount(false)
    ensures Transcripts(Mount(false), events) == []
    decreases |events|
  {
    if events != [] {
      InertWithoutCapability(events[1..]);
    }
  }

  /** The invariant of every reachable state: without an instance nothing
      was ever called; the first call made is always `start`, and while the
      flag is set `start` has been called. */
  ghost predicate Consistent(c: Capture) {
    && (c.recognition.None? ==> !c.isRecording && c.commands == [])
    && (c.commands != [] ==> c.commands[0] == Start)
    && (c.isRecording ==> c.commands != [])
  }

  lemma NextConsistent(c: Capture, e: Event)
    requires Consistent(c)
    ensures Consistent(Next(c, e))
  {
  }

  /** Every state reachable from mounting is consistent: the controller
      never stops an instance it has not started. */
  lemma {:induction false} ReachableConsistent(c: Capture, events: seq<Event>)
    requires Consistent(c)
    ensures Consistent(Run(c, events))
    decreases |events|
  {
    if events != [] {
      NextConsistent(c, events[0]);
      ReachableConsistent(Next(c, events[0]), events[1..]);
    }
  }

  /** At most one transcript per `result` event: the callback runs no more
      often than the instance reports results. */
  lemma {:induction false} TranscriptsBoundedByResults(c: Capture, events: seq<Event>)
    ensures |Transcripts(c, events)| <= |ResultEvents(events)|
    decreases |events|
  {
    if events != [] {
      TranscriptsBoundedByResults(Next(c, events[0]), events[1..]);
    }
  }

  /** The `result` events among `events`. */
  function ResultEvents(events: seq<Event>): seq<Event>
    decreases |events|
  {
    if events == [] then []
    else (if events[0].Result? then [events[0]] else []) + ResultEvents(events[1..])
  }

  /** The hook's state and callbacks, updated in place. `delivered` lists the
      transcripts passed to the `onResult` callback so far. */
  class SpeechRecognitionHook {
    var recognition: Option<Recognizer>
    var isRecording: bool
    var commands: seq<Command>
    var delivered: seq<string>

    function State(): Capture
      reads this
    {
      Capture(recognition, isRecording, commands)
    }

    /** The mount effect: create and configure the instance when the platform
        offers one. */
    constructor (available: bool)
      ensures State() == Mount(available) && delivered == []
    {
      if available {
        recognition := Some(Recognizer(false, false, "en-US"));
      } else {
        recognition := None;
      }
      isRecording := false;
      commands := [];
      delivered := [];
    }

    /** `toggleRecording`. */
    method ToggleRecording()
      modifies this
      ensures State() == Next(old(State()), Toggle)
      ensures delivered == old(delivered)
    {
      if recognition.None? {
        return;
      }
      if isRecording {
        commands := commands + [Stop];
      } else {
        commands := commands + [Start];
        isRecording := true;
      }
    }

    /** `onresult`: hand the transcript to the callback. */
    method OnResult(results: seq<seq<string>>)
      requires recognition.Some?
      modifies this
      ensures State() == Next(old(State()), Result(results))
      ensures delivered == old(delivered) + (var t := Delivered(old(State()), Result(results));
                                             if t.Some? then [t.value] else [])
    {
      if |results| > 0 && |results[0]| > 0 {
        delivered := delivered + [results[0][0]];
      }
    }

    /** `onerror`. */
    method OnError()
      requires recognition.Some?
      modifies this
      ensures State() == Next(old(State()), Error)
      ensures delivered == old(delivered)
    {
      isRecording := false;
    }

    /** `onend`. */
    method OnEnd()
      requires recognition.Some?
      modifies this
      ensures State() == Next(old(State()), End)
      ensures delivered == old(delivered)
    {
      isRecording := false;
    }
  }
}
