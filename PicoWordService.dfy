/** PicoWordService: one shared VoiceProcessor whose audio frames go either to
    the wake-word listener (Porcupine) or to the transcript listener (Cheetah).
    A detected wake word hands the microphone to the transcript listener; an
    endpoint hands it back, after sending the whole utterance to the UI.
    The engines are not modelled: what Porcupine and Cheetah answer for a
    frame, or the exception they throw, is an input. */
module PicoWordService {
  import opened Platform
  import MainActivity

  /** The two frame listeners onCreate builds. */
  datatype Listener = WakeWordListener | TranscriptListener

  /** An engine's frame length and sample rate. */
  datatype FrameConfig = FrameConfig(frameLength: int, sampleRate: int)

  /** The frame configurations of the two engines. */
  datatype Engines = Engines(porcupine: FrameConfig, cheetah: FrameConfig)
  {
    /** The condition under which a hand-off restarts the processor. */
    predicate Differ()
    {
      porcupine.frameLength != cheetah.frameLength || porcupine.sampleRate != cheetah.sampleRate
    }
  }

  /** Whether the VoiceProcessor records, and with which configuration. */
  datatype Processor = Stopped | Running(config: FrameConfig)

  /** A call the service makes on the VoiceProcessor. */
  datatype Call = ClearFrameListeners | AddFrameListener(listener: Listener) | Stop | Start(config: FrameConfig)

  /** What the service sends to MainActivity (sendError, sendWakeWordDetected,
      sendPartialSpeech, sendFullSpeech). */
  datatype Event = Error(message: string) | WakeWordDetected | PartialSpeech(speech: string) | FullSpeech(utterance: string)

  /** Cheetah's answer for one frame: a partial transcript and whether an
      endpoint was detected. */
  datatype Partial = Partial(transcript: string, isEndpoint: bool)

  /** What the engines would answer for one audio frame: `porcupine.process`,
      `cheetah.process` and `cheetah.flush`, each a value or an exception. Only
      the registered listener's calls are made. */
  datatype Frame = Frame(keywordIndex: Result<int>, partial: Result<Partial>, flushed: Result<Option<string>>)

  /** The service's state: the processor's registered listeners and recording
      state, the transcript builder, the events sent so far, and every call
      made on the processor so far. */
  datatype ServiceState = ServiceState(listeners: seq<Listener>, processor: Processor, transcript: string,
                                       events: seq<Event>, calls: seq<Call>)

  /** The registered listeners after one call. */
  function AfterCall(listeners: seq<Listener>, c: Call): seq<Listener>
  {
    match c
    case ClearFrameListeners => []
    case AddFrameListener(l) => listeners + [l]
    case _ => listeners
  }

  /** The processor's recording state after one call. */
  function ProcessorAfterCall(p: Processor, c: Call): Processor
  {
    match c
    case Stop => Stopped
    case Start(config) => Running(config)
    case _ => p
  }

  /** The registered listeners after a run of calls on a fresh processor. */
  function ListenersAfter(calls: seq<Call>): seq<Listener>
    decreases |calls|
  {
    if calls == [] then [] else AfterCall(ListenersAfter(calls[..|calls| - 1]), calls[|calls| - 1])
  }

  /** The recording state after a run of calls on a fresh processor. */
  function ProcessorAfter(calls: seq<Call>): Processor
    decreases |calls|
  {
    if calls == [] then Stopped else ProcessorAfterCall(ProcessorAfter(calls[..|calls| - 1]), calls[|calls| - 1])
  }

  /** At no moment of a run of calls are two listeners registered: neither
      after the last call nor after any earlier one. */
  ghost predicate NeverTwoListeners(calls: seq<Call>)
    decreases |calls|
  {
    && |ListenersAfter(calls)| <= 1
    && (calls != [] ==> NeverTwoListeners(calls[..|calls| - 1]))
  }

  /** NeverTwoListeners speaks of every prefix of the calls. */
  lemma {:induction false} NeverTwoAtAnyPrefix(calls: seq<Call>, i: nat)
    requires NeverTwoListeners(calls)
    requires i <= |calls|
    ensures |ListenersAfter(calls[..i])| <= 1
    decreases |calls|
  {
    if i == |calls| {
      assert calls[..i] == calls;
    } else {
      var shorter := calls[..|calls| - 1];
      assert calls[..i] == shorter[..i];
      NeverTwoAtAnyPrefix(shorter, i);
    }
  }

  /** The transcript builder's expected content: the partial transcripts
      sent since the last wake word or full speech, errors skipped. */
  function Transcribed(events: seq<Event>): string
    decreases |events|
  {
    if events == [] then ""
    else
      var before := events[..|events| - 1];
      match events[|events| - 1]
      case WakeWordDetected => ""
      case FullSpeech(_) => ""
      case PartialSpeech(t) => Transcribed(before) + t
      case Error(_) => Transcribed(before)
  }

  /** The service invariant. The listeners and recording state are those the
      recorded calls produce, two listeners were never registered at once,
      the builder holds what Transcribed says, and the service is in one of
      two modes: waiting for the wake word with Porcupine's configuration and
      an empty builder, or transcribing with Cheetah's configuration. */
  ghost predicate Invariant(e: Engines, s: ServiceState)
  {
    && s.listeners == ListenersAfter(s.calls)
    && s.processor == ProcessorAfter(s.calls)
    && NeverTwoListeners(s.calls)
    && s.transcript == Transcribed(s.events)
    && ((s.listeners == [WakeWordListener] && s.processor == Running(e.porcupine) && s.transcript == "")
        || (s.listeners == [TranscriptListener] && s.processor == Running(e.cheetah)))
  }

  /** The end of onCreate: the wake-word listener is added and the processor
      started with Porcupine's configuration. */
  function OnCreate(e: Engines): (s: ServiceState)
    ensures Invariant(e, s)
    ensures s.listeners == [WakeWordListener] && s.processor == Running(e.porcupine)
    ensures s.transcript == "" && s.events == []
  {
    var added := [AddFrameListener(WakeWordListener)];
    var none: seq<Call> := [];
    AppendCall(none, AddFrameListener(WakeWordListener));
    assert none + added == added;
    AppendCall(added, Start(e.porcupine));
    ServiceState([WakeWordListener], Running(e.porcupine), "", [], added + [Start(e.porcupine)])
  }

  /** The shared hand-off: clear the listeners, restart the processor with
      `config` if the engines differ, add `to`. */
  function HandOff(e: Engines, s: ServiceState, to: Listener, config: FrameConfig): (r: ServiceState)
    ensures s.calls <= r.calls
    ensures Stop in r.calls[|s.calls|..] <==> e.Differ()
  {
    var cleared := s.calls + [ClearFrameListeners];
    var made := if e.Differ() then cleared + [Stop] + [Start(config)] + [AddFrameListener(to)]
                else cleared + [AddFrameListener(to)];
    assert made[|s.calls|..] == if e.Differ() then [ClearFrameListeners, Stop, Start(config), AddFrameListener(to)]
                                else [ClearFrameListeners, AddFrameListener(to)];
    s.(listeners := [to],
       processor := if e.Differ() then Running(config) else s.processor,
       calls := made)
  }

  /** The wake-word listener's callback. Index 0 sends the wake-word event
      and hands the processor to the transcript listener, restarting it with
      Cheetah's configuration exactly when the engines differ; any other index
      changes nothing; an exception sends its string as an error and changes
      nothing else. */
  function OnWakeWordFrame(e: Engines, s: ServiceState, index: Result<int>): (r: ServiceState)
    ensures index.Err? ==> r == s.(events := s.events + [Error(index.error.ToString())])
    ensures index.Ok? && index.value != 0 ==> r == s
    ensures index == Ok(0) ==>
              && r.events == s.events + [WakeWordDetected]
              && r.listeners == [TranscriptListener]
              && r.transcript == s.transcript
              && s.calls <= r.calls
              && (Stop in r.calls[|s.calls|..] <==> e.Differ())
              && r.processor == (if e.Differ() then Running(e.cheetah) else s.processor)
  {
    match index
    case Err(ex) => s.(events := s.events + [Error(ex.ToString())])
    case Ok(i) =>
      if i == 0 then HandOff(e, s.(events := s.events + [WakeWordDetected]), TranscriptListener, e.cheetah)
      else s
  }

  /** The transcript listener's callback. Every partial result is sent and
      appended to the builder; without an endpoint nothing else
      changes. At an endpoint the flushed transcript (null as "null") is
      appended, the whole builder is sent as the full speech, the builder is
      cleared, and the processor is handed back to the wake-word listener,
      restarted with Porcupine's configuration exactly when the engines
      differ. An exception sends its string as an error and leaves the
      listeners as they were. */
  function OnTranscriptFrame(e: Engines, s: ServiceState, partial: Result<Partial>,
                             flushed: Result<Option<string>>): (r: ServiceState)
    ensures partial.Err? ==> r == s.(events := s.events + [Error(partial.error.ToString())])
    ensures partial.Ok? && !partial.value.isEndpoint ==>
              r == s.(transcript := s.transcript + partial.value.transcript,
                      events := s.events + [PartialSpeech(partial.value.transcript)])
    ensures partial.Ok? && partial.value.isEndpoint && flushed.Err? ==>
              r == s.(transcript := s.transcript + partial.value.transcript,
                      events := s.events + [PartialSpeech(partial.value.transcript)]
                                + [Error(flushed.error.ToString())])
    ensures partial.Ok? && partial.value.isEndpoint && flushed.Ok? ==>
              && r.events == s.events + [PartialSpeech(partial.value.transcript)]
                                + [FullSpeech(s.transcript + partial.value.transcript
                                                    + JavaString(flushed.value))]
              && r.transcript == ""
              && r.listeners == [WakeWordListener]
              && s.calls <= r.calls
              && (Stop in r.calls[|s.calls|..] <==> e.Differ())
              && r.processor == (if e.Differ() then Running(e.porcupine) else s.processor)
  {
    match partial
    case Err(ex) => s.(events := s.events + [Error(ex.ToString())])
    case Ok(p) =>
      var heard := s.(transcript := s.transcript + p.transcript,
                      events := s.events + [PartialSpeech(p.transcript)]);
      if !p.isEndpoint then heard
      else
        match flushed
        case Err(ex) => heard.(events := heard.events + [Error(ex.ToString())])
        case Ok(t) =>
          var full := heard.transcript + JavaString(t);
          HandOff(e, heard.(transcript := "", events := heard.events + [FullSpeech(full)]),
                  WakeWordListener, e.porcupine)
  }

  /** One call more: its effect on listeners and recording state, and two
      listeners are still never registered if the call leaves at most one. */
  lemma AppendCall(calls: seq<Call>, c: Call)
    requires NeverTwoListeners(calls)
    requires |AfterCall(ListenersAfter(calls), c)| <= 1
    ensures ListenersAfter(calls + [c]) == AfterCall(ListenersAfter(calls), c)
    ensures ProcessorAfter(calls + [c]) == ProcessorAfterCall(ProcessorAfter(calls), c)
    ensures NeverTwoListeners(calls + [c])
  {
    assert (calls + [c])[..|calls|] == calls;
  }

  /** A hand-off without a restart: the clear comes before the add, so two
      listeners are never registered, and the recording state stays. */
  lemma ClearThenAdd(calls: seq<Call>, to: Listener)
    requires NeverTwoListeners(calls)
    ensures var made := calls + [ClearFrameListeners] + [AddFrameListener(to)];
            && ListenersAfter(made) == [to]
            && ProcessorAfter(made) == ProcessorAfter(calls)
            && NeverTwoListeners(made)
  {
    AppendCall(calls, ClearFrameListeners);
    AppendCall(calls + [ClearFrameListeners], AddFrameListener(to));
  }

  /** A hand-off with a restart: the same, and the processor records with
      the new configuration. */
  lemma ClearRestartAdd(calls: seq<Call>, to: Listener, config: FrameConfig)
    requires NeverTwoListeners(calls)
    ensures var made := calls + [ClearFrameListeners] + [Stop] + [Start(config)] + [AddFrameListener(to)];
            && ListenersAfter(made) == [to]
            && ProcessorAfter(made) == Running(config)
            && NeverTwoListeners(made)
  {
    var cleared := calls + [ClearFrameListeners];
    AppendCall(calls, ClearFrameListeners);
    AppendCall(cleared, Stop);
    AppendCall(cleared + [Stop], Start(config));
    AppendCall(cleared + [Stop] + [Start(config)], AddFrameListener(to));
  }

  /** A hand-off keeps the recorded calls in step with the listeners and
      recording state, and never registers two listeners. */
  lemma HandOffKeepsCallsInStep(e: Engines, s: ServiceState, to: Listener, config: FrameConfig)
    requires s.processor == ProcessorAfter(s.calls)
    requires NeverTwoListeners(s.calls)
    ensures var r := HandOff(e, s, to, config);
            && r.listeners == ListenersAfter(r.calls)
            && r.processor == ProcessorAfter(r.calls)
            && NeverTwoListeners(r.calls)
  {
    if e.Differ() {
      ClearRestartAdd(s.calls, to, config);
    } else {
      ClearThenAdd(s.calls, to);
    }
  }

  /** What Transcribed makes of one more event. */
  lemma TranscribedAppend(events: seq<Event>, ev: Event)
    ensures ev.WakeWordDetected? || ev.FullSpeech? ==> Transcribed(events + [ev]) == ""
    ensures ev.PartialSpeech? ==> Transcribed(events + [ev]) == Transcribed(events) + ev.speech
    ensures ev.Error? ==> Transcribed(events + [ev]) == Transcribed(events)
  {
    assert (events + [ev])[..|events|] == events;
  }

  /** When the engines agree, they have the same configuration. */
  lemma SameConfig(e: Engines)
    requires !e.Differ()
    ensures e.porcupine == e.cheetah
  {
  }

  /** The wake-word callback keeps the invariant. */
  lemma WakeWordFrameKeepsInvariant(e: Engines, s: ServiceState, index: Result<int>)
    requires Invariant(e, s) && s.listeners == [WakeWordListener]
    ensures Invariant(e, OnWakeWordFrame(e, s, index))
  {
    match index
    case Err(ex) =>
      TranscribedAppend(s.events, Error(ex.ToString()));
    case Ok(i) =>
      if i == 0 {
        var s' := s.(events := s.events + [WakeWordDetected]);
        TranscribedAppend(s.events, WakeWordDetected);
        HandOffKeepsCallsInStep(e, s', TranscriptListener, e.cheetah);
        if !e.Differ() { SameConfig(e); }
      }
  }

  /** Appending a partial transcript, while transcribing, keeps the invariant. */
  lemma HeardKeepsInvariant(e: Engines, s: ServiceState, t: string)
    requires Invariant(e, s) && s.listeners == [TranscriptListener]
    ensures Invariant(e, s.(transcript := s.transcript + t, events := s.events + [PartialSpeech(t)]))
  {
    TranscribedAppend(s.events, PartialSpeech(t));
  }

  /** An endpoint whose flush succeeds keeps the invariant. */
  lemma EndpointKeepsInvariant(e: Engines, s: ServiceState, t: string, flushed: Option<string>)
    requires Invariant(e, s) && s.listeners == [TranscriptListener]
    ensures Invariant(e, OnTranscriptFrame(e, s, Ok(Partial(t, true)), Ok(flushed)))
  {
    var heard := s.(transcript := s.transcript + t, events := s.events + [PartialSpeech(t)]);
    var full := heard.transcript + JavaString(flushed);
    var spoken := heard.(transcript := "", events := heard.events + [FullSpeech(full)]);
    TranscribedAppend(heard.events, FullSpeech(full));
    HeardKeepsInvariant(e, s, t);
    HandOffKeepsCallsInStep(e, spoken, WakeWordListener, e.porcupine);
    if !e.Differ() { SameConfig(e); }
  }

  /** The transcript callback keeps the invariant. */
  lemma TranscriptFrameKeepsInvariant(e: Engines, s: ServiceState, partial: Result<Partial>,
                                      flushed: Result<Option<string>>)
    requires Invariant(e, s) && s.listeners == [TranscriptListener]
    ensures Invariant(e, OnTranscriptFrame(e, s, partial, flushed))
  {
    match partial
    case Err(ex) =>
      TranscribedAppend(s.events, Error(ex.ToString()));
    case Ok(p) =>
      HeardKeepsInvariant(e, s, p.transcript);
      if p.isEndpoint {
        match flushed
        case Err(ex) =>
          TranscribedAppend(s.events + [PartialSpeech(p.transcript)], Error(ex.ToString()));
        case Ok(t) =>
          EndpointKeepsInvariant(e, s, p.transcript, t);
      }
  }

  /** What the VoiceProcessor does with one frame: it hands it to the
      registered listener. The invariant guarantees there is exactly one. */
  function Deliver(e: Engines, s: ServiceState, f: Frame): ServiceState
  {
    if s.listeners == [WakeWordListener] then OnWakeWordFrame(e, s, f.keywordIndex)
    else if s.listeners == [TranscriptListener] then OnTranscriptFrame(e, s, f.partial, f.flushed)
    else s
  }

  /** The service after a stream of frames. */
  function RunFrames(e: Engines, s: ServiceState, frames: seq<Frame>): ServiceState
    decreases |frames|
  {
    if frames == [] then s else RunFrames(e, Deliver(e, s, frames[0]), frames[1..])
  }

  /** Every stream of frames keeps the invariant. */
  lemma {:induction false} RunKeepsInvariant(e: Engines, s: ServiceState, frames: seq<Frame>)
    requires Invariant(e, s)
    ensures Invariant(e, RunFrames(e, s, frames))
    decreases |frames|
  {
    if frames != [] {
      var f := frames[0];
      if s.listeners == [WakeWordListener] {
        WakeWordFrameKeepsInvariant(e, s, f.keywordIndex);
      } else {
        TranscriptFrameKeepsInvariant(e, s, f.partial, f.flushed);
      }
      RunKeepsInvariant(e, Deliver(e, s, f), frames[1..]);
    }
  }

  /** From onCreate on, whatever the engines answer: the processor never had
      two listeners at once, exactly one is registered now, and it records
      with that listener's engine configuration. */
  lemma NeverBothListeners(e: Engines, frames: seq<Frame>)
    ensures var s := RunFrames(e, OnCreate(e), frames);
            && NeverTwoListeners(s.calls)
            && ((s.listeners == [WakeWordListener] && s.processor == Running(e.porcupine))
                || (s.listeners == [TranscriptListener] && s.processor == Running(e.cheetah)))
  {
    RunKeepsInvariant(e, OnCreate(e), frames);
  }

  /** At an endpoint the full speech sent is every partial transcript sent
      since the wake word (errors skipped), then this frame's
      partial, then the flushed transcript. */
  lemma EndpointSendsUtterance(e: Engines, s: ServiceState, t: string, flushed: Option<string>)
    requires Invariant(e, s) && s.listeners == [TranscriptListener]
    ensures OnTranscriptFrame(e, s, Ok(Partial(t, true)), Ok(flushed)).events
         == s.events + [PartialSpeech(t)] + [FullSpeech(Transcribed(s.events) + t + JavaString(flushed))]
  {
  }

  /** A frame Cheetah transcribes without an endpoint. */
  predicate Quiet(f: Frame)
  {
    f.partial.Ok? && !f.partial.value.isEndpoint
  }

  /** The partial transcripts of a run of frames, concatenated. */
  function Heard(frames: seq<Frame>): string
    requires forall k | 0 <= k < |frames| :: Quiet(frames[k])
    decreases |frames|
  {
    if frames == [] then ""
    else
      assert Quiet(frames[0]);
      frames[0].partial.value.transcript + Heard(frames[1..])
  }

  /** The partial-speech events a run of frames sends. */
  function PartialEvents(frames: seq<Frame>): (events: seq<Event>)
    requires forall k | 0 <= k < |frames| :: Quiet(frames[k])
    ensures |events| == |frames|
    ensures forall k | 0 <= k < |frames| :: frames[k].partial.Ok? && events[k] == PartialSpeech(frames[k].partial.value.transcript)
    decreases |frames|
  {
    if frames == [] then []
    else
      assert Quiet(frames[0]);
      [PartialSpeech(frames[0].partial.value.transcript)] + PartialEvents(frames[1..])
  }

  /** A frame without an endpoint, while transcribing, only sends its
      partial transcript and appends it to the builder. */
  lemma QuietFrame(e: Engines, s: ServiceState, f: Frame)
    requires s.listeners == [TranscriptListener] && Quiet(f)
    ensures Deliver(e, s, f)
         == s.(transcript := s.transcript + f.partial.value.transcript,
               events := s.events + [PartialSpeech(f.partial.value.transcript)])
  {
  }

  /** Frames without an endpoint, while transcribing, only send their partial
      transcripts and append them to the builder. */
  lemma {:induction false} QuietFramesAppend(e: Engines, s: ServiceState, frames: seq<Frame>)
    requires s.listeners == [TranscriptListener]
    requires forall k | 0 <= k < |frames| :: Quiet(frames[k])
    ensures RunFrames(e, s, frames)
         == s.(transcript := s.transcript + Heard(frames), events := s.events + PartialEvents(frames))
    decreases |frames|
  {
    if frames != [] {
      var f := frames[0];
      assert Quiet(f);
      var t := f.partial.value.transcript;
      QuietFrame(e, s, f);
      var next := s.(transcript := s.transcript + t, events := s.events + [PartialSpeech(t)]);
      QuietFramesAppend(e, next, frames[1..]);
      AppendAssociates(s.transcript, t, Heard(frames[1..]));
      AppendAssociates(s.events, [PartialSpeech(t)], PartialEvents(frames[1..]));
    }
  }

  /** Running two streams of frames is running the first, then the second. */
  lemma {:induction false} RunFramesAppend(e: Engines, s: ServiceState, a: seq<Frame>, b: seq<Frame>)
    ensures RunFrames(e, s, a + b) == RunFrames(e, RunFrames(e, s, a), b)
    decreases |a|
  {
    if a == [] {
      assert a + b == b;
    } else {
      assert (a + b)[0] == a[0];
      assert (a + b)[1..] == a[1..] + b;
      RunFramesAppend(e, Deliver(e, s, a[0]), a[1..], b);
    }
  }

  /** The wake word, while waiting for it: the service sends the wake-word
      event and hands the processor to the transcript listener, restarted
      with Cheetah's configuration exactly when the engines differ. */
  lemma WakeFrame(e: Engines, s: ServiceState, wake: Frame)
    requires s.listeners == [WakeWordListener]
    requires wake.keywordIndex == Ok(0)
    ensures var r := Deliver(e, s, wake);
            && r.listeners == [TranscriptListener]
            && r.events == s.events + [WakeWordDetected]
            && r.transcript == s.transcript
            && r.processor == (if e.Differ() then Running(e.cheetah) else s.processor)
  {
  }

  /** An endpoint whose flush succeeds, while transcribing: the service sends
      the partial and the full speech, empties the builder and hands the
      processor back to the wake-word listener, restarted with Porcupine's
      configuration exactly when the engines differ. */
  lemma EndpointFrame(e: Engines, s: ServiceState, last: Frame)
    requires s.listeners == [TranscriptListener]
    requires last.partial.Ok? && last.partial.value.isEndpoint && last.flushed.Ok?
    ensures var r := Deliver(e, s, last);
            && r.events == s.events + [PartialSpeech(last.partial.value.transcript)]
                 + [FullSpeech(s.transcript + last.partial.value.transcript + JavaString(last.flushed.value))]
            && r.listeners == [WakeWordListener] && r.transcript == ""
            && r.processor == (if e.Differ() then Running(e.porcupine) else s.processor)
  {
  }

  /** One whole utterance while waiting for the wake word (as every state
      satisfying the invariant with the wake-word listener registered is):
      the wake word, frames without an endpoint, and an endpoint frame whose
      flush succeeds. The service sends the wake-word event, each partial
      transcript, and then the full speech made of all of them and the
      flushed text; it ends waiting for the wake word again as it began. */
  lemma Utterance(e: Engines, s: ServiceState, wake: Frame, quiet: seq<Frame>, last: Frame)
    requires s.listeners == [WakeWordListener] && s.processor == Running(e.porcupine) && s.transcript == ""
    requires wake.keywordIndex == Ok(0)
    requires forall k | 0 <= k < |quiet| :: Quiet(quiet[k])
    requires last.partial.Ok? && last.partial.value.isEndpoint && last.flushed.Ok?
    ensures var r := RunFrames(e, s, [wake] + quiet + [last]);
            && r.events == s.events + [WakeWordDetected] + PartialEvents(quiet)
                 + [PartialSpeech(last.partial.value.transcript)]
                 + [FullSpeech(Heard(quiet) + last.partial.value.transcript + JavaString(last.flushed.value))]
            && r.listeners == s.listeners && r.processor == s.processor && r.transcript == ""
  {
    var woken := Deliver(e, s, wake);
    WakeFrame(e, s, wake);
    assert RunFrames(e, s, [wake]) == RunFrames(e, woken, []);
    QuietFramesAppend(e, woken, quiet);
    var heard := RunFrames(e, woken, quiet);
    assert heard.transcript == Heard(quiet) by {
      assert woken.transcript + Heard(quiet) == Heard(quiet);
    }
    var r := Deliver(e, heard, last);
    EndpointFrame(e, heard, last);
    if !e.Differ() { SameConfig(e); }
    assert RunFrames(e, heard, [last]) == RunFrames(e, r, []);
    RunFramesAppend(e, s, [wake], quiet);
    assert RunFrames(e, s, [wake] + quiet) == heard;
    RunFramesAppend(e, s, [wake] + quiet, [last]);
    assert RunFrames(e, s, [wake] + quiet + [last]) == r;
  }

  /** The intent each event becomes when the service sends it to MainActivity. */
  function IntentOf(ev: Event): (intent: Intent)
    ensures ev.Error? ==> MainActivity.StatusOf(Some(intent)) == Some(MainActivity.ErrorStatus)
    ensures ev.WakeWordDetected? ==> MainActivity.StatusOf(Some(intent)) == Some(MainActivity.WakeWordDetectedStatus)
    ensures ev.PartialSpeech? ==> MainActivity.StatusOf(Some(intent)) == Some(MainActivity.PartialSpeechStatus)
    ensures ev.FullSpeech? ==> MainActivity.StatusOf(Some(intent)) == Some(MainActivity.FullSpeechStatus)
    ensures ev.PartialSpeech? ==> MainActivity.SpeechOf(Some(intent)) == Some(ev.speech)
    ensures ev.FullSpeech? ==> MainActivity.SpeechOf(Some(intent)) == Some(ev.utterance)
  {
    assert MainActivity.StatusExtra[1] != MainActivity.SpeechExtra[1];
    match ev
    case Error(message) => Intent(map[MainActivity.StatusExtra := MainActivity.ErrorStatus, MainActivity.MessageExtra := message])
    case WakeWordDetected => Intent(map[MainActivity.StatusExtra := MainActivity.WakeWordDetectedStatus])
    case PartialSpeech(speech) => Intent(map[MainActivity.StatusExtra := MainActivity.PartialSpeechStatus, MainActivity.SpeechExtra := speech])
    case FullSpeech(speech) => Intent(map[MainActivity.StatusExtra := MainActivity.FullSpeechStatus, MainActivity.SpeechExtra := speech])
  }

  /** The service as a class: onCreate is the constructor, the two listener
      callbacks are methods, and the VoiceProcessor calls and the intents sent
      are recorded on fields. */
  class Service {
    const engines: Engines
    var listeners: seq<Listener>
    var processor: Processor
    var transcriptBuilder: string
    var events: seq<Event>
    ghost var calls: seq<Call>

    ghost function Current(): ServiceState
      reads this
    {
      ServiceState(listeners, processor, transcriptBuilder, events, calls)
    }

    ghost predicate Valid()
      reads this
    {
      Invariant(engines, Current())
    }

    /** onCreate: add the wake-word listener, then start the processor with
        Porcupine's configuration. */
    constructor (engines: Engines)
      ensures this.engines == engines
      ensures Valid() && Current() == OnCreate(engines)
    {
      this.engines := engines;
      listeners, processor, transcriptBuilder, events, calls := [], Stopped, "", [], [];
      new;
      AddListener(WakeWordListener);
      StartProcessor(engines.porcupine);
      assert calls == [AddFrameListener(WakeWordListener)] + [Start(engines.porcupine)];
      assert Current() == OnCreate(engines);
    }

    /** `voiceProcessor.clearFrameListeners()` */
    method ClearListeners()
      modifies this`listeners, this`calls
      ensures listeners == [] && calls == old(calls) + [ClearFrameListeners]
    {
      listeners := [];
      calls := calls + [ClearFrameListeners];
    }

    /** `voiceProcessor.addFrameListener(l)` */
    method AddListener(l: Listener)
      modifies this`listeners, this`calls
      ensures listeners == old(listeners) + [l] && calls == old(calls) + [AddFrameListener(l)]
    {
      listeners := listeners + [l];
      calls := calls + [AddFrameListener(l)];
    }

    /** `voiceProcessor.stop()` */
    method StopProcessor()
      modifies this`processor, this`calls
      ensures processor == Stopped && calls == old(calls) + [Stop]
    {
      processor := Stopped;
      calls := calls + [Stop];
    }

    /** `voiceProcessor.start(frameLength, sampleRate)` */
    method StartProcessor(config: FrameConfig)
      modifies this`processor, this`calls
      ensures processor == Running(config) && calls == old(calls) + [Start(config)]
    {
      processor := Running(config);
      calls := calls + [Start(config)];
    }

    /** One of the send* methods: the intent goes to MainActivity. */
    method Send(ev: Event)
      modifies this`events
      ensures events == old(events) + [ev]
    {
      events := events + [ev];
    }

    /** The hand-off both callbacks perform inline: clear the listeners,
        restart the processor with `config` when the engines' frame lengths
        or sample rates differ, then add `to`. */
    method HandOffTo(to: Listener, config: FrameConfig)
      modifies this`listeners, this`processor, this`calls
      ensures Current() == HandOff(engines, old(Current()), to, config)
    {
      ClearListeners();
      if engines.porcupine.frameLength != engines.cheetah.frameLength
         || engines.porcupine.sampleRate != engines.cheetah.sampleRate {
        StopProcessor();
        StartProcessor(config);
      }
      AddListener(to);
    }

    /** The wake-word listener's callback, while it is the registered one. */
    method WakeWordListenerFrame(index: Result<int>)
      requires Valid() && listeners == [WakeWordListener]
      modifies this`listeners, this`processor, this`events, this`calls
      ensures Current() == OnWakeWordFrame(engines, old(Current()), index)
      ensures Valid()
    {
      match index {
        case Err(ex) =>
          Send(Error(ex.ToString()));
        case Ok(i) =>
          if i == 0 {
            Send(WakeWordDetected);
            HandOffTo(TranscriptListener, engines.cheetah);
          }
      }
      WakeWordFrameKeepsInvariant(engines, old(Current()), index);
    }

    /** The transcript listener's callback, while it is the registered one. */
    method TranscriptListenerFrame(partial: Result<Partial>, flushed: Result<Option<string>>)
      requires Valid() && listeners == [TranscriptListener]
      modifies this`listeners, this`processor, this`transcriptBuilder, this`events, this`calls
      ensures Current() == OnTranscriptFrame(engines, old(Current()), partial, flushed)
      ensures Valid()
    {
      match partial {
        case Err(ex) =>
          Send(Error(ex.ToString()));
        case Ok(p) =>
          Send(PartialSpeech(p.transcript));
          transcriptBuilder := transcriptBuilder + p.transcript;
          if p.isEndpoint {
            match flushed {
              case Err(ex) =>
                Send(Error(ex.ToString()));
              case Ok(t) =>
                transcriptBuilder := transcriptBuilder + JavaString(t);
                Send(FullSpeech(transcriptBuilder));
                transcriptBuilder := "";
                HandOffTo(WakeWordListener, engines.porcupine);
            }
          }
      }
      TranscriptFrameKeepsInvariant(engines, old(Current()), partial, flushed);
    }
  }
}
