/** The service and the activity together: the events PicoWordService sends
    for one spoken utterance, delivered to MainActivity as intents. */
module EndToEnd {
  import opened Platform
  import MainActivity
  import PicoWordService

  /** The intents MainActivity receives for a run of the service's events. */
  function Delivered(events: seq<PicoWordService.Event>): seq<Option<Intent>>
  {
    seq(|events|, k requires 0 <= k < |events| => Some(PicoWordService.IntentOf(events[k])))
  }

  /** Five runs of events concatenated, grouped as the service and the
      activity each see them. */
  lemma Regroup<T>(a: seq<T>, b: seq<T>, c: seq<T>, d: seq<T>, e: seq<T>)
    ensures a + b + c + d + e == a + (b + (c + d) + e)
  {
  }

  /** What follows a prefix is what was appended to it. */
  lemma SuffixAfter<T>(a: seq<T>, b: seq<T>)
    ensures a <= a + b && (a + b)[|a|..] == b
  {
  }

  /** The activity's side of one utterance: the wake-word event, partial
      speech events, then the full speech. */
  lemma UtteranceEventsShown(ui: MainActivity.UiState, partials: seq<PicoWordService.Event>, full: string)
    requires forall k | 0 <= k < |partials| :: partials[k].PartialSpeech?
    ensures MainActivity.Replay(ui, Delivered([PicoWordService.WakeWordDetected] + partials
                                              + [PicoWordService.FullSpeech(full)]))
         == MainActivity.Session(MainActivity.UiState(MainActivity.Waiting, full), [full])
  {
    var wakeIntent := Some(PicoWordService.IntentOf(PicoWordService.WakeWordDetected));
    var fullIntent := Some(PicoWordService.IntentOf(PicoWordService.FullSpeech(full)));
    assert Delivered([PicoWordService.WakeWordDetected] + partials + [PicoWordService.FullSpeech(full)])
        == [wakeIntent] + Delivered(partials) + [fullIntent];
    forall k | 0 <= k < |Delivered(partials)|
      ensures MainActivity.StatusOf(Delivered(partials)[k]) == Some(MainActivity.PartialSpeechStatus)
    {
      assert partials[k].PartialSpeech?;
    }
    MainActivity.Utterance(ui, wakeIntent, Delivered(partials), fullIntent);
  }

  /** One utterance from wake word to endpoint, heard by the service while it
      waits for the wake word, leaves the activity waiting for the chat
      response with the full speech on screen, and the full speech is the
      one text sent to the chat model. */
  lemma SpokenUtteranceIsSent(e: PicoWordService.Engines, s: PicoWordService.ServiceState,
                              ui: MainActivity.UiState, wake: PicoWordService.Frame,
                              quiet: seq<PicoWordService.Frame>, last: PicoWordService.Frame)
    requires PicoWordService.Invariant(e, s) && s.listeners == [PicoWordService.WakeWordListener]
    requires wake.keywordIndex == Ok(0)
    requires forall k | 0 <= k < |quiet| :: PicoWordService.Quiet(quiet[k])
    requires last.partial.Ok? && last.partial.value.isEndpoint && last.flushed.Ok?
    ensures var r := PicoWordService.RunFrames(e, s, [wake] + quiet + [last]);
            var full := PicoWordService.Heard(quiet) + last.partial.value.transcript
                        + JavaString(last.flushed.value);
            && s.events <= r.events
            && MainActivity.Replay(ui, Delivered(r.events[|s.events|..]))
               == MainActivity.Session(MainActivity.UiState(MainActivity.Waiting, full), [full])
  {
    PicoWordService.Utterance(e, s, wake, quiet, last);
    var r := PicoWordService.RunFrames(e, s, [wake] + quiet + [last]);
    var t := last.partial.value.transcript;
    var full := PicoWordService.Heard(quiet) + t + JavaString(last.flushed.value);
    var partials := PicoWordService.PartialEvents(quiet) + [PicoWordService.PartialSpeech(t)];
    var added := [PicoWordService.WakeWordDetected] + partials + [PicoWordService.FullSpeech(full)];
    Regroup(s.events, [PicoWordService.WakeWordDetected], PicoWordService.PartialEvents(quiet),
            [PicoWordService.PartialSpeech(t)], [PicoWordService.FullSpeech(full)]);
    assert r.events == s.events + added;
    SuffixAfter(s.events, added);
    UtteranceEventsShown(ui, partials, full);
  }
}
