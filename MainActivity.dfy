/** The UI side of BlinkyChat: the conversation status, the reducer that
    applies the speech service's intents to the view model's status and chat
    text, the handling of a finished chat completion, and the view model's
    settings fields. */
module MainActivity {
  import opened Platform
  import opened Settings

  /** The conversation status shown above the chat text. */
  datatype Status = Listening | Waiting | Responding | Error | Idle

  /** The label StatusHeader shows for each status; only Idle shows nothing. */
  function StatusLabel(status: Status): (text: string)
    ensures text == "" <==> status == Idle
  {
    match status
    case Listening => "Listening..."
    case Waiting => "Waiting for response..."
    case Responding => "Responding..."
    case Error => "Oh no, an error!"
    case Idle => ""
  }

  /** No two statuses share a label. */
  lemma StatusLabelInjective(a: Status, b: Status)
    requires StatusLabel(a) == StatusLabel(b)
    ensures a == b
  {
  }

  /** The extras the speech service puts on its intents, and the values of
      the "Status" extra. */
  const StatusExtra := "Status"
  const SpeechExtra := "Speech"
  const MessageExtra := "Message"
  const ErrorStatus := "ERROR"
  const WakeWordDetectedStatus := "WAKE_WORD_DETECTED"
  const PartialSpeechStatus := "PARTIAL_SPEECH"
  const FullSpeechStatus := "FULL_SPEECH"

  /** `intent?.getStringExtra("Status")` */
  function StatusOf(intent: Option<Intent>): Option<string>
  {
    match intent
    case Some(i) => i.GetStringExtra(StatusExtra)
    case None => None
  }

  /** `intent.getStringExtra("Speech")`, null when there is no intent. */
  function SpeechOf(intent: Option<Intent>): Option<string>
  {
    match intent
    case Some(i) => i.GetStringExtra(SpeechExtra)
    case None => None
  }

  /** The "Status" values handleSpeechIntent has a branch for. */
  predicate Handled(status: Option<string>)
  {
    status in {Some(ErrorStatus), Some(WakeWordDetectedStatus), Some(PartialSpeechStatus), Some(FullSpeechStatus)}
  }

  /** The two view-model fields the intents drive. */
  datatype UiState = UiState(status: Status, chatText: string)

  /** What one intent does: the new UI state, and the text handed to sendText
      if it issues one. */
  datatype Effect = Effect(ui: UiState, sent: Option<string>)

  /** handleSpeechIntent as a function of the UI state. ERROR sets the error
      status and keeps the text; WAKE_WORD_DETECTED starts listening on an
      empty text; PARTIAL_SPEECH appends a space and the partial speech (a
      null speech as "null") and keeps the status; FULL_SPEECH shows the
      speech (null as ""), sends exactly that text and waits. Any other or
      missing status changes nothing. */
  function SpeechIntentEffect(ui: UiState, intent: Option<Intent>): (r: Effect)
    ensures StatusOf(intent) == Some(ErrorStatus) ==> r == Effect(UiState(Error, ui.chatText), None)
    ensures StatusOf(intent) == Some(WakeWordDetectedStatus) ==> r == Effect(UiState(Listening, ""), None)
    ensures StatusOf(intent) == Some(PartialSpeechStatus) ==>
              && r.sent == None && r.ui.status == ui.status
              && ui.chatText <= r.ui.chatText
              && r.ui.chatText[|ui.chatText|..] == " " + JavaString(SpeechOf(intent))
    ensures StatusOf(intent) == Some(FullSpeechStatus) ==>
              r == Effect(UiState(Waiting, OrEmpty(SpeechOf(intent))), Some(OrEmpty(SpeechOf(intent))))
    ensures r.sent.Some? <==> StatusOf(intent) == Some(FullSpeechStatus)
    ensures !Handled(StatusOf(intent)) ==> r == Effect(ui, None)
  {
    var status := StatusOf(intent);
    if status == Some(ErrorStatus) then
      Effect(ui.(status := Error), None)
    else if status == Some(WakeWordDetectedStatus) then
      Effect(UiState(Listening, ""), None)
    else if status == Some(PartialSpeechStatus) then
      Effect(ui.(chatText := ui.chatText + " " + JavaString(SpeechOf(intent))), None)
    else if status == Some(FullSpeechStatus) then
      var detected := OrEmpty(SpeechOf(intent));
      Effect(UiState(Waiting, detected), Some(detected))
    else
      Effect(ui, None)
  }

  /** The UI state after a run of intents, and the texts sent, oldest first. */
  datatype Session = Session(ui: UiState, sent: seq<string>)

  /** Applies intents one after the other, as onNewIntent delivers them. */
  function Replay(ui: UiState, intents: seq<Option<Intent>>): Session
    decreases |intents|
  {
    if intents == [] then Session(ui, [])
    else
      var e := SpeechIntentEffect(ui, intents[0]);
      var rest := Replay(e.ui, intents[1..]);
      Session(rest.ui, if e.sent.Some? then [e.sent.value] + rest.sent else rest.sent)
  }

  /** Replaying two runs of intents is replaying the first, then the second
      from where the first left off. */
  lemma {:induction false} ReplayAppend(ui: UiState, a: seq<Option<Intent>>, b: seq<Option<Intent>>)
    ensures Replay(ui, a + b)
         == Session(Replay(Replay(ui, a).ui, b).ui, Replay(ui, a).sent + Replay(Replay(ui, a).ui, b).sent)
    decreases |a|
  {
    if a == [] {
      assert a + b == b;
    } else {
      var e := SpeechIntentEffect(ui, a[0]);
      assert (a + b)[0] == a[0];
      assert (a + b)[1..] == a[1..] + b;
      ReplayAppend(e.ui, a[1..], b);
      if e.sent.Some? {
        AppendAssociates([e.sent.value], Replay(e.ui, a[1..]).sent, Replay(Replay(e.ui, a[1..]).ui, b).sent);
      }
    }
  }

  /** The text partial-speech intents add to the chat text: a space before each. */
  function SpacedSpeech(intents: seq<Option<Intent>>): string
    decreases |intents|
  {
    if intents == [] then "" else " " + JavaString(SpeechOf(intents[0])) + SpacedSpeech(intents[1..])
  }

  /** A run of PARTIAL_SPEECH intents keeps the status, sends nothing and
      appends each partial speech, preceded by a space, to the chat text. */
  lemma {:induction false} PartialSpeechAppends(ui: UiState, intents: seq<Option<Intent>>)
    requires forall k | 0 <= k < |intents| :: StatusOf(intents[k]) == Some(PartialSpeechStatus)
    ensures Replay(ui, intents) == Session(UiState(ui.status, ui.chatText + SpacedSpeech(intents)), [])
    decreases |intents|
  {
    if intents != [] {
      var speech := JavaString(SpeechOf(intents[0]));
      var next := UiState(ui.status, ui.chatText + " " + speech);
      assert StatusOf(intents[0]) == Some(PartialSpeechStatus);
      assert SpeechIntentEffect(ui, intents[0]) == Effect(next, None);
      PartialSpeechAppends(next, intents[1..]);
      AppendAssociates(ui.chatText, " " + speech, SpacedSpeech(intents[1..]));
      AppendAssociates(ui.chatText, " ", speech);
    }
  }

  /** One utterance as the UI sees it: a wake word, any number of partial
      speeches, then the full speech. Whatever the state before, the UI ends
      waiting, shows the full speech, and has sent it exactly once. */
  lemma Utterance(ui: UiState, wake: Option<Intent>, partials: seq<Option<Intent>>, full: Option<Intent>)
    requires StatusOf(wake) == Some(WakeWordDetectedStatus)
    requires forall k | 0 <= k < |partials| :: StatusOf(partials[k]) == Some(PartialSpeechStatus)
    requires StatusOf(full) == Some(FullSpeechStatus)
    ensures Replay(ui, [wake] + partials + [full])
         == Session(UiState(Waiting, OrEmpty(SpeechOf(full))), [OrEmpty(SpeechOf(full))])
  {
    var listening := UiState(Listening, "");
    ReplayAppend(ui, [wake], partials);
    ReplayAppend(ui, [wake] + partials, [full]);
    PartialSpeechAppends(listening, partials);
  }

  /** The chat-completion model sendText asks for. */
  const ChatModel := "gpt-3.5-turbo"

  /** A chat-completion request: the client's token, the model, the system
      message and the user's text. */
  datatype ChatRequest = ChatRequest(token: string, model: string, systemMessage: string, userText: string)

  /** How a launched completion ends: the response's choices (each message's
      content may be null), or an exception. */
  datatype Completion = Responded(choices: seq<Option<string>>) | Threw(exception: Throwable)

  /** What `choices.first()` throws on an empty list. */
  const EmptyListException := Throwable("java.util.NoSuchElementException", Some("List is empty."))

  /** The end of sendText's coroutine. It overwrites both fields whatever they
      were: the first choice's content (null as "") and Idle on success; the
      exception's string and Error on any exception, an empty choice list
      included. An error always comes with a non-empty message. */
  function CompletionOutcome(c: Completion): (r: UiState)
    ensures r.status == Idle || r.status == Error
    ensures r.status == Idle <==> c.Responded? && |c.choices| > 0
    ensures r.status == Idle ==> r.chatText == OrEmpty(c.choices[0])
    ensures c.Threw? ==> r.chatText == c.exception.ToString()
    ensures r.status == Error ==> |r.chatText| > 0
  {
    match c
    case Responded(choices) =>
      if |choices| > 0 then UiState(Idle, OrEmpty(choices[0]))
      else UiState(Error, EmptyListException.ToString())
    case Threw(e) => UiState(Error, e.ToString())
  }

  /** BinkyViewModel: the status and chat text the screen shows, the four
      settings fields, and the requests sendText has launched. */
  class BinkyViewModel {
    var chatText: string
    var status: Status
    var openAIKeyValue: string
    var silenceTimeoutValue: real
    var systemMessageValue: string
    var picoVoiceAPIKey: string
    /** The token the OpenAI client was built with at construction; the
        update methods do not change it. */
    var clientToken: string
    /** The completion requests sendText has launched, oldest first. */
    var requests: seq<ChatRequest>
    const prefs: SharedPreferences
    /** The bundled API-key file, None when it cannot be read. */
    const bundle: Option<map<string, string>>

    function Ui(): UiState
      reads this
    {
      UiState(status, chatText)
    }

    function Values(): SettingsValues
      reads this
    {
      SettingsValues(openAIKeyValue, silenceTimeoutValue, systemMessageValue, picoVoiceAPIKey)
    }

    /** The view model's field initialisers, in order. The start-up must not
        throw, that is, every entry it reads holds the type it is read as
        (see StartupSucceedsIffWellTyped); the OpenAI client takes the
        loaded key. */
    constructor (prefs: SharedPreferences, bundle: Option<map<string, string>>)
      requires WellTyped(prefs.entries)
      modifies prefs
      ensures this.prefs == prefs && this.bundle == bundle
      ensures Ui() == UiState(Idle, "") && requests == []
      ensures Startup(old(prefs.entries), bundle) == Ok(Loaded(prefs.entries, Values()))
      ensures clientToken == openAIKeyValue
    {
      this.prefs := prefs;
      this.bundle := bundle;
      new;
      ghost var stored := prefs.entries;
      var openAI := GetDefaultAPIKey(OpenAIKey);
      ghost var withOpenAI := prefs.entries;
      var timeout := GetFloat(prefs.entries, SilenceTimeoutKey, DefaultSilenceTimeout);
      var system := GetString(prefs.entries, SystemMessageKey, DefaultSystemMessage);
      var pico := GetDefaultAPIKey(PicoVoiceKey);
      StartupSteps(stored, bundle, withOpenAI, openAI, prefs.entries, pico);
      openAIKeyValue, silenceTimeoutValue, systemMessageValue, picoVoiceAPIKey :=
        openAI.value, timeout.value, system.value, pico.value;
      clientToken, chatText, status, requests := openAI.value, "", Idle, [];
    }

    /** getDefaultAPIKey: writes the bundled default only when `name` is
        absent, then reads the stored value back. */
    method GetDefaultAPIKey(name: string) returns (key: Result<string>)
      modifies prefs
      ensures (prefs.entries, key) == DefaultAPIKey(old(prefs.entries), name, RetrieveAPIKey(bundle, name))
    {
      var defaultKey := RetrieveAPIKey(bundle, name);
      if name !in prefs.entries {
        prefs.PutString(name, defaultKey);
      }
      key := GetString(prefs.entries, name, defaultKey);
    }

    /** sendText launches one completion request with the current system
        message and the given text; its end is OnCompletion. */
    method SendText(text: string)
      modifies this`requests
      ensures requests == old(requests) + [ChatRequest(clientToken, ChatModel, systemMessageValue, text)]
    {
      requests := requests + [ChatRequest(clientToken, ChatModel, systemMessageValue, text)];
    }

    /** The end of a launched completion. */
    method OnCompletion(c: Completion)
      modifies this`chatText, this`status
      ensures Ui() == CompletionOutcome(c)
    {
      match c
      case Responded(choices) =>
        if |choices| > 0 {
          chatText := OrEmpty(choices[0]);
          status := Idle;
        } else {
          chatText := EmptyListException.ToString();
          status := Error;
        }
      case Threw(e) =>
        chatText := e.ToString();
        status := Error;
    }

    method UpdateOpenAIKey(value: string)
      modifies this`openAIKeyValue
      ensures openAIKeyValue == value
    {
      openAIKeyValue := value;
    }

    method UpdateSilenceTimeout(value: real)
      modifies this`silenceTimeoutValue
      ensures silenceTimeoutValue == value
    {
      silenceTimeoutValue := value;
    }

    method UpdateSystemMessage(value: string)
      modifies this`systemMessageValue
      ensures systemMessageValue == value
    {
      systemMessageValue := value;
    }

    method UpdatePicoVoiceAPIKey(value: string)
      modifies this`picoVoiceAPIKey
      ensures picoVoiceAPIKey == value
    {
      picoVoiceAPIKey := value;
    }

    /** saveSettings, as written: the four puts of SavedStore. */
    method SaveSettings()
      modifies prefs
      ensures prefs.entries == SavedStore(old(prefs.entries), Values())
    {
      prefs.PutString(OpenAIKey, openAIKeyValue);
      prefs.PutFloat(SavedSilenceTimeoutKey, silenceTimeoutValue);
      prefs.PutString(SystemMessageKey, systemMessageValue);
      prefs.PutString(PicoVoiceKey, picoVoiceAPIKey);
    }
  }

  /** MainActivity.handleSpeechIntent on the activity's view model. A
      FULL_SPEECH intent launches exactly one request, with the text it shows. */
  method HandleSpeechIntent(vm: BinkyViewModel, intent: Option<Intent>)
    modifies vm`chatText, vm`status, vm`requests
    ensures var e := SpeechIntentEffect(old(vm.Ui()), intent);
            && vm.Ui() == e.ui
            && vm.requests == old(vm.requests)
                 + (if e.sent.Some? then [ChatRequest(vm.clientToken, ChatModel, vm.systemMessageValue, e.sent.value)] else [])
  {
    var status := StatusOf(intent);
    if status == Some(ErrorStatus) {
      vm.status := Error;
    } else if status == Some(WakeWordDetectedStatus) {
      vm.status := Listening;
      vm.chatText := "";
    } else if status == Some(PartialSpeechStatus) {
      vm.chatText := vm.chatText + " " + JavaString(SpeechOf(intent));
    } else if status == Some(FullSpeechStatus) {
      var detected := OrEmpty(SpeechOf(intent));
      vm.chatText := detected;
      vm.SendText(detected);
      vm.status := Waiting;
    }
  }
}
