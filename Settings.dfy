/** The app's settings: the bundled API-key file and the "settings"
    SharedPreferences store that the view model reads at start-up and writes
    from the settings screen. */
module Settings {
  import opened Platform

  /** A SharedPreferences entry: the app stores strings and one float. The
      float is kept as an opaque number; its rounding is not modelled. */
  datatype Value = Str(s: string) | Float(x: real)

  /** The in-memory map of the "settings" SharedPreferences file. */
  type Store = map<string, Value>

  const OpenAIKey := "openai_key"
  const PicoVoiceKey := "picovoice_key"
  const SystemMessageKey := "system_message"
  /** The key getDefaultSilenceTimeout reads the timeout from. */
  const SilenceTimeoutKey := "silence_timeout"
  /** The key saveSettings writes the timeout under (capital O). */
  const SavedSilenceTimeoutKey := "silence_timeOut"
  const DefaultSystemMessage := "You are a helpful AI assistant."
  const DefaultSilenceTimeout: real := 3.0

  /** What SharedPreferences throws when an entry holds the other type. */
  const ClassCastException := Throwable("java.lang.ClassCastException", None)

  /** ApiKeys.retrieveAPIKey: the property `name` of the bundled
      "api-keys.properties" asset, or `name + "-missing"` when the property is
      absent or the asset cannot be read (`bundle == None`). */
  function RetrieveAPIKey(bundle: Option<map<string, string>>, name: string): (key: string)
    ensures bundle.Some? && name in bundle.value ==> key == bundle.value[name]
    ensures bundle.None? || name !in bundle.value ==> key == name + "-missing"
  {
    match bundle
    case Some(props) => if name in props then props[name] else name + "-missing"
    case None => name + "-missing"
  }

  /** SharedPreferences.getString(key, default): the stored string, the
      default when the key is absent, a ClassCastException when it holds a float. */
  function GetString(store: Store, key: string, default: string): (r: Result<string>)
    ensures key !in store ==> r == Ok(default)
    ensures key in store ==> (r.Ok? <==> store[key].Str?)
    ensures r.Ok? && key in store ==> store[key] == Str(r.value)
  {
    if key !in store then Ok(default)
    else match store[key]
      case Str(s) => Ok(s)
      case Float(_) => Err(ClassCastException)
  }

  /** SharedPreferences.getFloat(key, default), the same way round. */
  function GetFloat(store: Store, key: string, default: real): (r: Result<real>)
    ensures key !in store ==> r == Ok(default)
    ensures key in store ==> (r.Ok? <==> store[key].Float?)
    ensures r.Ok? && key in store ==> store[key] == Float(r.value)
  {
    if key !in store then Ok(default)
    else match store[key]
      case Float(x) => Ok(x)
      case Str(_) => Err(ClassCastException)
  }

  /** getDefaultAPIKey(name), given the bundled default: the store it leaves
      behind and the key it returns. The bundled default is written only when
      the name is absent, a stored value is never overwritten, the name is
      always present afterwards, and what is returned is what is stored. */
  function DefaultAPIKey(store: Store, name: string, bundled: string): (r: (Store, Result<string>))
    ensures name in r.0
    ensures name in store ==> r.0 == store
    ensures name !in store ==> r.0 == store[name := Str(bundled)] && r.1 == Ok(bundled)
    ensures r.1.Ok? <==> r.0[name].Str?
    ensures r.1.Ok? ==> r.0[name] == Str(r.1.value)
  {
    var stored := if name in store then store else store[name := Str(bundled)];
    (stored, GetString(stored, name, bundled))
  }

  /** The four settings the view model holds. */
  datatype SettingsValues = SettingsValues(openAIKey: string, silenceTimeout: real,
                                           systemMessage: string, picoVoiceKey: string)

  /** The store after the view model's start-up, and the settings it loaded. */
  datatype Loaded = Loaded(store: Store, values: SettingsValues)

  /** The start-up of BinkyViewModel's four settings fields, in declaration
      order: the OpenAI key, the silence timeout, the system message, the
      Picovoice key. The first exception ends it. */
  function Startup(store: Store, bundle: Option<map<string, string>>): (r: Result<Loaded>)
    ensures r.Ok? ==> forall k | k in store :: k in r.value.store && r.value.store[k] == store[k]
    ensures r.Ok? ==> r.value.store.Keys == store.Keys + {OpenAIKey, PicoVoiceKey}
  {
    var (s1, openAI) := DefaultAPIKey(store, OpenAIKey, RetrieveAPIKey(bundle, OpenAIKey));
    var timeout := GetFloat(s1, SilenceTimeoutKey, DefaultSilenceTimeout);
    var system := GetString(s1, SystemMessageKey, DefaultSystemMessage);
    var (s2, pico) := DefaultAPIKey(s1, PicoVoiceKey, RetrieveAPIKey(bundle, PicoVoiceKey));
    if openAI.Err? then Err(openAI.error)
    else if timeout.Err? then Err(timeout.error)
    else if system.Err? then Err(system.error)
    else if pico.Err? then Err(pico.error)
    else Ok(Loaded(s2, SettingsValues(openAI.value, timeout.value, system.value, pico.value)))
  }

  /** An entry the app reads as a string holds a string, if it is there. */
  predicate HoldsString(store: Store, key: string)
  {
    key in store ==> store[key].Str?
  }

  /** Every entry the start-up reads holds the type it is read as. */
  predicate WellTyped(store: Store)
  {
    && HoldsString(store, OpenAIKey)
    && HoldsString(store, SystemMessageKey)
    && HoldsString(store, PicoVoiceKey)
    && (SilenceTimeoutKey in store ==> store[SilenceTimeoutKey].Float?)
  }

  /** The start-up throws exactly when an entry it reads holds the wrong type. */
  lemma StartupSucceedsIffWellTyped(store: Store, bundle: Option<map<string, string>>)
    ensures Startup(store, bundle).Ok? <==> WellTyped(store)
  {
  }

  /** The start-up read step by step, as the view model's initialisers do it:
      on a well-typed store no read throws, and the reads together are
      Startup. */
  lemma StartupSteps(store: Store, bundle: Option<map<string, string>>,
                     withOpenAI: Store, openAI: Result<string>, withPico: Store, pico: Result<string>)
    requires WellTyped(store)
    requires (withOpenAI, openAI) == DefaultAPIKey(store, OpenAIKey, RetrieveAPIKey(bundle, OpenAIKey))
    requires (withPico, pico) == DefaultAPIKey(withOpenAI, PicoVoiceKey, RetrieveAPIKey(bundle, PicoVoiceKey))
    ensures var timeout := GetFloat(withOpenAI, SilenceTimeoutKey, DefaultSilenceTimeout);
            var system := GetString(withOpenAI, SystemMessageKey, DefaultSystemMessage);
            && openAI.Ok? && timeout.Ok? && system.Ok? && pico.Ok?
            && Startup(store, bundle)
               == Ok(Loaded(withPico, SettingsValues(openAI.value, timeout.value, system.value, pico.value)))
  {
  }

  /** The four puts of saveSettings, with the timeout under `timeoutKey`. */
  function Saved(store: Store, v: SettingsValues, timeoutKey: string): (r: Store)
    ensures r.Keys == store.Keys + {OpenAIKey, timeoutKey, SystemMessageKey, PicoVoiceKey}
    ensures forall k | k in store && k !in {OpenAIKey, timeoutKey, SystemMessageKey, PicoVoiceKey} :: r[k] == store[k]
    ensures timeoutKey !in {OpenAIKey, SystemMessageKey, PicoVoiceKey} ==>
              && r[OpenAIKey] == Str(v.openAIKey)
              && r[timeoutKey] == Float(v.silenceTimeout)
              && r[SystemMessageKey] == Str(v.systemMessage)
              && r[PicoVoiceKey] == Str(v.picoVoiceKey)
  {
    store[OpenAIKey := Str(v.openAIKey)]
         [timeoutKey := Float(v.silenceTimeout)]
         [SystemMessageKey := Str(v.systemMessage)]
         [PicoVoiceKey := Str(v.picoVoiceKey)]
  }

  /** saveSettings as written: the timeout goes under "silence_timeOut". */
  function SavedStore(store: Store, v: SettingsValues): (r: Store)
    ensures SilenceTimeoutKey in r <==> SilenceTimeoutKey in store
    ensures SilenceTimeoutKey in store ==> r[SilenceTimeoutKey] == store[SilenceTimeoutKey]
  {
    Saved(store, v, SavedSilenceTimeoutKey)
  }

  /** saveSettings as evidently intended: the timeout goes under the key
      getDefaultSilenceTimeout reads. */
  function SavedStoreIntended(store: Store, v: SettingsValues): (r: Store)
    ensures SilenceTimeoutKey in r && r[SilenceTimeoutKey] == Float(v.silenceTimeout)
  {
    Saved(store, v, SilenceTimeoutKey)
  }

  /** Saving and restarting restores the two API keys and the system message,
      but the timeout that comes back is the one the store held before the
      save (the default when it held none): whatever was saved is ignored.
      On a well-typed store that is the timeout loaded before the save. */
  lemma SavedSettingsReload(store: Store, bundle: Option<map<string, string>>, v: SettingsValues)
    requires SilenceTimeoutKey in store ==> store[SilenceTimeoutKey].Float?
    ensures var before := GetFloat(store, SilenceTimeoutKey, DefaultSilenceTimeout);
            && before.Ok?
            && Startup(SavedStore(store, v), bundle)
               == Ok(Loaded(SavedStore(store, v), v.(silenceTimeout := before.value)))
            && (WellTyped(store) ==>
                  Startup(store, bundle).Ok? && Startup(store, bundle).value.values.silenceTimeout == before.value)
  {
    StartupSucceedsIffWellTyped(store, bundle);
  }

  /** A concrete store that shows the lost timeout: 5 is saved, 3 comes back. */
  lemma SavedTimeoutIsLost()
    ensures var v := SettingsValues("sk-test", 5.0, "Be brief.", "pv-test");
            var r := Startup(SavedStore(map[], v), None);
            r.Ok? && r.value.values.silenceTimeout == DefaultSilenceTimeout != v.silenceTimeout
  {
    var v := SettingsValues("sk-test", 5.0, "Be brief.", "pv-test");
    SavedSettingsReload(map[], None, v);
  }

  /** With the intended key every saved setting comes back after a restart,
      and the start-up leaves the saved store as it is. */
  lemma IntendedSettingsRoundTrip(store: Store, bundle: Option<map<string, string>>, v: SettingsValues)
    ensures Startup(SavedStoreIntended(store, v), bundle) == Ok(Loaded(SavedStoreIntended(store, v), v))
  {
  }

  /** The "settings" SharedPreferences file. `apply()` updates the in-memory
      map at once; writing it to disk is not modelled. */
  class SharedPreferences {
    var entries: Store

    constructor (entries: Store)
      ensures this.entries == entries
    {
      this.entries := entries;
    }

    /** `edit().putString(key, value).apply()` */
    method PutString(key: string, value: string)
      modifies this
      ensures entries == old(entries)[key := Str(value)]
    {
      entries := entries[key := Str(value)];
    }

    /** `edit().putFloat(key, value).apply()` */
    method PutFloat(key: string, value: real)
      modifies this
      ensures entries == old(entries)[key := Float(value)]
    {
      entries := entries[key := Float(value)];
    }
  }
}
