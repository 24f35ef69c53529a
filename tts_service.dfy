/**
 * Text-to-speech: the browser synthesizer (an abstract shared object with a
 * voice list, a queue of utterances and a single voices-changed handler
 * slot), the browser-backed service that picks the first ja-JP voice, the
 * external-API service that delegates to its own browser service, and the
 * selection of a service from the settings.
 */
module TtsService {
  import opened Types

  const JapaneseLang: string := "ja-JP"

  datatype Voice = Voice(name: string, lang: string)

  /** A SpeechSynthesisUtterance: the text, and the voice set on it (None: the device default). */
  datatype Utterance = Utterance(text: string, voice: Option<Voice>)

  /** The state of a service's voicesLoaded promise. */
  datatype LoadState = Loading | Loaded | LoadFailed

  /**
   * What a call to speak leads to: a rejection, a wait on a voice list that
   * has not arrived, or an utterance handed to the synthesizer (the promise
   * then settles when that utterance ends or errors).
   */
  datatype SpeakOutcome = Rejected | WaitingForVoices | Speaking(utterance: Utterance)

  /** Array.prototype.find over the voices: the first one whose lang is exactly ja-JP. */
  function FirstJapaneseVoice(voices: seq<Voice>): (r: Option<Voice>)
    ensures r.None? <==> forall i | 0 <= i < |voices| :: voices[i].lang != JapaneseLang
    ensures r.Some? ==> exists i | 0 <= i < |voices| ::
      && voices[i] == r.value
      && voices[i].lang == JapaneseLang
      && forall k | 0 <= k < i :: voices[k].lang != JapaneseLang
  {
    if voices == [] then None
    else if voices[0].lang == JapaneseLang then
      Some(voices[0])
    else
      var r := FirstJapaneseVoice(voices[1..]);
      if r.None? then None
      else
        var i :| 0 <= i < |voices[1..]| && voices[1..][i] == r.value && voices[1..][i].lang == JapaneseLang
                 && forall k | 0 <= k < i :: voices[1..][k].lang != JapaneseLang;
        assert voices[i + 1] == r.value && forall k | 0 <= k < i + 1 :: voices[k].lang != JapaneseLang;
        r
  }

  /** The settled result of a speak call on a browser service in the given state. */
  function SpeakResult(loaded: LoadState, supported: bool, text: string, japaneseVoice: Option<Voice>)
    : (r: SpeakOutcome)
    ensures r.Speaking? <==> loaded == Loaded && supported
    ensures r.Speaking? ==> r.utterance.text == text && r.utterance.voice == japaneseVoice
    ensures r == WaitingForVoices <==> loaded == Loading
  {
    match loaded
    case LoadFailed => Rejected
    case Loading => WaitingForVoices
    case Loaded => if supported then Speaking(Utterance(text, japaneseVoice)) else Rejected
  }

  /**
   * The state loadVoices leaves a new service in, given the synthesizer at that
   * moment: rejected without synthesis, resolved when voices are present,
   * pending otherwise.
   */
  function InitialLoad(supported: bool, voices: seq<Voice>): LoadState {
    if !supported then LoadFailed else if voices != [] then Loaded else Loading
  }

  /** The voice a new service has found before any voices-changed notification. */
  function InitialVoice(supported: bool, voices: seq<Voice>): Option<Voice> {
    if supported && voices != [] then FirstJapaneseVoice(voices) else None
  }

  /** How a submitted utterance settled: `resolved` after its end event, rejected after its error event. */
  datatype Settlement = Settlement(utterance: Utterance, resolved: bool)

  /** window.speechSynthesis; `supported` is false when the browser has none. */
  class SpeechSynthesis {
    const supported: bool
    var voices: seq<Voice>
    /** Utterances submitted and not yet ended or cancelled. */
    var queue: seq<Utterance>
    /** The single onvoiceschanged handler slot. */
    var onVoicesChanged: BrowserTtsService?

    constructor (supported: bool, voices: seq<Voice>)
      ensures this.supported == supported && this.voices == voices
      ensures queue == [] && onVoicesChanged == null
    {
      this.supported := supported;
      this.voices := voices;
      queue := [];
      onVoicesChanged := null;
    }

    /** The device's voice list arrives or changes; the registered handler, if any, runs. */
    method VoicesChanged(newVoices: seq<Voice>)
      requires onVoicesChanged != null ==> onVoicesChanged.synth == this
      modifies this`voices, onVoicesChanged
      ensures voices == newVoices && queue == old(queue) && onVoicesChanged == old(onVoicesChanged)
      ensures onVoicesChanged != null ==>
        && onVoicesChanged.japaneseVoice == FirstJapaneseVoice(newVoices)
        && onVoicesChanged.voicesLoaded == (if old(onVoicesChanged.voicesLoaded) == Loading then Loaded
                                            else old(onVoicesChanged.voicesLoaded))
    {
      voices := newVoices;
      if onVoicesChanged != null {
        onVoicesChanged.OnVoicesChanged();
      }
    }

    /**
     * The utterance at the head of the queue ends (`ended`) or reports an
     * error; its onend handler resolves the speak promise, its onerror handler
     * rejects it. With nothing queued there is no handler to run.
     */
    method UtteranceSettled(ended: bool) returns (settled: Option<Settlement>)
      modifies this`queue
      ensures settled.Some? <==> old(queue) != []
      ensures settled.Some? ==> settled.value.utterance == old(queue)[0] && (settled.value.resolved <==> ended)
      ensures queue == if old(queue) == [] then [] else old(queue)[1..]
    {
      if queue == [] {
        return None;
      }
      settled := Some(Settlement(queue[0], ended));
      queue := queue[1..];
    }
  }

  /** BrowserTTSService: voice discovery once per instance, then cancel-then-speak. */
  class BrowserTtsService {
    const synth: SpeechSynthesis
    var japaneseVoice: Option<Voice>
    var voicesLoaded: LoadState

    /**
     * The constructor starts loadVoices. Without a synthesizer the promise
     * rejects; with voices present it resolves at once; otherwise this
     * instance takes the handler slot and waits for the notification.
     */
    constructor (synth: SpeechSynthesis)
      modifies synth`onVoicesChanged
      ensures this.synth == synth
      ensures !synth.supported ==>
        voicesLoaded == LoadFailed && japaneseVoice == None && synth.onVoicesChanged == old(synth.onVoicesChanged)
      ensures synth.supported && synth.voices != [] ==>
        && voicesLoaded == Loaded && japaneseVoice == FirstJapaneseVoice(synth.voices)
        && synth.onVoicesChanged == old(synth.onVoicesChanged)
      ensures synth.supported && synth.voices == [] ==>
        voicesLoaded == Loading && japaneseVoice == None && synth.onVoicesChanged == this
    {
      this.synth := synth;
      japaneseVoice := None;
      voicesLoaded := Loading;
      new;
      LoadVoices();
    }

    /** loadVoices: runs inside the promise executor, so a missing synthesizer rejects the promise. */
    method LoadVoices()
      requires voicesLoaded == Loading && japaneseVoice == None
      modifies this`japaneseVoice, this`voicesLoaded, synth`onVoicesChanged
      ensures !synth.supported ==>
        voicesLoaded == LoadFailed && japaneseVoice == None && synth.onVoicesChanged == old(synth.onVoicesChanged)
      ensures synth.supported && synth.voices != [] ==>
        && voicesLoaded == Loaded && japaneseVoice == FirstJapaneseVoice(synth.voices)
        && synth.onVoicesChanged == old(synth.onVoicesChanged)
      ensures synth.supported && synth.voices == [] ==>
        voicesLoaded == Loading && japaneseVoice == None && synth.onVoicesChanged == this
    {
      if !synth.supported {
        voicesLoaded := LoadFailed;
      } else if synth.voices != [] {
        FindJapaneseVoice();
        voicesLoaded := Loaded;
      } else {
        synth.onVoicesChanged := this;
      }
    }

    /** findJapaneseVoice */
    method FindJapaneseVoice()
      modifies this`japaneseVoice
      ensures japaneseVoice == FirstJapaneseVoice(synth.voices)
    {
      japaneseVoice := FirstJapaneseVoice(synth.voices);
    }

    /** The onvoiceschanged handler this instance installed: find the voice again, resolve. */
    method OnVoicesChanged()
      modifies this`japaneseVoice, this`voicesLoaded
      ensures japaneseVoice == FirstJapaneseVoice(synth.voices)
      ensures voicesLoaded == if old(voicesLoaded) == Loading then Loaded else old(voicesLoaded)
    {
      FindJapaneseVoice();
      if voicesLoaded == Loading {
        voicesLoaded := Loaded;
      }
    }

    /**
     * speak: waits for the one voicesLoaded promise (it never reloads), then
     * cancels whatever the synthesizer holds and submits one utterance, with
     * the ja-JP voice only if one was found.
     */
    method Speak(text: string) returns (r: SpeakOutcome)
      modifies synth`queue
      ensures r == SpeakResult(voicesLoaded, synth.supported, text, japaneseVoice)
      ensures r.Speaking? ==> synth.queue == [r.utterance]
      ensures !r.Speaking? ==> synth.queue == old(synth.queue)
    {
      if voicesLoaded == LoadFailed {
        return Rejected;
      }
      if voicesLoaded == Loading {
        return WaitingForVoices;
      }
      if !synth.supported {
        return Rejected;
      }
      synth.queue := [];
      var utterance := Utterance(text, japaneseVoice);
      synth.queue := synth.queue + [utterance];
      r := Speaking(utterance);
    }
  }

  /** ExternalTTSService: holds the endpoint and key, and speaks through its own browser service. */
  class ExternalTtsService {
    const apiUrl: string
    const apiKey: Option<string>
    const browserTts: BrowserTtsService

    constructor (synth: SpeechSynthesis, apiUrl: string, apiKey: Option<string>)
      modifies synth`onVoicesChanged
      ensures this.apiUrl == apiUrl && this.apiKey == apiKey
      ensures fresh(browserTts) && browserTts.synth == synth
      ensures browserTts.voicesLoaded == InitialLoad(synth.supported, synth.voices)
      ensures browserTts.japaneseVoice == InitialVoice(synth.supported, synth.voices)
      ensures synth.supported && synth.voices == [] ==>
        browserTts.voicesLoaded == Loading && synth.onVoicesChanged == browserTts
      ensures synth.supported && synth.voices != [] ==>
        browserTts.voicesLoaded == Loaded && synth.onVoicesChanged == old(synth.onVoicesChanged)
      ensures !synth.supported ==>
        browserTts.voicesLoaded == LoadFailed && synth.onVoicesChanged == old(synth.onVoicesChanged)
    {
      this.apiUrl := apiUrl;
      this.apiKey := apiKey;
      browserTts := new BrowserTtsService(synth);
    }

    /** speak: always the private browser service, whatever the endpoint. */
    method Speak(text: string) returns (r: SpeakOutcome)
      modifies browserTts.synth`queue
      ensures r == SpeakResult(browserTts.voicesLoaded, browserTts.synth.supported, text, browserTts.japaneseVoice)
      ensures r.Speaking? ==> browserTts.synth.queue == [r.utterance]
      ensures !r.Speaking? ==> browserTts.synth.queue == old(browserTts.synth.queue)
    {
      r := browserTts.Speak(text);
    }
  }

  /** A TTSService: the shared browser instance or an external one. */
  datatype TtsService = SharedBrowser(browser: BrowserTtsService) | ExternalApi(external: ExternalTtsService)
  {
    /** The browser service that ends up speaking. */
    function Browser(): BrowserTtsService {
      match this
      case SharedBrowser(b) => b
      case ExternalApi(e) => e.browserTts
    }
  }

  /** The module: one browser service made at load time, and getTTSService. */
  class TtsModule {
    const synth: SpeechSynthesis
    const browserTtsService: BrowserTtsService

    constructor (synth: SpeechSynthesis)
      modifies synth`onVoicesChanged
      ensures this.synth == synth
      ensures fresh(browserTtsService) && browserTtsService.synth == synth
      ensures browserTtsService.voicesLoaded == InitialLoad(synth.supported, synth.voices)
      ensures browserTtsService.japaneseVoice == InitialVoice(synth.supported, synth.voices)
      ensures synth.onVoicesChanged ==
        if synth.supported && synth.voices == [] then browserTtsService else old(synth.onVoicesChanged)
    {
      this.synth := synth;
      browserTtsService := new BrowserTtsService(synth);
    }

    /** getTTSService: a new external service carrying the endpoint, or the one shared browser service. */
    method GetTtsService(settings: TtsSettings) returns (service: TtsService)
      requires browserTtsService.synth == synth
      modifies synth`onVoicesChanged
      ensures settings.BrowserTts? ==>
        service == SharedBrowser(browserTtsService) && synth.onVoicesChanged == old(synth.onVoicesChanged)
      ensures settings.ExternalTts? ==>
        && service.ExternalApi?
        && fresh(service.external) && fresh(service.external.browserTts)
        && service.external.apiUrl == settings.apiUrl && service.external.apiKey == settings.apiKey
        && service.external.browserTts.synth == synth
        && service.external.browserTts.voicesLoaded == InitialLoad(synth.supported, synth.voices)
        && service.external.browserTts.japaneseVoice == InitialVoice(synth.supported, synth.voices)
        && synth.onVoicesChanged ==
             if synth.supported && synth.voices == [] then service.external.browserTts else old(synth.onVoicesChanged)
    {
      match settings {
        case ExternalTts(url, key) =>
          var external := new ExternalTtsService(synth, url, key);
          service := ExternalApi(external);
        case BrowserTts =>
          service := SharedBrowser(browserTtsService);
      }
    }

    /**
     * `getTTSService(settings).speak(text)` up to the browser's end or error
     * event for the utterance (`ended`). `resolved` is whether the speak
     * promise resolved; it is false when speech rejects or is still waiting.
     */
    method SpeakAndSettle(settings: TtsSettings, text: string, ended: bool)
      returns (outcome: SpeakOutcome, resolved: bool)
      requires browserTtsService.synth == synth
      modifies synth`queue, synth`onVoicesChanged
      ensures outcome == SpeakResult(
        if settings.BrowserTts? then browserTtsService.voicesLoaded else InitialLoad(synth.supported, synth.voices),
        synth.supported, text,
        if settings.BrowserTts? then browserTtsService.japaneseVoice else InitialVoice(synth.supported, synth.voices))
      ensures resolved <==> outcome.Speaking? && ended
      ensures synth.queue == if outcome.Speaking? then [] else old(synth.queue)
      ensures settings.ExternalTts? && synth.supported && synth.voices == [] ==> fresh(synth.onVoicesChanged)
      ensures settings.BrowserTts? || !synth.supported || synth.voices != [] ==>
        synth.onVoicesChanged == old(synth.onVoicesChanged)
    {
      var service := GetTtsService(settings);
      outcome := SpeakWith(service, text);
      resolved := false;
      if outcome.Speaking? {
        var settled := synth.UtteranceSettled(ended);
        resolved := settled.Some? && settled.value.resolved;
      }
    }
  }

  /** tts.speak on whichever service was selected. */
  method SpeakWith(service: TtsService, text: string) returns (r: SpeakOutcome)
    modifies service.Browser().synth`queue
    ensures var b := service.Browser();
      && r == SpeakResult(b.voicesLoaded, b.synth.supported, text, b.japaneseVoice)
      && (r.Speaking? ==> b.synth.queue == [r.utterance])
      && (!r.Speaking? ==> b.synth.queue == old(b.synth.queue))
  {
    match service {
      case SharedBrowser(b) => r := b.Speak(text);
      case ExternalApi(e) => r := e.Speak(text);
    }
  }

  /**
   * The handler slot holds one handler. When the voice list is still empty,
   * an external service made after module load takes the slot from the
   * shared browser service, whose voicesLoaded then never settles: its
   * speak keeps waiting after the voices arrive.
   */
  method SharedServiceStrandedByExternal(voices: seq<Voice>) returns (tts: TtsModule, r: SpeakOutcome)
    requires voices != []
    ensures tts.browserTtsService.voicesLoaded == Loading
    ensures r == WaitingForVoices
  {
    var synth := new SpeechSynthesis(true, []);
    tts := new TtsModule(synth);
    var external := tts.GetTtsService(ExternalTts("https://api.example.com/tts", None));
    synth.VoicesChanged(voices);
    assert external.external.browserTts.voicesLoaded == Loaded;
    r := tts.browserTtsService.Speak("こんにちは");
  }
}
