/**
 * The conversation session of useChat: the message log and the loading flag,
 * the reset to a greeting when the character object changes, and sendMessage
 * split at its suspension points. `Step` is the specification of each step;
 * `ChatSession` holds the two state cells and is proved against it.
 */
module UseChat {
  import opened Types
  import GeminiService
  import TtsService

  const GreetingPrefix: string := "こんにちは！"
  const GreetingSuffix: string := "です。何かお話ししましょう。"
  const ErrorText: string := "エラーが発生しました。しばらくしてからもう一度お試しください。"

  /** ECMAScript WhiteSpace and LineTerminator: what String.prototype.trim removes. */
  predicate IsJsWhitespace(c: char) {
    || c == '\t' || c == '\n' || c == '\U{000B}' || c == '\U{000C}' || c == '\r' || c == ' '
    || c == '\U{00A0}' || c == '\U{1680}' || ('\U{2000}' <= c <= '\U{200A}')
    || c == '\U{2028}' || c == '\U{2029}' || c == '\U{202F}' || c == '\U{205F}'
    || c == '\U{3000}' || c == '\U{FEFF}'
  }

  /** Drops leading whitespace: what is left is a suffix that does not start with whitespace. */
  function TrimStart(s: string): (r: string)
    ensures |r| <= |s| && r == s[|s| - |r|..]
    ensures r == [] || !IsJsWhitespace(r[0])
    ensures forall i | 0 <= i < |s| - |r| :: IsJsWhitespace(s[i])
  {
    if s != [] && IsJsWhitespace(s[0]) then TrimStart(s[1..]) else s
  }

  /** Drops trailing whitespace: what is left is a prefix that does not end with whitespace. */
  function TrimEnd(s: string): (r: string)
    ensures |r| <= |s| && r == s[..|r|]
    ensures r == [] || !IsJsWhitespace(r[|r| - 1])
    ensures forall i | |r| <= i < |s| :: IsJsWhitespace(s[i])
  {
    if s != [] && IsJsWhitespace(s[|s| - 1]) then TrimEnd(s[..|s| - 1]) else s
  }

  /**
   * String.prototype.trim: the slice of the text that starts after its
   * leading whitespace; it does not end with whitespace, and only whitespace
   * is cut off after it.
   */
  function Trim(s: string): (r: string)
    ensures var k := |s| - |TrimStart(s)|;
      && k + |r| <= |s| && r == s[k..k + |r|]
      && (forall i | k + |r| <= i < |s| :: IsJsWhitespace(s[i]))
    ensures r == [] || (!IsJsWhitespace(r[0]) && !IsJsWhitespace(r[|r| - 1]))
  {
    TrimEnd(TrimStart(s))
  }

  /** `!text.trim()`: the trimmed text is the empty string. */
  predicate IsBlank(text: string) {
    Trim(text) == ""
  }

  /** A text is blank exactly when every character of it is whitespace (the empty text included). */
  lemma BlankIffAllWhitespace(text: string)
    ensures IsBlank(text) <==> forall i | 0 <= i < |text| :: IsJsWhitespace(text[i])
  {
  }

  /** The greeting that replaces the log: id "init", from the character, naming it. */
  function Greeting(name: string): (m: Message)
    ensures m.id == "init" && m.sender == CharacterSender
    ensures |GreetingPrefix| + |name| <= |m.text|
    ensures m.text[|GreetingPrefix|..|GreetingPrefix| + |name|] == name
  {
    Message("init", GreetingPrefix + name + GreetingSuffix, CharacterSender)
  }

  function UserMessage(text: string, now: string): Message {
    Message("user-" + now, text, User)
  }

  function ReplyMessage(text: string, now: string): Message {
    Message("char-" + now, text, CharacterSender)
  }

  function ErrorMessage(now: string): Message {
    Message("error-" + now, ErrorText, CharacterSender)
  }

  /** The two state cells of the hook. */
  datatype SessionState = SessionState(messages: seq<Message>, busy: bool)

  /**
   * What can happen to the session. `now` stands for the Date.now() text an id is built from.
   * A reply step is the code after an await, up to and including the `finally`: the append and
   * the clearing of the flag run in one synchronous continuation.
   */
  datatype Event =
    | CharacterChanged(name: string)         // the effect on a new character object
    | Send(text: string, now: string)         // sendMessage up to its first await
    | ReplySpoken(reply: string, now: string) // speak resolved: the reply is appended
    | ReplyFailed(now: string)                // something in the try block threw

  /** One step of the session; every append is to the log current at that moment. */
  function Step(s: SessionState, e: Event): (r: SessionState)
    ensures e.CharacterChanged? ==> |r.messages| == 1 && r.busy == s.busy
    ensures !e.CharacterChanged? ==>
      && |s.messages| <= |r.messages| <= |s.messages| + 1
      && r.messages[..|s.messages|] == s.messages
    ensures r.busy && !s.busy ==> e.Send? && !IsBlank(e.text)
    ensures e.ReplySpoken? || e.ReplyFailed? ==> !r.busy
  {
    match e
    case CharacterChanged(name) => SessionState([Greeting(name)], s.busy)
    case Send(text, now) =>
      if IsBlank(text) then s else SessionState(s.messages + [UserMessage(text, now)], true)
    case ReplySpoken(reply, now) => SessionState(s.messages + [ReplyMessage(reply, now)], false)
    case ReplyFailed(now) => SessionState(s.messages + [ErrorMessage(now)], false)
  }

  function Run(s: SessionState, events: seq<Event>): SessionState
    decreases |events|
  {
    if events == [] then s else Run(Step(s, events[0]), events[1..])
  }

  lemma RunPair(s: SessionState, a: Event, b: Event)
    ensures Run(s, [a, b]) == Step(Step(s, a), b)
  {
    assert [a, b][1..] == [b];
    assert [b][1..] == [];
    assert Run(s, [a, b]) == Run(Step(s, a), [b]);
    assert Run(Step(s, a), [b]) == Run(Step(Step(s, a), b), []);
  }

  /** How the reply pipeline ends: the reply (or the backend's apology) if speech resolved, else the error text. */
  function PipelineEnd(backend: Result<string>, speechResolved: bool, now: string): (e: Event)
    ensures e.ReplyFailed? <==> !speechResolved
    ensures e.ReplySpoken? ==> e.reply == (if backend.Ok? then backend.value else GeminiService.ApologyText)
  {
    if speechResolved then ReplySpoken(GeminiService.ResponseText(backend), now) else ReplyFailed(now)
  }

  /** A blank send changes neither the log nor the flag. */
  lemma BlankSendIsNoOp(s: SessionState, text: string, now: string)
    requires forall i | 0 <= i < |text| :: IsJsWhitespace(text[i])
    ensures Step(s, Send(text, now)) == s
  {
  }

  /** A non-blank send appends exactly one user message with the untrimmed text, and sets the flag, busy or not. */
  lemma NonBlankSendAppendsUserTurn(s: SessionState, text: string, now: string)
    requires exists i | 0 <= i < |text| :: !IsJsWhitespace(text[i])
    ensures Step(s, Send(text, now)).messages == s.messages + [Message("user-" + now, text, User)]
    ensures Step(s, Send(text, now)).busy
  {
  }

  /** A character change leaves exactly the greeting naming the new character, whatever was in flight. */
  lemma ResetLeavesGreeting(s: SessionState, name: string)
    ensures |Step(s, CharacterChanged(name)).messages| == 1
    ensures var m := Step(s, CharacterChanged(name)).messages[0];
      m.id == "init" && m.sender == CharacterSender &&
      m.text[|GreetingPrefix|..|GreetingPrefix| + |name|] == name
  {
  }

  /** A whole non-blank turn: one user message, then one character message, and the flag is clear. */
  lemma TurnAppendsTwo(s: SessionState, text: string, backend: Result<string>, speechResolved: bool,
                       now: string, later: string)
    requires !IsBlank(text)
    ensures var r := Run(s, [Send(text, now), PipelineEnd(backend, speechResolved, later)]);
      && !r.busy
      && |r.messages| == |s.messages| + 2
      && r.messages[..|s.messages|] == s.messages
      && r.messages[|s.messages|] == UserMessage(text, now)
      && r.messages[|s.messages| + 1].sender == CharacterSender
      && r.messages[|s.messages| + 1].text ==
           if !speechResolved then ErrorText else GeminiService.ResponseText(backend)
  {
    RunPair(s, Send(text, now), PipelineEnd(backend, speechResolved, later));
  }

  /** A reset while a reply is in flight does not stop it: the late reply lands in the new log. */
  lemma LateReplyAfterReset(s: SessionState, text: string, name: string, reply: string, now: string, later: string)
    requires !IsBlank(text)
    ensures var r := Run(s, [Send(text, now), CharacterChanged(name), ReplySpoken(reply, later)]);
      r.messages == [Greeting(name), ReplyMessage(reply, later)] && !r.busy
  {
    var es := [Send(text, now), CharacterChanged(name), ReplySpoken(reply, later)];
    assert es[1..] == [CharacterChanged(name), ReplySpoken(reply, later)];
    RunPair(Step(s, es[0]), es[1], es[2]);
  }

  /** No event removes a message except a character change. */
  predicate NoReset(events: seq<Event>) {
    forall i | 0 <= i < |events| :: !events[i].CharacterChanged?
  }

  /** Messages a run of events appends: one per non-blank send and one per settled reply. */
  function Appends(events: seq<Event>): nat {
    if events == [] then 0
    else
      var here := match events[0]
        case Send(text, _) => if IsBlank(text) then 0 else 1
        case _ => 1;
      here + Appends(events[1..])
  }

  /** Without a character change the log only grows at its end, by exactly one message per append. */
  lemma {:induction false} RunWithoutResetAppends(s: SessionState, events: seq<Event>)
    requires NoReset(events)
    ensures |Run(s, events).messages| == |s.messages| + Appends(events)
    ensures Run(s, events).messages[..|s.messages|] == s.messages
    decreases |events|
  {
    if events != [] {
      var s' := Step(s, events[0]);
      assert s'.messages[..|s.messages|] == s.messages;
      RunWithoutResetAppends(s', events[1..]);
      assert Run(s, events).messages[..|s.messages|] == Run(s', events[1..]).messages[..|s'.messages|][..|s.messages|];
    }
  }

  /** Every user message in the log has non-blank text. */
  predicate UserTurnsNonBlank(s: SessionState) {
    forall i | 0 <= i < |s.messages| :: s.messages[i].sender == User ==> !IsBlank(s.messages[i].text)
  }

  /** Every run keeps user messages non-blank. */
  lemma {:induction false} RunKeepsUserTurnsNonBlank(s: SessionState, events: seq<Event>)
    requires UserTurnsNonBlank(s)
    ensures UserTurnsNonBlank(Run(s, events))
    decreases |events|
  {
    if events != [] {
      var s' := Step(s, events[0]);
      assert UserTurnsNonBlank(s') by {
        forall i | 0 <= i < |s'.messages| && s'.messages[i].sender == User
          ensures !IsBlank(s'.messages[i].text)
        {
          if i < |s.messages| && !events[0].CharacterChanged? {
            assert s'.messages[i] == s.messages[i];
          }
        }
      }
      RunKeepsUserTurnsNonBlank(s', events[1..]);
    }
  }

  /**
   * The hook's state cells. `character` is the character object the reset
   * effect last ran for; the effect runs again only for a different object.
   */
  class ChatSession {
    var messages: seq<Message>
    var isLoading: bool
    var character: CharacterObject

    function State(): SessionState
      reads this
    {
      SessionState(messages, isLoading)
    }

    /** Mounting: an empty log, then the effect's greeting. */
    constructor (c: CharacterObject)
      ensures State() == SessionState([Greeting(c.value.name)], false) && character == c
    {
      messages := [];
      isLoading := false;
      character := c;
      new;
      messages := [Greeting(c.value.name)];
    }

    /** The effect with dependency settings.character: it runs when the object differs. */
    method OnCharacter(c: CharacterObject)
      modifies this`messages, this`character
      ensures character == c
      ensures State() == if c != old(character) then Step(old(State()), CharacterChanged(c.value.name))
                         else old(State())
    {
      if c != character {
        messages := [Greeting(c.value.name)];
        character := c;
      }
    }

    /** sendMessage up to its first await; no check of the flag. */
    method SendMessage(text: string, now: string) returns (started: bool)
      modifies this`messages, this`isLoading
      ensures started <==> !IsBlank(text)
      ensures State() == Step(old(State()), Send(text, now))
    {
      if IsBlank(text) {
        return false;
      }
      var userMessage := Message("user-" + now, text, User);
      messages := messages + [userMessage];
      isLoading := true;
      started := true;
    }

    /** speak resolved: append the reply, then the `finally`. */
    method AppendReply(reply: string, now: string)
      modifies this`messages, this`isLoading
      ensures State() == Step(old(State()), ReplySpoken(reply, now))
    {
      var characterMessage := Message("char-" + now, reply, CharacterSender);
      messages := messages + [characterMessage];
      isLoading := false;
    }

    /** The catch block, then the `finally`. */
    method AppendError(now: string)
      modifies this`messages, this`isLoading
      ensures State() == Step(old(State()), ReplyFailed(now))
    {
      var errorMessage := Message("error-" + now, ErrorText, CharacterSender);
      messages := messages + [errorMessage];
      isLoading := false;
    }

    /**
     * sendMessage as a whole, with the settings the callback captured: the
     * chat response (never a failure), the selected speech service speaking
     * that response, and the browser's end or error event for the utterance
     * (`utteranceEnded`), which settles the speak promise. When speech waits
     * for voices, the promise has not settled and the flag stays set.
     */
    method SendAndReply(text: string, settings: Settings, cache: GeminiService.ChatCache,
                        tts: TtsService.TtsModule, backend: Result<string>, utteranceEnded: bool,
                        now: string, later: string)
      returns (speech: Option<TtsService.SpeakOutcome>)
      requires cache.Valid()
      requires tts.browserTtsService.synth == tts.synth
      modifies this`messages, this`isLoading, cache, cache.chat, tts.synth`queue, tts.synth`onVoicesChanged
      ensures cache.Valid()
      ensures speech.None? <==> IsBlank(text)
      ensures speech.None? ==> State() == old(State()) && unchanged(cache, tts.synth)
      ensures speech.None? && cache.chat != null ==> unchanged(cache.chat)
      // the log: a send, then the end the speech outcome leads to
      ensures speech.Some? ==> State() == match speech.value
        case Speaking(_) => Run(old(State()), [Send(text, now), PipelineEnd(backend, utteranceEnded, later)])
        case Rejected => Run(old(State()), [Send(text, now), ReplyFailed(later)])
        case WaitingForVoices => Step(old(State()), Send(text, now))
      // the chat cache: the user's text joins the chat kept for the character's instruction
      ensures speech.Some? ==>
        && cache.chat != null
        && cache.currentSystemInstruction == Some(settings.character.systemInstruction)
        && if old(cache.chat) == null || old(cache.currentSystemInstruction) != Some(settings.character.systemInstruction)
           then fresh(cache.chat) && cache.chat.sent == [text]
           else cache.chat == old(cache.chat) && cache.chat.sent == old(cache.chat.sent) + [text]
      // the speech: the response text, spoken by the shared service or by a new one
      ensures speech.Some? ==> speech.value == TtsService.SpeakResult(
        if settings.ttsSettings.BrowserTts? then tts.browserTtsService.voicesLoaded
        else TtsService.InitialLoad(tts.synth.supported, tts.synth.voices),
        tts.synth.supported,
        GeminiService.ResponseText(backend),
        if settings.ttsSettings.BrowserTts? then tts.browserTtsService.japaneseVoice
        else TtsService.InitialVoice(tts.synth.supported, tts.synth.voices))
      ensures speech.Some? && speech.value.Speaking? ==>
        speech.value.utterance.text == GeminiService.ResponseText(backend) && tts.synth.queue == []
      ensures speech.Some? && !speech.value.Speaking? ==> tts.synth.queue == old(tts.synth.queue)
      // the handler slot: only an external service made before the voices arrived takes it
      ensures speech.Some? && settings.ttsSettings.ExternalTts? && tts.synth.supported && tts.synth.voices == [] ==>
        fresh(tts.synth.onVoicesChanged)
      ensures (speech.Some? ==> settings.ttsSettings.BrowserTts? || !tts.synth.supported || tts.synth.voices != []) ==>
        tts.synth.onVoicesChanged == old(tts.synth.onVoicesChanged)
    {
      ghost var s0 := State();
      var started := SendMessage(text, now);
      if !started {
        return None;
      }
      ghost var s1 := State();
      var responseText := cache.GetChatResponse(text, settings.character.systemInstruction, backend);
      var outcome, resolved := tts.SpeakAndSettle(settings.ttsSettings, responseText, utteranceEnded);
      speech := Some(outcome);
      match outcome {
        case Speaking(_) =>
          if resolved {
            AppendReply(responseText, later);
          } else {
            AppendError(later);
          }
          assert State() == Step(s1, PipelineEnd(backend, utteranceEnded, later));
          RunPair(s0, Send(text, now), PipelineEnd(backend, utteranceEnded, later));
        case Rejected =>
          AppendError(later);
          RunPair(s0, Send(text, now), ReplyFailed(later));
        case WaitingForVoices =>
      }
      assert State() == (match outcome
          case Speaking(_) => Run(s0, [Send(text, now), PipelineEnd(backend, utteranceEnded, later)])
          case Rejected => Run(s0, [Send(text, now), ReplyFailed(later)])
          case WaitingForVoices => Step(s0, Send(text, now)));
    }
  }
}
