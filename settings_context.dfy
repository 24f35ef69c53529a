/**
 * The settings store: loading and validating the persisted settings, the
 * provider state that holds them, and the write-back on every change.
 * JSON text and localStorage are abstracted: the storage slot holds either
 * nothing, an empty string, text that does not parse, or a parsed JSON value.
 */
module SettingsContext {
  import opened Types

  /** A parsed JSON value, as far as the settings check can tell them apart. */
  datatype Json =
    | JNull
    | JString(s: string)
    | JObject(fields: map<string, Json>)
    | JOther(truthy: bool)  // numbers, booleans and arrays: only their truthiness is inspected

  /** The contents of the single storage key. */
  datatype Stored = EmptyText | Unparseable | Parsed(value: Json)

  /** What the initial load decides: a stored value, or the defaults (and whether the key was removed). */
  datatype InitialSettings = FromStorage(settings: Settings) | Defaults(keyRemoved: bool)

  const SettingsStorageKey: string := "ai-character-chat-settings"

  /** JavaScript truthiness of a property read; a missing property reads as `undefined`. */
  predicate Truthy(v: Option<Json>) {
    match v
    case None => false
    case Some(JNull) => false
    case Some(JString(s)) => s != ""
    case Some(JObject(_)) => true
    case Some(JOther(t)) => t
  }

  /** `typeof v === 'string'` */
  predicate IsString(v: Option<Json>) {
    v.Some? && v.value.JString?
  }

  /** Reading property `key`; only objects have the properties the settings check asks for. */
  function Prop(v: Option<Json>, key: string): Option<Json> {
    match v
    case Some(JObject(fields)) => if key in fields then Some(fields[key]) else None
    case _ => None
  }

  function StringOf(v: Option<Json>): string {
    if IsString(v) then v.value.s else ""
  }

  /** The check a parsed, non-null value must pass to be used as the settings. */
  function PassesValidation(parsed: Json): (ok: bool)
    ensures ok ==> parsed.JObject? && "character" in parsed.fields && "ttsSettings" in parsed.fields
    ensures ok ==> Prop(Prop(Some(parsed), "ttsSettings"), "type") in {Some(JString("browser")), Some(JString("external"))}
  {
    var character := Prop(Some(parsed), "character");
    var tts := Prop(Some(parsed), "ttsSettings");
    var ttsType := Prop(tts, "type");
    && Truthy(character)
    && Truthy(Prop(character, "name"))
    && Truthy(Prop(character, "avatarUrl"))
    && Truthy(Prop(character, "systemInstruction"))
    && Truthy(tts)
    && IsString(ttsType)
    && ((ttsType.value.s == "external" && IsString(Prop(tts, "apiUrl"))) || ttsType.value.s == "browser")
  }

  /** The typed view of a value that passed the check. */
  function Decode(parsed: Json): (r: Settings)
    requires PassesValidation(parsed)
    ensures var tts := Prop(Some(parsed), "ttsSettings");
      && (r.ttsSettings.BrowserTts? <==> Prop(tts, "type") == Some(JString("browser")))
      && (r.ttsSettings.ExternalTts? ==> Prop(tts, "apiUrl") == Some(JString(r.ttsSettings.apiUrl)))
  {
    var character := Prop(Some(parsed), "character");
    var tts := Prop(Some(parsed), "ttsSettings");
    var apiKey := Prop(tts, "apiKey");
    Settings(
      Character(StringOf(Prop(character, "name")),
                StringOf(Prop(character, "avatarUrl")),
                StringOf(Prop(character, "systemInstruction"))),
      if StringOf(Prop(tts, "type")) == "browser" then BrowserTts
      else ExternalTts(StringOf(Prop(tts, "apiUrl")), if IsString(apiKey) then Some(apiKey.value.s) else None))
  }

  /** JSON.stringify followed by JSON.parse; an absent apiKey is not written. */
  function Encode(settings: Settings): (j: Json)
    ensures WellShaped(j)
    ensures PassesValidation(j) <==> CharacterComplete(settings.character)
  {
    var c := settings.character;
    JObject(map[
      "character" := JObject(map[
        "name" := JString(c.name),
        "avatarUrl" := JString(c.avatarUrl),
        "systemInstruction" := JString(c.systemInstruction)]),
      "ttsSettings" := match settings.ttsSettings
        case BrowserTts => JObject(map["type" := JString("browser")])
        case ExternalTts(url, None) => JObject(map["type" := JString("external"), "apiUrl" := JString(url)])
        case ExternalTts(url, Some(key)) =>
          JObject(map["type" := JString("external"), "apiUrl" := JString(url), "apiKey" := JString(key)])])
  }

  /** Every character field is a non-empty string. */
  predicate CharacterComplete(c: Character) {
    c.name != "" && c.avatarUrl != "" && c.systemInstruction != ""
  }

  /**
   * getInitialSettings. A parse error, and a stored `null` (reading `.character`
   * of null throws), are caught: the key is removed and the defaults are used.
   */
  function GetInitialSettings(stored: Option<Stored>): (r: InitialSettings)
    ensures r.Defaults? && r.keyRemoved <==> stored == Some(Unparseable) || stored == Some(Parsed(JNull))
    ensures r.FromStorage? ==> stored.Some? && stored.value.Parsed? && PassesValidation(stored.value.value)
    ensures stored.Some? && stored.value.Parsed? && PassesValidation(stored.value.value) ==>
              r == FromStorage(Decode(stored.value.value))
  {
    match stored
    case None => Defaults(false)
    case Some(EmptyText) => Defaults(false)
    case Some(Unparseable) => Defaults(true)
    case Some(Parsed(JNull)) => Defaults(true)
    case Some(Parsed(parsed)) =>
      if PassesValidation(parsed) then FromStorage(Decode(parsed)) else Defaults(false)
  }

  /** The value has exactly the shape JSON.stringify gives a Settings record. */
  predicate WellShaped(j: Json) {
    && j.JObject? && j.fields.Keys == {"character", "ttsSettings"}
    && var c := j.fields["character"];
    && var t := j.fields["ttsSettings"];
    && c.JObject? && c.fields.Keys == {"name", "avatarUrl", "systemInstruction"}
    && c.fields["name"].JString? && c.fields["avatarUrl"].JString? && c.fields["systemInstruction"].JString?
    && t.JObject? && "type" in t.fields && t.fields["type"].JString?
    && (if t.fields["type"].s == "browser" then t.fields.Keys == {"type"}
        else
          && (t.fields.Keys == {"type", "apiUrl"} || t.fields.Keys == {"type", "apiUrl", "apiKey"})
          && (forall k | k in t.fields :: t.fields[k].JString?))
  }

  /** Saving settings and loading them back gives them back exactly when every character field is non-empty. */
  lemma SaveThenLoad(s: Settings)
    ensures CharacterComplete(s.character) ==> GetInitialSettings(Some(Parsed(Encode(s)))) == FromStorage(s)
    ensures !CharacterComplete(s.character) ==> GetInitialSettings(Some(Parsed(Encode(s)))) == Defaults(false)
  {
  }

  /** A stored value of the declared shape that passes the check is returned unchanged. */
  lemma LoadKeepsStoredValue(j: Json)
    requires WellShaped(j) && PassesValidation(j)
    ensures GetInitialSettings(Some(Parsed(j))).FromStorage?
    ensures Encode(GetInitialSettings(Some(Parsed(j))).settings) == j
  {
    var s := Decode(j);
    var c := j.fields["character"];
    var t := j.fields["ttsSettings"];
    assert Encode(s).fields["character"] == c by {
      assert Encode(s).fields["character"].fields == c.fields;
    }
    assert Encode(s).fields["ttsSettings"] == t by {
      if t.fields["type"].s == "browser" {
        assert Encode(s).fields["ttsSettings"].fields == t.fields;
      } else if "apiKey" in t.fields {
        assert Encode(s).fields["ttsSettings"].fields == t.fields;
      } else {
        assert t.fields.Keys == {"type", "apiUrl"};
        assert Encode(s).fields["ttsSettings"].fields == t.fields;
      }
    }
    assert Encode(s).fields == j.fields;
  }

  /** A `type` other than "browser" and "external" falls back to the defaults, the key is kept. */
  lemma UnknownTypeFallsBack(parsed: Json)
    requires parsed != JNull
    requires var t := Prop(Prop(Some(parsed), "ttsSettings"), "type");
      IsString(t) && t.value.s != "browser" && t.value.s != "external"
    ensures GetInitialSettings(Some(Parsed(parsed))) == Defaults(false)
  {
  }

  /** An "external" setting whose apiUrl is not a string falls back to the defaults. */
  lemma ExternalWithoutUrlFallsBack(parsed: Json)
    requires parsed != JNull
    requires var t := Prop(Some(parsed), "ttsSettings");
      Prop(t, "type") == Some(JString("external")) && !IsString(Prop(t, "apiUrl"))
    ensures GetInitialSettings(Some(Parsed(parsed))) == Defaults(false)
  {
  }

  /** An "external" setting with an empty apiUrl passes the check. */
  lemma EmptyApiUrlAccepted(c: Character)
    requires CharacterComplete(c)
    ensures GetInitialSettings(Some(Parsed(Encode(Settings(c, ExternalTts("", None)))))) ==
            FromStorage(Settings(c, ExternalTts("", None)))
  {
  }

  /** The compiled-in defaults pass the check, so saving them and loading them back gives them back. */
  lemma DefaultsSurviveReload()
    ensures GetInitialSettings(Some(Parsed(Encode(DefaultSettings)))) == FromStorage(DefaultSettings)
  {
  }

  /** The provider's state: the character is held by reference, as React holds it. */
  datatype SettingsState = SettingsState(character: CharacterObject, ttsSettings: TtsSettings) {
    function Value(): Settings {
      Settings(character.value, ttsSettings)
    }
  }

  /**
   * SettingsProvider: the settings state cell and its storage slot. Every
   * change of the state is followed by the effect that writes it back; a
   * write that throws (`writeOk` false) is logged and leaves the slot as it was.
   */
  class SettingsProvider {
    const defaultCharacter: CharacterObject
    var settings: SettingsState
    var storage: Option<Stored>

    /** Mounting: the initial state from the stored value, then the write-back effect. */
    constructor (stored: Option<Stored>, defaultCharacter: CharacterObject, writeOk: bool)
      requires defaultCharacter.value == DefaultCharacterInfo
      ensures this.defaultCharacter == defaultCharacter
      ensures match GetInitialSettings(stored)
        case FromStorage(s) => fresh(settings.character) && settings.Value() == s
        case Defaults(_) => settings == SettingsState(defaultCharacter, BrowserTts)
      ensures storage ==
        if writeOk then Some(Parsed(Encode(settings.Value())))
        else if GetInitialSettings(stored) == Defaults(true) then None
        else stored
    {
      this.defaultCharacter := defaultCharacter;
      var initial := GetInitialSettings(stored);
      match initial {
        case FromStorage(s) =>
          var c := new CharacterObject(s.character);
          settings := SettingsState(c, s.ttsSettings);
          storage := stored;
        case Defaults(removed) =>
          settings := SettingsState(defaultCharacter, BrowserTts);
          storage := if removed then None else stored;
      }
      new;
      if writeOk {
        storage := Some(Parsed(Encode(settings.Value())));
      }
    }

    /** The write-back effect that follows every change of the state. */
    method Persist(writeOk: bool)
      modifies this`storage
      ensures storage == if writeOk then Some(Parsed(Encode(settings.Value()))) else old(storage)
    {
      if writeOk {
        storage := Some(Parsed(Encode(settings.Value())));
      }
    }

    /** setSettings, then the write-back. A complete character makes the write a faithful snapshot. */
    method SetSettings(newSettings: SettingsState, writeOk: bool)
      modifies this`settings, this`storage
      ensures settings == newSettings
      ensures storage == if writeOk then Some(Parsed(Encode(newSettings.Value()))) else old(storage)
      ensures writeOk && CharacterComplete(newSettings.character.value) ==>
                GetInitialSettings(storage) == FromStorage(newSettings.Value())
    {
      settings := newSettings;
      Persist(writeOk);
      if writeOk {
        SaveThenLoad(newSettings.Value());
      }
    }

    /** resetToDefaults, then the write-back. */
    method ResetToDefaults(writeOk: bool)
      requires defaultCharacter.value == DefaultCharacterInfo
      modifies this`settings, this`storage
      ensures settings == SettingsState(defaultCharacter, BrowserTts)
      ensures settings.Value() == DefaultSettings
      ensures storage == if writeOk then Some(Parsed(Encode(DefaultSettings))) else old(storage)
      ensures writeOk ==> GetInitialSettings(storage) == FromStorage(DefaultSettings)
    {
      settings := SettingsState(defaultCharacter, BrowserTts);
      Persist(writeOk);
      DefaultsSurviveReload();
    }
  }
}
