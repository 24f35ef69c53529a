/**
 * The settings dialog's editing logic: the record updates its handlers
 * compute, the local copies they are written into, the re-sync when the
 * dialog opens, and saving or resetting through the settings provider.
 */
module SettingsModal {
  import opened Types
  import SettingsContext
  import UseChat

  /** The `name` attribute of the character inputs. */
  datatype CharacterField = Name | AvatarUrl | SystemInstruction

  /** The `name` attribute of the external-API inputs. */
  datatype ExternalField = ApiUrl | ApiKey

  /** The radio buttons. */
  datatype TtsType = BrowserType | ExternalType

  function FieldValue(c: Character, f: CharacterField): string {
    match f
    case Name => c.name
    case AvatarUrl => c.avatarUrl
    case SystemInstruction => c.systemInstruction
  }

  /** handleCharacterChange's `{ ...localCharacter, [name]: value }`: that field replaced, the others kept. */
  function WithCharacterField(c: Character, f: CharacterField, v: string): (r: Character)
    ensures FieldValue(r, f) == v
    ensures forall g: CharacterField | g != f :: FieldValue(r, g) == FieldValue(c, g)
  {
    match f
    case Name => c.(name := v)
    case AvatarUrl => c.(avatarUrl := v)
    case SystemInstruction => c.(systemInstruction := v)
  }

  /** Writing back the value a field already has changes nothing. */
  lemma WithCharacterFieldUnchanged(c: Character, f: CharacterField)
    ensures WithCharacterField(c, f, FieldValue(c, f)) == c
  {
  }

  /** The two external-API inputs as read from a setting; the key may be absent. */
  function ExternalFieldValue(t: TtsSettings, f: ExternalField): Option<string>
    requires t.ExternalTts?
  {
    match f
    case ApiUrl => Some(t.apiUrl)
    case ApiKey => t.apiKey
  }

  /**
   * handleTtsTypeChange. Browser drops the endpoint and the key; external keeps
   * the endpoint and key of an external setting, and starts a browser setting
   * with an empty endpoint and an empty key.
   */
  function WithTtsType(current: TtsSettings, t: TtsType): (r: TtsSettings)
    ensures (t == BrowserType) <==> r == BrowserTts
    ensures t == ExternalType && current.ExternalTts? ==> r == current
    ensures t == ExternalType && current.BrowserTts? ==> r == ExternalTts("", Some(""))
  {
    if t == BrowserType then BrowserTts
    else
      var currentApiUrl := if current.ExternalTts? then current.apiUrl else "";
      var currentApiKey := if current.ExternalTts? then current.apiKey else Some("");
      ExternalTts(currentApiUrl, currentApiKey)
  }

  /** Choosing a type twice is the same as choosing it once. */
  lemma WithTtsTypeIdempotent(current: TtsSettings, t: TtsType)
    ensures WithTtsType(WithTtsType(current, t), t) == WithTtsType(current, t)
  {
  }

  /** Going to browser and back loses the endpoint and the key. */
  lemma BrowserAndBackClearsEndpoint(current: TtsSettings)
    ensures WithTtsType(WithTtsType(current, BrowserType), ExternalType) == ExternalTts("", Some(""))
  {
  }

  /**
   * handleExternalTtsChange: a no-op unless the setting is external; otherwise
   * the named field takes the value and the type and the other field stay.
   */
  function WithExternalField(current: TtsSettings, f: ExternalField, v: string): (r: TtsSettings)
    ensures current.BrowserTts? ==> r == current
    ensures current.ExternalTts? ==>
      && r.ExternalTts?
      && ExternalFieldValue(r, f) == Some(v)
      && forall g: ExternalField | g != f :: ExternalFieldValue(r, g) == ExternalFieldValue(current, g)
  {
    match current
    case BrowserTts => current
    case ExternalTts(_, _) =>
      match f
      case ApiUrl => current.(apiUrl := v)
      case ApiKey => current.(apiKey := Some(v))
  }

  /** The dialog's state cells and the props it depends on. */
  class SettingsDialog {
    const provider: SettingsContext.SettingsProvider
    var isOpen: bool
    var localCharacter: CharacterObject
    var localTts: TtsSettings

    /** The local copies start from the settings (useState initialisers); the dialog is closed. */
    constructor (provider: SettingsContext.SettingsProvider)
      ensures this.provider == provider && !isOpen
      ensures localCharacter == provider.settings.character && localTts == provider.settings.ttsSettings
    {
      this.provider := provider;
      isOpen := false;
      localCharacter := provider.settings.character;
      localTts := provider.settings.ttsSettings;
    }

    /** The effect on [isOpen, settings]: while open, the local copies are the stored settings. */
    method SyncEffect()
      modifies this`localCharacter, this`localTts
      ensures isOpen ==> localCharacter == provider.settings.character && localTts == provider.settings.ttsSettings
      ensures !isOpen ==> localCharacter == old(localCharacter) && localTts == old(localTts)
    {
      if isOpen {
        localCharacter := provider.settings.character;
        localTts := provider.settings.ttsSettings;
      }
    }

    /** Opening discards unsaved edits: the local copies become the stored settings. */
    method Open()
      modifies this`isOpen, this`localCharacter, this`localTts
      ensures isOpen
      ensures localCharacter == provider.settings.character && localTts == provider.settings.ttsSettings
    {
      isOpen := true;
      SyncEffect();
    }

    /** The cancel button and the backdrop. */
    method Close()
      modifies this`isOpen
      ensures !isOpen
    {
      isOpen := false;
    }

    /** handleCharacterChange: a new character object with the one field replaced. */
    method HandleCharacterChange(f: CharacterField, v: string)
      modifies this`localCharacter
      ensures fresh(localCharacter)
      ensures localCharacter.value == WithCharacterField(old(localCharacter.value), f, v)
    {
      localCharacter := new CharacterObject(WithCharacterField(localCharacter.value, f, v));
    }

    method HandleTtsTypeChange(t: TtsType)
      modifies this`localTts
      ensures localTts == WithTtsType(old(localTts), t)
    {
      localTts := WithTtsType(localTts, t);
    }

    method HandleExternalTtsChange(f: ExternalField, v: string)
      modifies this`localTts
      ensures localTts == WithExternalField(old(localTts), f, v)
    {
      localTts := WithExternalField(localTts, f, v);
    }

    /** handleSave: exactly the local character object and TTS setting go to the store; the dialog closes. */
    method HandleSave(writeOk: bool)
      modifies provider`settings, provider`storage, this`isOpen
      ensures provider.settings == SettingsContext.SettingsState(localCharacter, localTts)
      ensures provider.storage ==
        if writeOk then Some(SettingsContext.Parsed(SettingsContext.Encode(Settings(localCharacter.value, localTts))))
        else old(provider.storage)
      ensures !isOpen
    {
      provider.SetSettings(SettingsContext.SettingsState(localCharacter, localTts), writeOk);
      isOpen := false;
    }

    /** handleReset: the store goes back to the defaults; the dialog closes. */
    method HandleReset(writeOk: bool)
      requires provider.defaultCharacter.value == DefaultCharacterInfo
      modifies provider`settings, provider`storage, this`isOpen
      ensures provider.settings == SettingsContext.SettingsState(provider.defaultCharacter, BrowserTts)
      ensures provider.settings.Value() == DefaultSettings
      ensures provider.storage ==
        if writeOk then Some(SettingsContext.Parsed(SettingsContext.Encode(DefaultSettings))) else old(provider.storage)
      ensures writeOk ==> SettingsContext.GetInitialSettings(provider.storage) == SettingsContext.FromStorage(DefaultSettings)
      ensures !isOpen
    {
      provider.ResetToDefaults(writeOk);
      isOpen := false;
    }
  }

  /**
   * Saving TTS edits (a type choice, then an endpoint or key edit) without
   * touching the character keeps the character object, so the chat keeps its log.
   */
  method SaveWithoutCharacterEditKeepsLog(provider: SettingsContext.SettingsProvider,
                                          session: UseChat.ChatSession, writeOk: bool,
                                          t: TtsType, f: ExternalField, v: string)
    requires session.character == provider.settings.character
    modifies provider, session
    ensures provider.settings.character == old(provider.settings.character)
    ensures provider.settings.ttsSettings == WithExternalField(WithTtsType(old(provider.settings.ttsSettings), t), f, v)
    ensures session.messages == old(session.messages)
  {
    var dialog := new SettingsDialog(provider);
    dialog.Open();
    dialog.HandleTtsTypeChange(t);
    dialog.HandleExternalTtsChange(f, v);
    dialog.HandleSave(writeOk);
    session.OnCharacter(provider.settings.character);
  }

  /**
   * Editing a character field, even back to the value it had, makes a new
   * character object: the saved character is equal to the old one, yet the
   * chat starts over with the greeting.
   */
  method SameValueEditResetsLog(provider: SettingsContext.SettingsProvider,
                                session: UseChat.ChatSession, writeOk: bool)
    requires session.character == provider.settings.character
    modifies provider, session
    ensures provider.settings.character != old(provider.settings.character)
    ensures provider.settings.character.value == old(provider.settings.character.value)
    ensures session.messages == [UseChat.Greeting(provider.settings.character.value.name)]
  {
    var dialog := new SettingsDialog(provider);
    dialog.Open();
    var name := dialog.localCharacter.value.name;
    dialog.HandleCharacterChange(Name, name);
    dialog.HandleSave(writeOk);
    session.OnCharacter(provider.settings.character);
  }
}
