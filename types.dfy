/** Shared value types of the chat application and its compiled-in constants. */
module Types {

  datatype Option<+T> = None | Some(value: T)

  /** The outcome of a call into a collaborator that can fail (a rejected promise, a thrown error). */
  datatype Result<+T> = Ok(value: T) | Err

  /** Who authored a message. */
  datatype Sender = User | CharacterSender

  /** One turn of the conversation; `id` is an opaque key for the user interface. */
  datatype Message = Message(id: string, text: string, sender: Sender)

  /** The persona the reply backend is asked to play. */
  datatype Character = Character(name: string, avatarUrl: string, systemInstruction: string)

  /** Which speech synthesizer to use: the browser's own, or an external API. */
  datatype TtsSettings =
    | BrowserTts
    | ExternalTts(apiUrl: string, apiKey: Option<string>)

  /** The persisted settings aggregate, as a value. */
  datatype Settings = Settings(character: Character, ttsSettings: TtsSettings)

  /**
   * A JavaScript object holding a character. React compares the character by
   * reference, so identity matters: `a != b` on two of these is `a !== b`.
   */
  class CharacterObject {
    const value: Character

    constructor (value: Character)
      ensures this.value == value
    {
      this.value := value;
    }
  }

  /** The default persona, DEFAULT_CHARACTER_INFO. */
  const DefaultCharacterInfo: Character := Character(
    "ミライ",
    "https://picsum.photos/seed/miraichan/100/100",
    "あなたは「ミライ」という名前の、親しみやすく、少し未来的な知識を持つAIアシスタントです。ユーザーからの質問や会話に、日本語でフレンドリーに、そして少しユーモアを交えて応答してください。応答は常に簡潔に、2〜3文程度にまとめてください。"
  )

  /** The settings used when nothing valid is stored, and after a reset. */
  const DefaultSettings: Settings := Settings(DefaultCharacterInfo, BrowserTts)
}
