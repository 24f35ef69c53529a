/**
 * The reply-generation client: a module-level chat handle that is recreated
 * whenever the system instruction differs from the one it was made with, and
 * a response call that never fails towards its caller. The backend itself is
 * an oracle: each call is handed the `Result` the backend produced.
 */
module GeminiService {
  import opened Types

  const ApologyText: string := "申し訳ありません、エラーが発生しました。もう一度試してください。"

  /** A backend chat session, created with a fixed system instruction. */
  class Chat {
    const systemInstruction: string
    /** The messages sent through this chat instance, oldest first. */
    var sent: seq<string>

    constructor (systemInstruction: string)
      ensures this.systemInstruction == systemInstruction && sent == []
    {
      this.systemInstruction := systemInstruction;
      sent := [];
    }

    /** chat.sendMessage: the message goes to this instance; the backend decides the reply. */
    method SendMessage(message: string, backend: Result<string>) returns (reply: Result<string>)
      modifies this`sent
      ensures sent == old(sent) + [message]
      ensures reply == backend
    {
      sent := sent + [message];
      reply := backend;
    }
  }

  /** The text the caller receives: the backend's text, or the fixed apology for any failure. */
  function ResponseText(backend: Result<string>): (text: string)
    ensures backend.Err? ==> text == ApologyText
    ensures backend.Ok? ==> text == backend.value
  {
    match backend
    case Ok(t) => t
    case Err => ApologyText
  }

  /** The module-level state `chat` and `currentSystemInstruction`. */
  class ChatCache {
    var chat: Chat?
    var currentSystemInstruction: Option<string>

    /** Both are unset together, and the instruction recorded is the one the chat was made with. */
    ghost predicate Valid()
      reads this, chat
    {
      && (chat == null <==> currentSystemInstruction == None)
      && (chat != null ==> currentSystemInstruction == Some(chat.systemInstruction))
    }

    constructor ()
      ensures Valid() && chat == null && currentSystemInstruction == None
    {
      chat := null;
      currentSystemInstruction := None;
    }

    /**
     * getChatInstance: a new chat exactly when there is none yet or the
     * cached instruction differs; the handle returned is the cached one.
     */
    method GetChatInstance(systemInstruction: string) returns (instance: Chat)
      requires Valid()
      modifies this`chat, this`currentSystemInstruction
      ensures Valid()
      ensures chat == instance
      ensures currentSystemInstruction == Some(systemInstruction)
      ensures instance.systemInstruction == systemInstruction
      ensures if old(chat) == null || old(currentSystemInstruction) != Some(systemInstruction)
              then fresh(instance) && instance.sent == []
              else instance == old(chat)
    {
      if chat == null || currentSystemInstruction != Some(systemInstruction) {
        chat := new Chat(systemInstruction);
        currentSystemInstruction := Some(systemInstruction);
      }
      instance := chat;
    }

    /**
     * getChatResponse: never rejects. The message is sent through the cached
     * chat, so turns under one instruction share a session and a changed
     * instruction starts an empty one.
     */
    method GetChatResponse(message: string, systemInstruction: string, backend: Result<string>)
      returns (text: string)
      requires Valid()
      modifies this`chat, this`currentSystemInstruction, chat
      ensures Valid() && chat != null
      ensures text == ResponseText(backend)
      ensures currentSystemInstruction == Some(systemInstruction)
      ensures if old(chat) == null || old(currentSystemInstruction) != Some(systemInstruction)
              then fresh(chat) && chat.sent == [message]
              else chat == old(chat) && chat.sent == old(chat.sent) + [message]
    {
      var instance := GetChatInstance(systemInstruction);
      var reply := instance.SendMessage(message, backend);
      text := ResponseText(reply);
    }
  }

  /** Two calls with the same instruction in a row hand out the same chat instance. */
  method SameInstructionReusesChat(cache: ChatCache, systemInstruction: string)
    returns (first: Chat, second: Chat)
    requires cache.Valid()
    modifies cache
    ensures first == second && cache.chat == first
    ensures first.systemInstruction == systemInstruction
  {
    first := cache.GetChatInstance(systemInstruction);
    second := cache.GetChatInstance(systemInstruction);
  }
}
