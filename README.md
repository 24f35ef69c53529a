# AI character chat: a Dafny model of its core

This project models the logic of a single-page chat application. A user talks with a configurable AI
character. Each reply is generated by a remote backend and read aloud by a text-to-speech (TTS)
service. The model covers five parts:

- **Conversation session** (`UseChat`, from `hooks/useChat.ts`). The session is a message log and a
  loading flag. The log is replaced by a greeting whenever the character object changes. Sending a
  message appends the user's turn and sets the flag. Later the reply is appended, or a fixed error
  text if speech rejected, and the flag is cleared. `Step` specifies each step as a pure function.
  The class `ChatSession` holds the two state cells and is proved against `Step`.
  `SendAndReply` composes the whole turn: the chat cache, the selected TTS service speaking the
  response, and the end or error event of the utterance, which settles the speech.
- **Chat-instance cache** (`GeminiService`, from `services/geminiService.ts`). A module-level chat
  handle is recreated exactly when the system instruction differs from the cached one. Every
  backend failure becomes a fixed apology text. The backend is an oracle: each call receives the
  `Result` the backend produced.
- **Settings store** (`SettingsContext`, from `contexts/SettingsContext.tsx`). It covers the
  validation of the stored value, the fallback to the defaults, the write-back after every change,
  and reset to defaults. JSON values are an abstract datatype with JavaScript truthiness. The
  storage key is one optional slot.
- **TTS services** (`TtsService`, from `services/ttsService.ts`). The browser synthesizer is an
  abstract object: a voice list, a queue of utterances and the single `onvoiceschanged` handler
  slot. The model covers voice discovery once per instance, the choice of the first `ja-JP` voice,
  cancel-then-speak, the external service that delegates to its own browser service, and the
  selection of a service from the settings.
- **Settings dialog** (`SettingsModal`, from `components/SettingsModal.tsx`). Its handlers build new
  character and TTS records. The dialog keeps local copies, re-syncs them when it opens, and saves
  or resets through the store.

`Types` mirrors `types.ts` and the default character of `constants.ts`. React compares the
character by reference, and that reference is what triggers the chat reset. So a character is held
in a `CharacterObject`: a class with one constant field, where `!=` means JavaScript `!==`. React
effects become methods that the caller invokes after the change they depend on
(`ChatSession.OnCharacter`, `SettingsProvider.Persist`, `SettingsDialog.SyncEffect`).

## Behaviour the proofs bring out

- A backend failure never reaches the session's error branch. `getChatResponse` turns it into the
  apology text, which is spoken and appended like any reply (`SendAndReply`). The error text
  appears only when `speak` rejects, and then the real reply text is dropped (`PipelineEnd`,
  `TurnAppendsTwo`).
- A character change while a reply is in flight does not cancel the reply. The late reply is
  appended to the new log (`LateReplyAfterReset`). `sendMessage` does not look at the loading
  flag. Only the input box, which is disabled while loading, stops a second send.
- Saving the dialog without editing the character keeps the same character object, so the chat
  keeps its log. Editing any character field creates a new object, even when the value stays the
  same, so the chat starts over (`SaveWithoutCharacterEditKeepsLog`, `SameValueEditResetsLog`).
- The voices-changed handler slot holds only one handler. Suppose the voice list is still empty
  when an external service is built. Its private browser service takes the slot from the shared
  browser service. The shared service's voice loading then never settles, and speaking through it
  waits forever (`SharedServiceStrandedByExternal`).

## Behaviour worth knowing

- The external TTS service makes no remote call. Its comments describe a `fetch` to `apiUrl`
  with a fallback to the browser voice on failure (`services/ttsService.ts:69-70` and `:80-106`),
  but that code is commented out. `speak` waits 300 ms and then always uses the service's own
  browser instance.
- `getChatResponse` catches every backend error and returns the apology text
  (`services/geminiService.ts:32-35`). So the `catch` block of `sendMessage`
  (`hooks/useChat.ts:49-56`) only runs when speech rejects.
- `sendMessage` does not read `isLoading` (`hooks/useChat.ts:23-33`). A second send while a reply
  is in flight appends another user message and starts a second pipeline.
- The reset effect (`hooks/useChat.ts:13-21`) replaces the log but does not stop a reply that is
  in flight. The reply is appended to the new log.
- The settings check (`contexts/SettingsContext.tsx:34`) only asks that `apiUrl` is a string. An
  `external` setting with an empty `apiUrl` passes it (`EmptyApiUrlAccepted`).

## Model

| member | source | states |
|---|---|---|
| `SettingsContext.GetInitialSettings` | contexts/SettingsContext.tsx:20-50 | The key is removed exactly on a parse error or a stored `null`. A stored value is used if and only if it parsed and passed the check, and then its typed view is the result. |
| `SettingsContext.PassesValidation` | contexts/SettingsContext.tsx:26-39 | A value passes only if it is an object with `character` and `ttsSettings` present and a `type` of exactly `browser` or `external`. |
| `SettingsContext.Decode` | contexts/SettingsContext.tsx:24-38 | The typed view of a value that passed: browser exactly when the stored type is `browser`, and an external setting keeps the stored `apiUrl` string. |
| `SettingsContext.Encode` | contexts/SettingsContext.tsx:57 | The serialised settings have exactly the keys `JSON.stringify` writes, with `apiKey` only when set. They pass the load check exactly when every character field is non-empty. |
| `SettingsContext.SaveThenLoad` | contexts/SettingsContext.tsx:26-39 | Saving settings and reloading them gives them back exactly when every character field is non-empty. Otherwise the reload gives the defaults. |
| `SettingsContext.LoadKeepsStoredValue` | contexts/SettingsContext.tsx:26-39 | A stored value of the declared shape that passes the check is returned unchanged. |
| `SettingsContext.UnknownTypeFallsBack` | contexts/SettingsContext.tsx:32-40 | A `type` string other than `browser` or `external` gives the defaults, and the key is kept. |
| `SettingsContext.ExternalWithoutUrlFallsBack` | contexts/SettingsContext.tsx:34-40 | `external` with a non-string `apiUrl` gives the defaults. |
| `SettingsContext.EmptyApiUrlAccepted` | contexts/SettingsContext.tsx:34-36 | `external` with an empty `apiUrl` passes the check and is reloaded as it was saved. |
| `SettingsContext.DefaultsSurviveReload` | constants.ts:3-7 | The compiled-in defaults pass the check, so saving and reloading them gives them back. |
| `SettingsContext.SettingsProvider.constructor` | contexts/SettingsContext.tsx:52-61 | The initial state is the validated stored value in a new character object, or the shared default object. Afterwards the slot holds the serialised state, or is left as the load left it if the write fails. |
| `SettingsContext.SettingsProvider.Persist` | contexts/SettingsContext.tsx:55-61 | The slot holds the serialised current settings. A failed write leaves the slot as it was. |
| `SettingsContext.SettingsProvider.SetSettings` | contexts/SettingsContext.tsx:63-65 | The state becomes exactly the new settings. After a successful write, reloading gives them back when the character is complete. |
| `SettingsContext.SettingsProvider.ResetToDefaults` | contexts/SettingsContext.tsx:67-72 | The state is exactly the default character object with browser TTS. After a successful write, reloading gives the defaults. |
| `GeminiService.ChatCache.constructor` | services/geminiService.ts:9-10 | No chat and no cached instruction. |
| `GeminiService.ChatCache.GetChatInstance` | services/geminiService.ts:14-26 | A fresh chat made with exactly the given instruction, if and only if there was no chat or the cached instruction differs. Otherwise the cached chat. Afterwards the cached instruction is the argument. |
| `GeminiService.Chat.SendMessage` | services/geminiService.ts:31 | The message is recorded on this chat instance, and the backend decides the reply. |
| `GeminiService.ResponseText` | services/geminiService.ts:28-37 | The backend's text on success. The fixed apology on any failure. |
| `GeminiService.ChatCache.GetChatResponse` | services/geminiService.ts:28-37 | Never fails. Under an unchanged instruction the message joins the same chat's history. A changed instruction starts a fresh chat holding only this message. |
| `GeminiService.SameInstructionReusesChat` | services/geminiService.ts:14-26 | Two calls in a row with the same instruction return the same chat. |
| `TtsService.FirstJapaneseVoice` | services/ttsService.ts:32-37 | None exactly when no voice has lang `ja-JP`. Otherwise the voice at the first index whose lang is exactly `ja-JP`. |
| `TtsService.SpeakResult` | services/ttsService.ts:39-65 | An utterance is submitted exactly when loading resolved and synthesis exists. It carries the text and the ja-JP voice only if one was found. It waits exactly while loading is pending. |
| `TtsService.SpeechSynthesis.VoicesChanged` | services/ttsService.ts:25-28 | Only the one registered handler runs. It re-finds the voice and resolves its pending load. |
| `TtsService.SpeechSynthesis.UtteranceSettled` | services/ttsService.ts:57-61 | The utterance at the head of the queue leaves it. Its speak promise resolves exactly when it ended and rejects when it reported an error. With nothing queued nothing settles. |
| `TtsService.BrowserTtsService.constructor` | services/ttsService.ts:13-15 | Loading starts once. It rejects without synthesis and resolves at once when voices exist. Otherwise it takes the handler slot and stays pending. |
| `TtsService.BrowserTtsService.LoadVoices` | services/ttsService.ts:17-30 | The same three outcomes as the constructor. |
| `TtsService.BrowserTtsService.FindJapaneseVoice` | services/ttsService.ts:32-37 | The stored voice is the first ja-JP voice of the current list. |
| `TtsService.BrowserTtsService.OnVoicesChanged` | services/ttsService.ts:25-28 | Re-finds the voice and resolves a pending load. |
| `TtsService.BrowserTtsService.Speak` | services/ttsService.ts:39-65 | Never reloads voices. When it submits, the synthesizer holds exactly the one new utterance (cancel, then speak). Otherwise nothing changes. |
| `TtsService.ExternalTtsService.constructor` | services/ttsService.ts:68-73 | Keeps the endpoint and key, and builds its own fresh browser service. That service starts loading from the synthesizer's current voice list. |
| `TtsService.ExternalTtsService.Speak` | services/ttsService.ts:75-111 | Exactly what its private browser service's speak does. |
| `TtsService.TtsModule.constructor` | services/ttsService.ts:114 | One browser service is built when the module loads. Its load state and voice come from the voice list at that moment. It takes the handler slot only when synthesis exists and the list is empty. |
| `TtsService.TtsModule.GetTtsService` | services/ttsService.ts:116-124 | `external` gives a fresh external service with that endpoint and key. `browser` gives the one shared browser service and leaves the handler slot alone. A new external service starts loading from the current voice list and takes the slot only when that list is empty. |
| `TtsService.SpeakWith` | hooks/useChat.ts:44-45 | `speak` on the selected service behaves as its browser service's speak. When nothing is submitted the queue is unchanged. |
| `TtsService.TtsModule.SpeakAndSettle` | hooks/useChat.ts:44-45 | The selected service speaks the text with the load state and voice it has. A submitted utterance then settles, leaving the queue empty, and the promise resolves exactly when the utterance ended. Only a new external service made while the voice list is empty takes the handler slot. |
| `TtsService.SharedServiceStrandedByExternal` | services/ttsService.ts:17-29 | An external service built before the voices arrive takes the handler slot. The shared service then stays pending, and its speak keeps waiting. |
| `UseChat.Trim` | hooks/useChat.ts:24 | `text.trim()` is the slice after the leading whitespace. It neither starts nor ends with whitespace, and only whitespace is cut off after it. |
| `UseChat.Step` | hooks/useChat.ts:13-59 | Every session update. A character change leaves one message and keeps the flag. Any other step keeps the log as a prefix and adds at most one message. Only a non-blank send sets the flag, and a settled reply clears it. |
| `UseChat.BlankIffAllWhitespace` | hooks/useChat.ts:24 | `text.trim()` is empty exactly when every character is ECMAScript whitespace or a line terminator, including U+3000. |
| `UseChat.Greeting` | hooks/useChat.ts:14-20 | id `init`, sent by the character, with the character's name inside the text. |
| `UseChat.PipelineEnd` | hooks/useChat.ts:35-59 | The error text exactly when speech did not resolve. Otherwise the backend's text, or the apology when the backend failed. |
| `UseChat.BlankSendIsNoOp` | hooks/useChat.ts:24 | A whitespace-only send changes neither the log nor the flag. |
| `UseChat.NonBlankSendAppendsUserTurn` | hooks/useChat.ts:26-33 | A non-blank send appends exactly one user message with the untrimmed text and sets the flag, even when already busy. |
| `UseChat.ResetLeavesGreeting` | hooks/useChat.ts:13-21 | After a character change the log is exactly one greeting naming the new character. |
| `UseChat.TurnAppendsTwo` | hooks/useChat.ts:23-60 | A non-blank turn grows the log by one user message and then one character message. The earlier log is kept and the flag ends clear on both branches. |
| `UseChat.LateReplyAfterReset` | hooks/useChat.ts:32-47 | A reset between the send and the reply keeps the reply: the log is the greeting followed by the reply. |
| `UseChat.RunWithoutResetAppends` | hooks/useChat.ts:32-56 | With no character change, the log only grows at its end, by one message per non-blank send and one per settled reply. |
| `UseChat.RunKeepsUserTurnsNonBlank` | hooks/useChat.ts:24-32 | Every user message in the log stays non-blank, whatever happens. |
| `UseChat.ChatSession.constructor` | hooks/useChat.ts:9-21 | On mount the log is the greeting for the current character and the flag is clear. |
| `UseChat.ChatSession.OnCharacter` | hooks/useChat.ts:13-21 | The reset step happens exactly when the character object differs from the last one seen. |
| `UseChat.ChatSession.SendMessage` | hooks/useChat.ts:23-33 | Starts exactly when the text is not blank. The new state is the send step, with no check of the flag. |
| `UseChat.ChatSession.AppendReply` | hooks/useChat.ts:38-59 | Appends the reply to the current log and clears the flag. |
| `UseChat.ChatSession.AppendError` | hooks/useChat.ts:49-59 | Appends the fixed error text to the current log and clears the flag. |
| `UseChat.ChatSession.SendAndReply` | hooks/useChat.ts:23-60 | The whole turn. A blank text changes nothing. Otherwise the text joins the same chat object when the character's instruction is unchanged, or a fresh chat holding only this text when it changed. The response text (the backend's text or the apology) is what gets spoken, by the shared or a new service as the settings say. The log gets the send and then the reply when the utterance ended, or the error text when it errored or speech rejected. While speech waits for voices the flag stays set. |
| `SettingsModal.WithCharacterField` | components/SettingsModal.tsx:36-38 | The named field takes the value, and the other two fields are unchanged. |
| `SettingsModal.WithCharacterFieldUnchanged` | components/SettingsModal.tsx:37 | Writing back a field's own value gives the same character. |
| `SettingsModal.WithTtsType` | components/SettingsModal.tsx:40-48 | Browser gives exactly browser. External keeps an external setting's endpoint and key, and turns browser into an empty endpoint with an empty key. |
| `SettingsModal.WithTtsTypeIdempotent` | components/SettingsModal.tsx:40-48 | Choosing a type twice is the same as choosing it once. |
| `SettingsModal.BrowserAndBackClearsEndpoint` | components/SettingsModal.tsx:40-48 | Switching to browser and back to external loses the endpoint and the key. |
| `SettingsModal.WithExternalField` | components/SettingsModal.tsx:50-54 | A no-op on a browser setting. On an external one only the named field changes. |
| `SettingsModal.SettingsDialog.constructor` | components/SettingsModal.tsx:17-19 | The local copies start as the stored settings. |
| `SettingsModal.SettingsDialog.SyncEffect` | components/SettingsModal.tsx:21-26 | While open, the local copies are the stored settings. While closed they are untouched. |
| `SettingsModal.SettingsDialog.Open` | components/SettingsModal.tsx:21-26 | Opening discards unsaved edits. |
| `SettingsModal.SettingsDialog.Close` | components/ChatInterface.tsx:101 | The dialog is closed. |
| `SettingsModal.SettingsDialog.HandleCharacterChange` | components/SettingsModal.tsx:36-38 | A new character object with exactly the one field replaced. |
| `SettingsModal.SettingsDialog.HandleTtsTypeChange` | components/SettingsModal.tsx:40-48 | The local TTS setting becomes the type-switch transform of the old one. |
| `SettingsModal.SettingsDialog.HandleExternalTtsChange` | components/SettingsModal.tsx:50-54 | The local TTS setting becomes the field-edit transform of the old one. |
| `SettingsModal.SettingsDialog.HandleSave` | components/SettingsModal.tsx:28-34 | The store receives exactly the local character object and TTS setting, and the dialog closes. |
| `SettingsModal.SettingsDialog.HandleReset` | components/SettingsModal.tsx:56-59 | The store holds the shared default character object with browser TTS. After a successful write the slot reloads as the defaults, and after a failed one it is unchanged. The dialog closes. |
| `SettingsModal.SaveWithoutCharacterEditKeepsLog` | hooks/useChat.ts:13-21 | A save after any TTS type choice and endpoint or key edit keeps the same character object, so the chat log is unchanged. The saved TTS setting is the two edits applied to the old one. |
| `SettingsModal.SameValueEditResetsLog` | hooks/useChat.ts:13-21 | Editing a character field to the value it had saves an equal but different character object, and the log becomes the greeting. |

## Left out

- GetInitialSettings: the source returns the parsed value itself. Extra keys and truthy fields that are not strings (a number as the name, say) pass its check and are kept. The model keeps the typed view: it drops extra keys and reads a non-string field as the empty string.
- JSON text, `JSON.parse`/`JSON.stringify` and `localStorage` are abstracted. The slot holds a parsed value, text that does not parse, or an empty string. Whether a write throws is a parameter.
- Message ids come from `Date.now()`. They are opaque `now` strings given by the caller, and the model does not assume they are unique.
- The backend is an oracle. The Gemini SDK, the model name and the `API_KEY` startup check are not modelled. Creating a chat is assumed not to throw.
- The 300 ms delay, the commented-out fetch and all console logging are not modelled.
- Speech playback is not modelled. Whether a submitted utterance ends or errors is a parameter, the browser's event. What a browser reports to an utterance removed by `cancel()` differs between browsers and is not modelled. The model only empties the queue.
- A speak that waits for voices resumes when the caller calls `Speak` again after `VoicesChanged`. The waiting promise itself is not a value in the model.
- The `default:` branch of `getTTSService` is not modelled, because the typed settings have only the two tags.
- React rendering, batching and context plumbing are not modelled, and neither is the `useSettings` outside-provider error. Effects are methods the caller runs after the change they depend on.
- Rendering, styling, icons, scrolling, the chat input box (including its disabling while loading) and the message bubble's replay button are user interface and are not modelled.
