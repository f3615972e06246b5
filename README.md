# Verified model of the rn-ai-chat client core

This project models, in Dafny, the four pieces of state-and-rule logic of a React Native
chat client:

- **Streaming reply accumulator** (`ChatStream`, from `hooks/useChatStream.ts`).
  `streamChatGPT` raises the loading flag, resets the reply buffer and builds the request
  body. The body holds a text part and, when the image payload is truthy, a JPEG data-URI
  image part. It then opens a server-sent-event connection. The `message` listener closes
  the stream on `[DONE]`. It appends the non-empty `content` of a parsable frame. It skips
  every other frame. The `end` and `error` listeners call `cleanup`. The hook is the class
  `ChatStreamHook`. Each listener is specified by the pure `Step` function. `Deliver` folds
  `Step` over the events of a connection. Lemmas relate `Deliver` to `Received`, an
  independent definition of the reply: the fragments that arrive before the first closing
  event.
- **Pending attachment** (`ChatInput`, from `components/ChatInput.tsx`). This covers the
  prefix-based document MIME allow-list, the image and document picker handlers, and the
  remove buttons. `PendingAttachment` holds the single pending attachment, which the
  handlers replace, keep or clear, or they report an error instead.
- **Recording session** (`SpeechToText`, from `hooks/useSpeechToText.ts`). This covers the
  permission gate on start, the status callback, the stop and the transcription result rule.
  The status callback stores a numeric metering value as it is, or otherwise takes a walk
  clamped to [-60, 0]. The stop does nothing without a recording. A stop that succeeds
  resets the session to not recording with metering -160, then uploads a truthy URI.
- **Mock auth store** (`AuthStore`, from `store/useAuthStore.ts`). `login` accepts one
  hard-coded account. `logout` restores the initial state. `updateProfile` replaces the
  user. The invariant "authenticated implies a user" holds in every reachable state.

Platform and network calls become parameters:

| call | parameter |
|---|---|
| `JSON.parse(data).content \|\| ""` | `parse: string -> Option<string>` (None where it throws) |
| permission request | `permissionStatus` |
| recording creation | `created` |
| stop and unload | `stopSucceeded` |
| `getURI` | `uri` |
| transcription fetch | `response` |
| `Math.random() * 20 - 10` | `delta` |
| picker calls | `PickOutcome` values |

Error callbacks become out-parameters that carry the message the callback receives.

Behaviours of the code worth noting:

- A stop whose `stopAndUnloadAsync` throws resets nothing: the session stays recording.
- A denied permission is logged and swallowed. No error reaches the caller.
- Starting while already recording replaces the held recording and does not stop it.

## Model

| member | source | states |
|---|---|---|
| `ChatStream.ContentParts` | hooks/useChatStream.ts:23-33 | the content starts with the text part carrying the prompt; a second, image part exists iff the payload is present and non-empty, with URL `data:image/jpeg;base64,` + payload and detail "high" |
| `ChatStream.RequestBodyRoundTrip` | hooks/useChatStream.ts:23-44 | every built body is well formed (model gpt-4o-mini, stream true, exactly one "user" message); reading it back yields the prompt and exactly the truthy image payload |
| `ChatStream.ClassifyFrame` | hooks/useChatStream.ts:61-75 | a frame closes iff its data is `[DONE]`; it appends only a non-empty parsed content; it is skipped iff it fails to parse or its content is missing or empty |
| `ChatStream.StepEffect` | hooks/useChatStream.ts:61-95 | a closing event (`[DONE]`, `end`, `error`) keeps the buffer and turns loading and the connection off; any other event only appends its fragment |
| `ChatStream.DeliverFromOpen` | hooks/useChatStream.ts:61-95 | from an open, loading state, delivering any events appends exactly the fragments before the first closing event; loading and the connection stay on iff no event closed |
| `ChatStream.StreamOutcome` | hooks/useChatStream.ts:17-95 | after start and any events the buffer is the in-order concatenation of the contents received before the close, loading is on iff nothing closed, and loading equals connection-open |
| `ChatStream.FramesThenDone` | hooks/useChatStream.ts:63-71 | frames f1..fn without a close, then `[DONE]`: the buffer is the concatenation of their non-empty contents, loading off, connection closed |
| `ChatStream.CleanupIdempotent` | hooks/useChatStream.ts:89-95 | a second `cleanup` changes nothing |
| `ChatStream.ChatStreamHook.constructor` | hooks/useChatStream.ts:12-15 | initially the buffer is empty, not loading, no connection |
| `ChatStream.ChatStreamHook.StreamChatGPT` | hooks/useChatStream.ts:17-55 | loading on and buffer "" before any frame, connection open; the request is a POST of the built body to the chat endpoint |
| `ChatStream.ChatStreamHook.OnOpen` | hooks/useChatStream.ts:57-59 | the open listener changes nothing |
| `ChatStream.ChatStreamHook.OnMessage` | hooks/useChatStream.ts:61-75 | `[DONE]` keeps the buffer, loading off, connection closed; a non-empty content is appended unchanged at the end; a skipped frame changes nothing |
| `ChatStream.ChatStreamHook.OnEnd` | hooks/useChatStream.ts:77 | `end` keeps the buffer, loading off, connection closed |
| `ChatStream.ChatStreamHook.OnError` | hooks/useChatStream.ts:79-86 | every kind of `error` keeps the buffer, loading off, connection closed |
| `ChatStream.ChatStreamHook.Cleanup` | hooks/useChatStream.ts:89-95 | loading off, connection dropped, buffer kept; the loading-iff-open invariant holds |
| `ChatInput.SomePrefixOf` | components/ChatInput.tsx:74-76 | `some(startsWith)` holds iff some listed type is a prefix of the string |
| `ChatInput.IsSupported` | components/ChatInput.tsx:68-76 | accepted iff a MIME type is present and starts with the PDF, MS Word or OOXML word-processing type or with `text/` |
| `ChatInput.AcceptedByPrefix` | components/ChatInput.tsx:68-76 | acceptance is by prefix: any allowed entry followed by anything, so any `text/` type, is accepted |
| `ChatInput.RejectedExamples` | components/ChatInput.tsx:74-76 | no MIME type, `image/png`, a truncated type and `text` without the slash are all rejected |
| `ChatInput.ImagePickDecision` | components/ChatInput.tsx:42-57 | an exception reports its message; a cancelled or empty pick keeps the attachment; otherwise the first asset becomes an image attachment with no name or MIME type |
| `ChatInput.FilePickDecision` | components/ChatInput.tsx:59-92 | an exception reports its message; a cancelled or empty pick keeps; an unsupported type reports the fixed message; an accepted one becomes a file with name `name` or "unknown" and its allowed, non-empty MIME type |
| `ChatInput.DecisionsPick` | components/ChatInput.tsx:48-87 | whatever the pickers set is a well-formed picked attachment |
| `ChatInput.PendingAttachment.constructor` | components/ChatInput.tsx:24-25 | no attachment is pending initially (the chat screen that owns the state starts it at null) |
| `ChatInput.PendingAttachment.HandlePickImage` | components/ChatInput.tsx:42-57 | the attachment is replaced only on a selection, otherwise unchanged; the image error callback is invoked only on an exception |
| `ChatInput.PendingAttachment.HandlePickFile` | components/ChatInput.tsx:59-92 | the attachment is replaced only by an accepted document, otherwise unchanged; the file error callback gets the exception or the fixed message |
| `ChatInput.PendingAttachment.RemoveAttachment` | components/ChatInput.tsx:112-130 | the attachment is cleared whatever its kind |
| `SpeechToText.FallbackMetering` | hooks/useSpeechToText.ts:32-35 | the fallback always lies in [-60, 0], equals `prev + delta` inside that range, and saturates at the bound outside it |
| `SpeechToText.MeteringAfterLast` | hooks/useSpeechToText.ts:28-37 | after status updates the metering is the last numeric value verbatim (unclamped), or lies in [-60, 0] when the last update had none |
| `SpeechToText.TranscriptionText` | hooks/useSpeechToText.ts:72-82 | the transcription is the response's text for a 2xx response and "" for a non-2xx response or an exception |
| `SpeechToText.SendAudioForTranscription` | hooks/useSpeechToText.ts:61-83 | posts one file field named recording.m4a of type audio/mp4 to the speech endpoint and returns the result rule's text |
| `SpeechToText.SpeechSession.constructor` | hooks/useSpeechToText.ts:5-8 | initially no recording, not recording, transcription "", metering -160 |
| `SpeechToText.SpeechSession.StartRecording` | hooks/useSpeechToText.ts:10-41 | without "granted" permission or a created recording no state changes; otherwise the recording is stored and recording is on |
| `SpeechToText.SpeechSession.OnRecordingStatusUpdate` | hooks/useSpeechToText.ts:28-37 | only the metering changes, to the numeric value verbatim or the clamped walk |
| `SpeechToText.SpeechSession.StopRecording` | hooks/useSpeechToText.ts:43-59 | no recording or a failing stop: nothing changes and nothing is uploaded; otherwise recording off, recording null, metering -160, and the transcription is updated iff the URI is truthy |
| `AuthStore.Apply` | store/useAuthStore.ts:17-39 | every operation preserves "authenticated implies a user"; authenticated afterwards iff a successful login, or authenticated before and not a logout |
| `AuthStore.AlwaysConsistent` | store/useAuthStore.ts:17-39 | every state reachable from the initial one satisfies the invariant |
| `AuthStore.ReachableConsistent` | store/useAuthStore.ts:21-38 | any sequence of operations from a consistent state ends in a consistent state |
| `AuthStore.AuthenticatedAfter` | store/useAuthStore.ts:21-34 | after a sequence of operations the store is authenticated iff some successful login has had no later logout, or it started authenticated and saw no logout |
| `AuthStore.LogoutIdempotent` | store/useAuthStore.ts:32-34 | logout yields the initial state, and a second logout changes nothing |
| `AuthStore.Store.constructor` | store/useAuthStore.ts:18-19 | initially no user and not authenticated |
| `AuthStore.Store.Login` | store/useAuthStore.ts:21-30 | returns true iff the credentials are test@example.com / password123, then the user is {email, "John Doe", ""} and authenticated; otherwise nothing changes |
| `AuthStore.Store.Logout` | store/useAuthStore.ts:32-34 | restores the initial state |
| `AuthStore.Store.UpdateProfile` | store/useAuthStore.ts:36-38 | the user is replaced and the authenticated flag is unchanged |

## Left out

- The event-source connection, SSE framing and `JSON.parse` are external. Frames arrive as `StreamEvent` values. Parsing is the `parse` parameter.
- `JSON.stringify` of the request body is left out. The body is kept as a structured value. The `Content-Type` header appears only as a string field.
- `Deliver` assumes a closed connection dispatches no further events. The listeners themselves are unguarded, as in the source.
- Overlapping streams are not modelled. The source keeps `es` in a variable that each render recreates. A second `streamChatGPT` before the first connection closes leaves the earlier connection's listeners tied to the shared variable. The model tracks one connection.
- React's batching of state updates is not modelled. Each setter takes effect at once and in program order.
- Console logging is not modelled.
- The permission request, audio-mode setup, recording creation, stop/unload, `getURI`, the upload `fetch` and the pickers are device and network calls. Their outcomes are parameters. `setProgressUpdateInterval(200)` is timing, and is left out.
- `SpeechToText.SpeechSession.OnRecordingStatusUpdate`: metering is a `real`, so a NaN or infinite `number` is not modelled.
- `SpeechToText.FallbackMetering`: `prev + delta` is exact on `real`; the IEEE-754 rounding of the source's addition is not modelled, so "equals `prev + delta` inside the range" holds exactly only in the model.
- `SpeechToText.SpeechSession.OnRecordingStatusUpdate`: the random delta is a free parameter. Its range [-10, 10) is not assumed.
- `SpeechToText.TranscriptionText`: a 2xx response whose JSON has no `text` field yields `undefined` in the source. The model's `Ok` always carries a string.
- `SpeechToText.SpeechSession.StartRecording`: a failure of setting the audio mode and a failure of creating the recording are merged into one `created = None` outcome. Both change nothing.
- `AuthStore.Store.Login` is asynchronous in the source (it returns a promise). Here it is a synchronous method.
- The chat screen's send logic, message log and "mutable tail" update are not modelled. app/(tabs)/chat.tsx is not part of this model, apart from the initial pending attachment.
- Image base64 reading and URI normalisation are not modelled (they live in the send logic).
- Rendering, animation and navigation components are not modelled. The floating-point `dbToAmplitudeScale` of VoiceVisualizer is presentation only.
- Configuration files are not modelled. The login screen unit test exercises a screen that is not modelled.
