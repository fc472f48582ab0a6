# HireHelp onboarding assistant — verified model of the client core

HireHelp is a browser chat front-end that answers new employees' questions
from a company's handbook and holiday calendar. Text generation, JSON
extraction and speech come from a hosted model. This project models the
deterministic logic around those calls and proves what it promises:

- **Wrappers** and **Types** hold the optional value and the records of
  `types.ts`: `Message`, `Holiday`, `HandbookSection` and `CompanyConfig`.
- **Text** models the JavaScript string operations the core uses:
  - `String.prototype.trim`, using the ECMAScript set of white-space and line-terminator code points;
  - the blank test `!s.trim()`;
  - `Array.prototype.join`, with the layout of its result: where each part lands and which separator follows it.
- **GeminiService** models `services/geminiService.ts`:
  - the system instruction built from a configuration, and the live-mode instruction;
  - the requests sent;
  - the post-processing of chat and speech responses: fallback text, error text, grounding links and null audio.
- **AudioCodec** models the PCM helpers of `components/ChatWindow.tsx`:
  - `decode` and `encode` as loops over arrays;
  - the 16-bit view of a byte buffer;
  - the de-interleaving loop of `decodeAudioData`.
- **LivePlayback** models the live-mode playback scheduler as a class. Its
  fields are the "next start time" cursor and the set of active sources.
  A ghost list of the spans in which started chunks are heard carries the
  no-overlap invariant. The handler keeps it when run without interruption.
  An interrupt handled during the `await` breaks it: the pending chunk is
  then started at 0, which plays at once, while the cursor is left behind it.
- **ChatSession** models the chat window's state as a record, with these transitions:
  - the greetings;
  - `handleSend`, split into its two halves and also run as a whole;
  - the `playAudio` guard.
- **Workspace** models `components/Sidebar.tsx`:
  - the company-name guess on file upload;
  - the merge rules of `handleAdoptCompany`, as a method.

Results of the hosted model are inputs:
- `ChatCall`, `SpeechCall` and `FieldCall` say how each call ended.
- `atob`, `btoa` and `JSON.parse` are function parameters.
- `atob` and `JSON.parse` are given as results that show when they throw.
- Message ids from the clock are parameters.
- The playback clock reading `currentTime` is a parameter.

Two facts about the code are worth stating on their own:
- Only an `interrupted` message clears the playback cursor and the source
  set (components/ChatWindow.tsx:152-156). Closing the session only sets the
  live flag.
- A bad or non-array JSON answer to one of the two parse requests of
  `handleAdoptCompany` leaves the other field alone. A *rejected* request,
  however, makes `Promise.all` reject. That takes the fallback path, which
  discards both parsed lists and changes only the name. `AdoptCompany`
  states both facts.

The greeting effect of the chat window depends on the company name alone.
It also runs on mount, so the welcome message of the initial state is
replaced at once (`Mounted`). A re-adoption that keeps the name does not
reset the conversation.

## Model

| member | source | states |
|---|---|---|
| `GeminiService.BuildSystemInstruction` | services/geminiService.ts:4-29 | nothing interpolated is cut short: the instruction is at least as long as three copies of the name and every title, content, date and holiday name. Where each piece lands is stated by `SectionInFill`, `HolidayInFill` and `NameInFill` |
| `GeminiService.SectionInFill` | services/geminiService.ts:12 | in the instruction (the HireHelp template filled in, and indeed any filled-in template) handbook section k appears verbatim as `SECTION: <title>\nCONTENT: <content>` at its list-order position inside the handbook block, followed by a blank line unless it is the last |
| `GeminiService.HolidayInFill` | services/geminiService.ts:17 | in the instruction holiday k appears verbatim as `- <date>: <name>` at its list-order position inside the holiday block, followed by a newline unless it is the last |
| `GeminiService.NameInFill` | services/geminiService.ts:6-27 | the company name occurs verbatim in the opening sentence and in the objective sentence, and the instruction ends with the identity rule `- Identify yourself as the assistant for <name>.` followed by the rest of the rules |
| `GeminiService.FillNotTruncated` | services/geminiService.ts:4-29 | the instruction is at least as long as three copies of the name plus every section title and content and every holiday date and name |
| `GeminiService.EmptyBlocks` | services/geminiService.ts:12-17 | the handbook block is empty exactly when there are no sections, and the holiday block exactly when there are no holidays |
| `GeminiService.ChatRequestFor` | services/geminiService.ts:34-42 | the chat request carries the user's message unchanged and the company's instruction, with the search tool on and temperature 0.3 |
| `GeminiService.SpeechRequestFor` | services/geminiService.ts:61-73 | the speech prompt is `Say clearly: ` followed by the whole text, and the voice is Kore |
| `GeminiService.LiveSessionConfigFor` | services/geminiService.ts:88-97 | the live instruction is exactly the chat instruction followed by the voice-mode suffix; the voice is Zephyr |
| `GeminiService.ExtractLinks` | services/geminiService.ts:45-47 | there are never more links than chunks; `LinksAreWebChunks` states which links they are |
| `GeminiService.WebChunkIndices` | services/geminiService.ts:45-47 | the indices of the chunks that have a web source, strictly increasing, each in range, and including every such chunk |
| `GeminiService.LinksAreWebChunks` | services/geminiService.ts:45-47 | the extracted links are exactly the web chunks' `{title, uri}`, in their original order, and there is one per web chunk |
| `GeminiService.GetChatResponse` | services/geminiService.ts:31-56 | the reply text is never empty. A failed call gives the fixed technical-issue text and no links. Absent or empty model text gives the fixed apology; other text is kept. With no grounding metadata there are no links; otherwise the links are the web-chunk links |
| `GeminiService.GetSpeechResponse` | services/geminiService.ts:59-79 | the result is audio exactly when the call responded with non-empty inline data, and then it is that data; failure and missing audio give null |
| `Text.Trim` | components/ChatWindow.tsx:195 | the trimmed string is empty exactly when the input is all white space. Otherwise it starts and ends with a non-white-space character. It is a contiguous slice of the input with only white space around it |
| `Text.IsBlank` | components/ChatWindow.tsx:195 | `!s.trim()` holds exactly when every character is ECMAScript white space |
| `Text.TrimTwice` | components/Sidebar.tsx:30 | trimming is idempotent |
| `Text.Join` | services/geminiService.ts:12-17 | `parts.join(sep)`; its layout is stated by `JoinLayout` and `JoinLength`, and `JoinKeepsEverything` bounds its length |
| `Text.JoinLength` | services/geminiService.ts:12-17 | joining an empty list gives the empty string; otherwise the joined string ends where its last part ends |
| `Text.JoinKeepsEverything` | services/geminiService.ts:12-17 | a joined string is at least as long as its parts together |
| `Text.JoinLayout` | services/geminiService.ts:12 | in `parts.join(sep)` each part occurs verbatim at its offset, in list order, followed by the separator unless it is the last |
| `AudioCodec.Decode` | components/ChatWindow.tsx:7-15 | the result is a fresh byte array as long as `atob(base64)`, where byte i is character i's code modulo 256; it throws exactly when `atob` does |
| `AudioCodec.Encode` | components/ChatWindow.tsx:30-37 | the result is `btoa` of the string that has one character per byte, with character i's code equal to `bytes[i]` |
| `AudioCodec.BytesOfBinary` | components/ChatWindow.tsx:12 | bytes written out as characters form a binary string, and reading the codes back gives the same bytes |
| `AudioCodec.BinaryOfBytes` | components/ChatWindow.tsx:34 | for a binary string, reading the codes and writing them back as characters gives the same string |
| `AudioCodec.Base64RoundTrip` | components/ChatWindow.tsx:7-37 | if `atob` inverts `btoa` on binary strings, then decoding what `encode` produced returns the original bytes |
| `AudioCodec.Int16At` | components/ChatWindow.tsx:18 | the signed sample is congruent modulo 65536 to the little-endian word `lo + 256*hi` |
| `AudioCodec.Int16View` | components/ChatWindow.tsx:18 | `new Int16Array(buffer)` fails exactly when the byte length is odd; otherwise it holds half as many samples as there are bytes |
| `AudioCodec.ViewOfSampleBytes` | components/ChatWindow.tsx:126-129 | viewing the bytes of some 16-bit samples (`new Uint8Array(int16.buffer)`) as 16-bit words gives back those samples |
| `AudioCodec.SampleBytesOfView` | components/ChatWindow.tsx:18 | an even-length byte buffer equals the bytes of its 16-bit view |
| `AudioCodec.FrameIndexInBounds` | components/ChatWindow.tsx:19-24 | `i*numChannels + c` is in bounds for every channel and every frame below `length / numChannels` |
| `AudioCodec.FrameIndexInjective` | components/ChatWindow.tsx:21-24 | two different (frame, channel) pairs never read the same interleaved sample |
| `AudioCodec.DecodeAudioData` | components/ChatWindow.tsx:17-28 | it fails exactly when the byte length is odd, there are no channels, or the frame count truncates to 0. Otherwise the result is a fresh channels-by-frameCount buffer whose channel c, frame i is sample `i*channels + c` |
| `AudioCodec.ClipDuration` | components/ChatWindow.tsx:143-148 | decoding fails exactly when `atob` fails, the byte length is odd, or there are fewer than 2 bytes. Otherwise the clip plays for (bytes / 2) / 24000 seconds, which is positive. `PlaybackScheduler.BeginChunk` proves it agrees with `Decode` followed by `DecodeAudioData(…, 1)` |
| `LivePlayback.PlaybackScheduler.constructor` | components/ChatWindow.tsx:67-69 | the cursor starts at 0, no sources are tracked, and nothing is scheduled |
| `LivePlayback.PlaybackScheduler.BeginChunk` | components/ChatWindow.tsx:140-143 | before the await, the cursor is raised to `max(cursor, now)` and nothing else changes. The decoded duration is the one `ClipDuration` gives, or none when decoding throws |
| `LivePlayback.PlaybackScheduler.StartChunk` | components/ChatWindow.tsx:144-150 | after the await, the chunk is started at the cursor as it is then and is heard from the later of that time and the clock reading. The cursor moves on by the clip's length and the source is tracked. Chunks still never overlap when the cursor is not behind the clock |
| `LivePlayback.PlaybackScheduler.Interrupt` | components/ChatWindow.tsx:152-156 | every tracked source is stopped, the set and the schedule are emptied, and the cursor is reset to 0 |
| `LivePlayback.PlaybackScheduler.InterruptDuringDecode` | components/ChatWindow.tsx:139-157 | when an interrupt is handled while a chunk is being decoded, the chunk is then started at 0 and so is heard at once from the clock reading, and it is tracked after the interrupt. The cursor is left at the clip's length, which is behind the chunk's end exactly when the clock has moved past 0 |
| `LivePlayback.PlaybackScheduler.StaleCursorOverlap` | components/ChatWindow.tsx:142-148 | a chunk arriving while the chunk started by `InterruptDuringDecode` is still heard is queued at the stale cursor, and the two are heard together exactly when the clock had moved past 0 |
| `LivePlayback.PlaybackScheduler.OnMessage` | components/ChatWindow.tsx:139-157 | the handler run with nothing between its halves: a non-empty payload raises the cursor to now. If decoding then throws, the handler stops with nothing else changed. Otherwise the chunk is scheduled as `StartChunk` does with the same clock reading. An interrupt stops every tracked source, including the new one, empties the set and the schedule, and resets the cursor to 0. From a schedule without overlaps, chunks still never overlap |
| `LivePlayback.PlaybackScheduler.SourceEnded` | components/ChatWindow.tsx:150 | an ended source is no longer tracked; the cursor and the schedule are unchanged |
| `ChatSession.InitialState` | components/ChatWindow.tsx:52-63 | the `useState` initial value: there is one welcome message, with id "1" and the assistant role, that contains the company name; the input is empty, nothing is pending and nothing is playing |
| `ChatSession.Mounted` | components/ChatWindow.tsx:79-86 | after the first render, the greeting effect has already replaced the welcome message with one assistant greeting that names the company. The input is empty, nothing is pending and nothing is playing |
| `ChatSession.CompanyChanged` | components/ChatWindow.tsx:79-86 | the message list becomes a single assistant greeting that contains the new name, without links; nothing else changes |
| `ChatSession.TextToSend` | components/ChatWindow.tsx:194 | the text is the custom text unless it is absent or empty, in which case it is the input box |
| `ChatSession.ReplyMessage` | components/ChatWindow.tsx:203-209 | the assistant message carries the reply text; its links are undefined exactly when the link list is empty, and otherwise they are the list |
| `ChatSession.SendRequest` | components/ChatWindow.tsx:193-202 | a request is made exactly when the text is not blank and no reply is pending; it carries that text and the company's instruction |
| `ChatSession.BeginSend` | components/ChatWindow.tsx:197-200 | the user's message is appended after the old list, the input is cleared and a reply is pending; the playing id is kept |
| `ChatSession.FinishSend` | components/ChatWindow.tsx:203-212 | exactly the reply message is appended, with its links as `ReplyMessage` states, and nothing is left pending |
| `ChatSession.Send` | components/ChatWindow.tsx:193-213 | a blank text or a pending reply leaves the state unchanged. Otherwise exactly two messages are appended after the old list: the user's text and then the assistant's reply, which is `ReplyMessage` of the response, so it carries the extracted links when there are some. The input is cleared and nothing is left pending |
| `ChatSession.SendAppendsReply` | components/ChatWindow.tsx:202-211 | the appended reply is never empty. A failed call gives the technical-issue text with no links. Links are left out exactly when the response had no web sources |
| `ChatSession.PendingBlocksSend` | components/ChatWindow.tsx:195-200 | between the two halves of a send, every further send is ignored |
| `ChatSession.SpeechText` | components/ChatWindow.tsx:177 | the speech text is the prefix of the message of length min(length, 500) |
| `ChatSession.PlayAudio` | components/ChatWindow.tsx:171-191 | while something plays, it does nothing and sends no request. Otherwise it requests speech for the truncated text, and only the playing id changes. The id stays set exactly when audio came back and decodes; otherwise it is cleared |
| `ChatSession.PlaybackEnded` | components/ChatWindow.tsx:183 | nothing is playing afterwards, and the messages and input are unchanged |
| `ChatSession.SinglePlayback` | components/ChatWindow.tsx:172-174 | once a clip has started, a second `playAudio` changes nothing |
| `Workspace.FirstLine` | components/Sidebar.tsx:29 | the result is the prefix of the text up to but excluding the first line feed |
| `Workspace.KeepNameChars` | components/Sidebar.tsx:30 | the result holds only ASCII letters and spaces and is no longer than the input; with `KeepNameCharsOfName`, `KeepNameCharsDrops` and `KeepNameCharsConcat` this fixes the filter completely |
| `Workspace.KeepNameCharsDrops` | components/Sidebar.tsx:30 | a character outside `[a-zA-Z ]` is removed, not replaced |
| `Workspace.KeepNameCharsOfName` | components/Sidebar.tsx:30 | a string of letters and spaces passes the filter unchanged |
| `Workspace.KeepNameCharsConcat` | components/Sidebar.tsx:30 | filtering distributes over concatenation |
| `Workspace.NameFromFile` | components/Sidebar.tsx:30 | the guessed name is the letters and spaces of the first line with the white space around them trimmed, and it is empty exactly when those are all spaces. It holds only letters and spaces, neither starts nor ends with a space, and is no longer than the first line |
| `Workspace.NameFromFileIdempotent` | components/Sidebar.tsx:29-30 | guessing a name from a guessed name gives it back |
| `Workspace.FileUpload` | components/Sidebar.tsx:21-34 | with no file, nothing changes. With a file, the handbook text becomes its contents. The name becomes the guess, shorter than 50 characters, exactly when the file is non-empty and its first line is shorter than 50; otherwise the name is unchanged |
| `Workspace.JsonText` | components/Sidebar.tsx:74 | the response text is used when present and non-empty; otherwise `"[]"` |
| `Workspace.FieldAfter` | components/Sidebar.tsx:43-113 | a blank form text keeps the field. Otherwise a JSON array answer replaces the field with that array, and a non-array answer or a parse error keeps the field |
| `Workspace.EmptyResponseClearsField` | components/Sidebar.tsx:74-75 | an empty or absent response text, parsed as `"[]"`, replaces the field with an empty list |
| `Workspace.AdoptCompany` | components/Sidebar.tsx:36-137 | a blank name does nothing. A setup failure or a rejected request changes only the name. Otherwise the name is kept exactly as typed and each list is decided by its own form text and its own response alone |

## Left out

- JSX rendering, styling, scrolling, the tab UI, and the `isLive` flag with `toggleLiveMode`: presentation and session wiring with no contract beyond setting a flag.
- The calls into `@google/genai`, `ai.live.connect` and the `Promise.all` fan-out are foreign and asynchronous. Their outcomes are inputs, and the model takes the order in which they settle as given.
- Microphone capture, the script processor, `AudioContext` creation and resume, and `source.start`/`stop` are browser audio I/O. Sources are opaque ids, and "stopped" is the set the interrupt returns.
- AudioCodec.DecodeAudioData: keeps each sample as its 16-bit integer instead of dividing it by 32768.0 into a float. The float capture path `inputData[i] * 32768` is left out too. Floating point is outside the model.
- AudioCodec.Int16View: assumes a little-endian platform. `Int16Array` uses the platform's byte order.
- `atob` and `btoa` are parameters. Their only assumed property is that `atob` inverts `btoa` on binary strings, and it is assumed only where a lemma needs it.
- JSON.parse is a parameter whose result is a list of well-shaped `Holiday` or `HandbookSection` records, as the response schema asks for. The source stores whatever array comes back. An element with a missing or non-string field cannot be represented in the model, and `buildSystemInstruction` would print `undefined` for it.
- `Date.now()` ids, `new Date()` timestamps and the audio clock are parameters or omitted. `Message` has no timestamp.
- ChatSession.SpeechText: counts Unicode code points, whereas `substring` counts UTF-16 code units. The two agree on text without characters outside the Basic Multilingual Plane. The same applies to the length tests of Workspace.FileUpload.
- ChatSession.Send: runs `handleSend` with nothing in between. The two halves BeginSend and FinishSend are separate functions so that interleavings, such as a company change while a reply is pending, can be expressed.
- LivePlayback.PlaybackScheduler.OnMessage: runs both halves of the handler with nothing in between. BeginChunk, StartChunk and Interrupt are separate methods so that interleavings at the `await` can be expressed, as InterruptDuringDecode does.
- AudioCodec.DecodeAudioData: does not model the `NotSupportedError` that `createBuffer` throws above the browser's channel limit (at least 32). Every call site passes 1 channel.
- ChatSession.Mounted: assumes no trigger message at mount. A quick-action message present at mount would also start a send in the same render.
- ChatSession.PlayAudio: runs `playAudio` with nothing in between. It does not model React's stale closure over `isPlayingAudioId`.
- A fractional `frameCount` (a sample count not divisible by the channel count) is taken as its floor. `createBuffer` truncates the length, and the extra loop iteration of the source writes past the channel array, where the write is dropped.
- App.tsx (a timer reset and a bare setter) and constants.ts (data) are not part of this model.
