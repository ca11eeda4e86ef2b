# Pluely core, modelled in Dafny

Pluely is a desktop assistant. A Rust back end (Tauri) captures system audio,
cuts it into utterances with a voice-activity detector, stores a license and
streams chat completions. A TypeScript front end keeps conversations, hotkeys,
providers and settings in local storage, and talks to AI and speech-to-text
providers. This project models the sequential core of both halves and proves
what that code promises:

- the segmentation state machine of the speaker capture task and of the
  device capture thread (`Vad`, `SpeakerCommands`, `Audio`), over an abstract
  sample type. The speech decision and the WAV/Base64 encoding are
  functions given to it;
- the sample bridges between the operating system's audio and the capture
  task on Windows and Linux (`WindowsSpeaker`, `LinuxSpeaker`): the queue,
  the waker slot, the shutdown flag and the frame arithmetic;
- capture-device scoring (`DeviceSelect`), license-key masking and the
  secure-storage record (`Activate`), and window placement (`WindowPlacement`);
- line framing of `data:` event streams and content accumulation, in the Rust
  chat command (`ChatStream`) and in the front end's provider client
  (`ProviderApi`, `Framing`);
- the front end's hotkeys (`Hotkeys`), its conversation lists (`Storage`,
  `ChatHistory`, `Records`), path access and auth headers (`CommonFunction`,
  `Base64`, `JsValues`), message formatting (`Completion`), settings
  (`SettingsUtils`), and the two custom-provider forms (`CustomAiProviders`,
  `CustomSttProviders`, `ProviderForms`).

State the source changes in place is modelled imperatively: classes with
fields and `modifies` clauses, and methods with loops proved against
specification functions. Pure code is modelled as functions and lemmas.
Local storage, files, the network and JSON text are parameters. A stored
value arrives as text together with a parse function. What would be written
back is returned as the result.

The three capture paths use different default detector constants:
47 / 15 / 15 in src-tauri/src/speaker/commands.rs, 150 / 20 / 20 in
src-tauri/src/audio.rs, and 200 in src/hooks/useSystemAudio.ts. The engine
takes them as a configuration. The speaker task uses the commands.rs values.
The device thread uses the settings snapshot taken at start.

## Model

| member | source | states |
|---|---|---|
| Activate.MaskLicenseKey | src-tauri/src/activate.rs:205-215 | the mask has the key's length; a key of at most eight characters becomes all asterisks, a longer one keeps exactly its first and last four characters with asterisks between |
| Activate.SaveBase | src-tauri/src/activate.rs:61-67 | saving starts from the stored record when the file parses, and from the empty record when it is missing or does not parse |
| Activate.LastValueIsLast | src-tauri/src/activate.rs:69-75 | a run of overwrites leaves a value for a key exactly when some item has that key, and the value is that of the last such item |
| Activate.Save | src-tauri/src/activate.rs:58-84 | fails exactly when some item has a key other than the two storage keys, reporting the first such key and writing nothing; otherwise writes the base record with each field taken from the last item for its key |
| Activate.Remove | src-tauri/src/activate.rs:110-138 | a missing file is left alone and succeeds; unparsable content is an error; otherwise fails exactly when some key is invalid (the first one reported, nothing written) and else clears exactly the listed fields |
| Activate.Get | src-tauri/src/activate.rs:87-107 | a missing file reads as the empty record, unparsable content as the parse error, otherwise the stored record |
| Audio.SessionConfig | src-tauri/src/audio.rs:264-359 | a session run with the settings snapshot trims `(silence_chunks_to_end / 2) * 1024` samples, caps pre-speech at `pre_speech_chunks * 1024`, caps an utterance at `sample_rate * 30` and takes its silence and minimum-speech counts from the snapshot |
| Audio.MonoWindowShape | src-tauri/src/audio.rs:291-304 | a block of `1024 * channels` interleaved values yields exactly 1024 mono values, the `j`-th being the down-mix of the `j`-th frame of `channels` consecutive values |
| Audio.CaptureThread.constructor | src-tauri/src/audio.rs:253-264 | the thread starts with an empty interleaved queue and an idle detector configured from the settings snapshot and the stream's sample rate |
| Audio.CaptureThread.OnData | src-tauri/src/audio.rs:287-304 | after a callback the queue holds what remains of old queue plus data after its whole blocks, and the detector has received, in order, the mono window of every whole block |
| Audio.CaptureThread.CutMonoWindow | src-tauri/src/audio.rs:294-304 | one window removes exactly the first `1024 * channels` queued values and returns their down-mix |
| Audio.CaptureThread.CutFrame | src-tauri/src/audio.rs:297-301 | one frame takes exactly the first `channels` queued values off the queue |
| Audio.CaptureState.constructor | src-tauri/src/audio.rs:55-64 | the global state starts not capturing, with the default settings and no handles |
| Audio.CaptureState.Start | src-tauri/src/audio.rs:582-605 | `already capturing` with no change while capturing; a device or configuration error is returned with the prefix the source adds and leaves the state not capturing; otherwise capturing, with fresh stop signal and thread whose detector uses the settings at start |
| Audio.CaptureState.Stop | src-tauri/src/audio.rs:609-646 | `no active capture` with no change when not capturing; otherwise the stop signal is sent, capturing ends and both handles are cleared, settings untouched |
| Audio.CaptureState.ResetAudioSettings | src-tauri/src/audio.rs:716-720 | the settings become 0.004 / 0.01 / 150 / 20 / 20 whatever they were; the capture fields are untouched |
| Audio.CaptureState.SetVadSensitivity | src-tauri/src/audio.rs:724-731 | accepted exactly in [0.0001, 0.1], writing only that field; otherwise the source's message and nothing changes |
| Audio.CaptureState.SetSpeechThreshold | src-tauri/src/audio.rs:735-742 | accepted exactly in [0.0001, 0.1], writing only that field; otherwise the source's message and nothing changes |
| Audio.CaptureState.SetSilenceThreshold | src-tauri/src/audio.rs:746-753 | accepted exactly in [1, 2000], writing only that field; otherwise the source's message and nothing changes |
| Audio.CaptureState.SetMinSpeechDuration | src-tauri/src/audio.rs:757-764 | accepted exactly in [1, 1000], writing only that field; otherwise the source's message and nothing changes |
| Audio.CaptureState.SetPreSpeechBufferSize | src-tauri/src/audio.rs:768-775 | accepted exactly in [1, 1000], writing only that field; otherwise the source's message and nothing changes |
| Audio.SnapshotIsolated | src-tauri/src/audio.rs:596-597 | a setter called after start changes the stored settings but not the constants of the running thread's detector |
| Base64.Btoa | src/lib/functions/common.function.ts:70 | `btoa` succeeds exactly when every character is at most U+00FF, and its output decodes back to those bytes |
| Base64.DecodeEncode | src/lib/functions/common.function.ts:70 | the encoding of section 4 of RFC 4648 is decoded back to the same bytes, padding included |
| Base64.Encode | src/lib/functions/common.function.ts:70 | the encoding of `n` bytes has `4 * ceil(n / 3)` characters |
| Base64.DecodeGroup | src/lib/functions/common.function.ts:70 | a group of four characters gives one to three bytes, three unless it is the last group, and fewer only when it ends in `=` padding (one byte exactly when two `=` end it) |
| Base64.Decode | src/lib/functions/common.function.ts:70 | a text that decodes has a multiple of four characters and gives three bytes per group, less at most two for the padding, and exactly three per group when it does not end in `=` |
| Base64.Value | src/lib/functions/common.function.ts:70 | a character decodes to a value below 64 only if it is that value's character in the alphabet |
| Base64.ValueChar | src/lib/functions/common.function.ts:70 | every alphabet character decodes to its position |
| Base64.Group3RoundTrip | src/lib/functions/common.function.ts:70 | three bytes encode to four characters that decode back to them |
| Base64.Group2RoundTrip | src/lib/functions/common.function.ts:70 | a final pair of bytes, padded with one `=`, decodes back to them |
| Base64.Group1RoundTrip | src/lib/functions/common.function.ts:70 | a final single byte, padded with `==`, decodes back to it |
| Base64.Latin1 | src/lib/functions/common.function.ts:70 | `btoa` accepts a string exactly when no character is above U+00FF, and then sees one byte per character with the character's code |
| CommonFunction.Normalize | src/lib/functions/common.function.ts:18-20 | the rewritten path holds no bracket at all, and a path without brackets is left unchanged |
| CommonFunction.WalkFalsy | src/lib/functions/common.function.ts:22 | once a missing or falsy value is met along the keys, every further lookup yields `undefined` rather than failing |
| CommonFunction.GetByPath | src/lib/functions/common.function.ts:16-17 | the empty path returns the object itself |
| CommonFunction.SetProp | src/lib/functions/common.function.ts:30-33 | assigning a property succeeds exactly on objects and arrays (null and primitives throw); the container keeps its kind, the assigned key reads back the value, and every other key of an object, and every other existing index of an array, is unchanged |
| CommonFunction.SetPathThenWalk | src/lib/functions/common.function.ts:26-33 | when every container along the keys can hold the next key (fresh `[]` for a digit key, `{}` otherwise), the assignment loop succeeds and walking the same keys reads back the value |
| CommonFunction.SetByPath | src/lib/functions/common.function.ts:16-34 | for a non-empty dotted path without brackets through containers that can hold each key, `setByPath` succeeds and `getByPath` of the same path returns the value set |
| CommonFunction.AuthHeader | src/lib/functions/common.function.ts:56-85 | bearer gives `Authorization: Bearer key`; token gives `Authorization: Token key`; basic-apikey gives `Authorization: Basic` and the base 64 of `apikey:key`, failing exactly when `btoa` throws; subscription-key gives `Ocp-Apim-Subscription-Key: key`; x-api-key, xi-api-key, x-goog-api-key and api-key name the header themselves; an unknown type, custom or query names the header itself; every type but basic-apikey succeeds with a value ending in the key |
| CommonFunction.GetAuthHeaders | src/lib/functions/common.function.ts:48-87 | a provider with an `authParam` gets no header at all; otherwise the headers are built exactly when the header for the auth type can be, and are then that one header alone |
| CommonFunction.BasicCredentials | src/lib/functions/common.function.ts:69-71 | for a key of Latin-1 characters the basic-apikey header exists, starts with `Basic `, and the rest decodes back to the bytes of `apikey:` followed by the key |
| CommonFunction.SetPath | src/lib/functions/common.function.ts:26-33 | when the walk succeeds the value left behind is still an object or an array, and of the same kind it was |
| Completion.FileToBase64 | src/lib/completion.ts:4-16 | the payload after the first comma of a data URL is found exactly when the URL holds a comma, and is `undefined` otherwise |
| Completion.DataUrlRoundTrip | src/lib/completion.ts:11 | for a media type and payload without commas, taking the part after the comma of the `data:` URL built from an image gives back the image's base 64 payload |
| Completion.SystemMessages | src/lib/completion.ts:27-37 | at most one message; there is one exactly when the system prompt is non-empty and the provider is not Gemini, and it is the system-role message carrying the prompt |
| Completion.PushParts | src/lib/completion.ts:60-67 | the parts are the leading text part followed by one part per image, in the images' order |
| Completion.FormatMessageForProvider | src/lib/completion.ts:19-124 | Gemini gets one user entry whose first part is the text (prefixed by the system prompt and a blank line when there is one) followed by one inline-data part per image; OpenAI and Grok get the optional system message then the user message, which is the bare text without images and otherwise a text part followed by one `image_url` part per image; Claude the same with base 64 `image` parts; any other provider gets only the optional system message |
| Completion.ImagePartsInOrder | src/lib/completion.ts:50-67 | with images, the user content has one entry more than there are images, entry i+1 is the part for image i, and its data URL reads back to that image's payload |
| ChatHistory.Insert | src/lib/chat-history.ts:11 | inserting a conversation into a newest-first list keeps it newest-first, adds exactly that conversation to the multiset and nothing else |
| ChatHistory.SortByRecent | src/lib/chat-history.ts:11 | the sort by descending `updatedAt` yields a newest-first list that is a permutation of its input |
| ChatHistory.SortKeepsSorted | src/lib/chat-history.ts:11 | sorting a list that is already newest-first leaves it unchanged, so the sort is idempotent |
| ChatHistory.LoadChatHistory | src/lib/chat-history.ts:5-16 | missing, empty or unparsable storage loads as the empty history; otherwise the result is the stored conversations, newest first |
| ChatHistory.SaveConversation | src/lib/chat-history.ts:18-43 | nothing is written exactly when the stored history does not parse; otherwise the written list is the stored one (empty when nothing is stored) with the conversation upserted: it replaces the first conversation with its id at that index, or is pushed at the end; so every other conversation keeps its place, looking up the id finds the saved conversation, and ids that were unique stay unique |
| ChatHistory.GetConversation | src/lib/chat-history.ts:45-56 | a conversation is returned exactly when the stored history parses and holds one with that id, and it is the first stored conversation with that id; otherwise `null` |
| ChatHistory.DeleteConversation | src/lib/chat-history.ts:58-81 | the history is rewritten (and `true` returned) exactly when it parses and holds the id; the rewritten list is the stored list filtered of that id, in order, so it is shorter, holds no conversation with that id and keeps every other one |
| ChatHistory.GenerateConversationTitle | src/lib/chat-history.ts:83-89 | a trimmed message of at most six space-separated words is the title itself; a longer one gives a proper prefix of the trimmed message ending just before a space, holding exactly its first six words, followed by `...` |
| ChatStream.StoredCredentials | src-tauri/src/api.rs:44-61 | a missing file, an unparsable file, a missing license key and a missing instance id each give their own error message, checked in that order; the credentials are returned exactly when both fields are stored |
| ChatStream.CredentialsAfterSave | src-tauri/src/api.rs:44-61 | after the activation command saves a license key and an instance id, reading the credentials back returns exactly the last values saved |
| ChatStream.DeltaContent | src-tauri/src/api.rs:207-211 | a content is extracted exactly when `choices` is a non-empty array whose first element has a `delta` with a string `content`, and it is that string |
| ChatStream.LineOf | src-tauri/src/api.rs:196-203 | a line whose trimmed form does not start with `data: ` is skipped, and a line ends the stream exactly when its trimmed payload is `[DONE]` |
| ChatStream.ProcessLines | src-tauri/src/api.rs:195-222 | the loop over the complete lines of one chunk collects exactly the contents its lines specify, stopping at the first `[DONE]` |
| ChatStream.StreamFraming | src-tauri/src/api.rs:185-225 | whatever the chunking, the lines handed to the loop are exactly the complete lines of all the text received, and the buffer left is its unterminated tail |
| ChatStream.LinesContentsAppend | src-tauri/src/api.rs:195-222 | without a `[DONE]` in the first part, the contents of two runs of lines are the contents of each, concatenated |
| ChatStream.StreamEvents | src-tauri/src/api.rs:185-231 | each complete line gives at most one event, and when no complete line is `[DONE]` the events emitted chunk by chunk are the contents of all the complete lines, in order |
| ChatStream.LinesOfTexts | src-tauri/src/api.rs:185-225 | the lines examined for a run of decoded chunks are exactly the complete lines of their concatenation |
| ChatStream.TextsEvents | src-tauri/src/api.rs:185-231 | when no complete line is `[DONE]`, the events of a run of decoded chunks are the contents of the complete lines of their concatenation |
| ChatStream.ChunkingIrrelevant | src-tauri/src/api.rs:181-231 | for byte chunks cut on character boundaries (each decoded on its own, they give the decoding of the whole body) and no complete line `[DONE]`, the emitted events depend only on the body's bytes and not on how they were split into chunks |
| ChatStream.ReadChunk | src-tauri/src/api.rs:187-226 | one chunk yields the contents of the complete lines of buffer plus chunk, and the buffer becomes the unterminated tail |
| ChatStream.ReadBody | src-tauri/src/api.rs:181-236 | each chunk of bytes is decoded on its own before framing; the read fails exactly when some chunk is an error, reporting `Stream error:` and the first one with the events of the chunks before it; otherwise the full response is the concatenation of all the emitted events |
| ChatStream.SplitCharacterChangesLines | src-tauri/src/api.rs:181-195 | the same body bytes, `é` and a line feed, sent whole or cut inside the `é`, hand different lines to the loop (`é` against two U+FFFD) when each chunk is decoded on its own |
| ChatStream.ReadBodyBuffered | src-tauri/src/api.rs:181-236 | with the bytes after the last line feed kept for the next chunk, the events are those of the stream loop over `ChatStream.BufferedTexts`. On success that covers every chunk; on the first failed chunk it covers the chunks before it and the error is `Stream error:`. So the break at `[DONE]` still ends only its own batch of lines. The full response is the concatenation of the events. Without a `[DONE]` line the events are the contents of the complete lines of the whole decoded body, whatever the chunking |
| ChatStream.BufferedTextsJoin | src-tauri/src/api.rs:181-195 | joined, the texts the buffered read frames are the decoding of every byte received up to the last line feed, so no byte is lost or decoded twice |
| ChatStream.BufferedOnLineChunks | src-tauri/src/api.rs:181-195 | when every chunk ends at a line feed nothing stays pending, and the buffered read frames exactly the texts `ChatStream.ReadBody` frames, so both readers emit the same events, `[DONE]` lines included |
| ChatStream.Chat | src-tauri/src/api.rs:137-237 | a missing endpoint, a missing access key and missing credentials fail in that order with nothing emitted; a failed send and an unsuccessful status give their errors (with `Unknown error` for an unreadable body); a streamed reply gives the events and result `ChatStream.ReadBodyBuffered` gives: the stream loop over `ChatStream.BufferedTexts` up to the end or up to the first failed chunk, whose error is `Stream error:` |
| ChatStream.LicenseStatus | src-tauri/src/api.rs:241-246 | the license counts as present exactly when the stored credentials can be read |
| Chunking.Chunks | src-tauri/src/speaker/commands.rs:47-53 | every piece cut from the stream has exactly the hop size |
| Chunking.Rest | src-tauri/src/speaker/commands.rs:47 | what stays buffered is shorter than one piece and is the stream's own suffix |
| Chunking.ChunksThenRest | src-tauri/src/speaker/commands.rs:43-53 | the pieces, concatenated in order, followed by what stays buffered, give back the whole stream: no sample is lost, duplicated or reordered |
| Chunking.ChunkAt | src-tauri/src/speaker/commands.rs:47-53 | piece i is exactly the samples from i times the hop size up to the next multiple |
| Chunking.ChunksAppend | src-tauri/src/speaker/commands.rs:43-53 | cutting a stream that arrives in two parts gives the pieces of the first part, then the pieces of its leftover followed by the second part, so the pieces do not depend on how the samples were delivered |
| Chunking.ChunksCountDiv | src-tauri/src/speaker/linux.rs:125-139 | there are as many whole pieces as the integer quotient of the length by the piece size, and the leftover is the remainder |
| Chunking.ConcatAppend | src-tauri/src/speaker/commands.rs:67 | concatenation distributes over appending lists of pieces |
| Framing.CompleteLines | src-tauri/src/api.rs:192-195 | no complete line holds a line feed |
| Framing.Tail | src-tauri/src/api.rs:193 | the kept buffer holds no line feed |
| Framing.LinesThenTail | src-tauri/src/api.rs:192-225 | the complete lines, each with its line feed, followed by the kept buffer, give back the text received |
| Framing.SplitTerminated | src/lib/api.ts:143-144 | splitting terminated lines followed by a feed-free tail on line feeds gives back exactly those lines and that tail |
| Framing.FramedIsSplit | src/lib/api.ts:142-144 | the lines examined so far plus the buffer are the split of all text received, the lines being its complete lines and the buffer its tail |
| Framing.FrameStep | src/lib/api.ts:139-145 | one more chunk keeps the framing invariant: the lines examined grow by the complete lines of buffer plus chunk, and the buffer becomes their tail |
| Framing.FramedStart | src/lib/api.ts:136 | the empty buffer with no line examined is framed for the empty text |
| Framing.Reframe | src-tauri/src/api.rs:189-225 | the complete lines of a text extended by a chunk are those of the text followed by those of its tail plus the chunk, and the tails agree |
| CustomAiProviders.CheckFilled | src/hooks/useCustomProvider.ts:115-117 | one required-field check of the validation keeps the invariant that the error map holds exactly the errors of the fields checked so far |
| CustomAiProviders.CheckUrl | src/hooks/useCustomProvider.ts:119-126 | the base URL check keeps the same invariant: a blank URL is required, one without an HTTP scheme is rejected with its own message |
| CustomAiProviders.ValidateForm | src/hooks/useCustomProvider.ts:111-155 | every field's entry in the error map is exactly that field's own error, and the map is empty exactly when the form is valid |
| CustomAiProviders.AllReported | src/hooks/useCustomProvider.ts:111-155 | once all eight checks have run, the map holds exactly the error of every field |
| CustomAiProviders.NoErrorsIffValid | src/hooks/useCustomProvider.ts:246-250 | an error map that reports each field's error is empty exactly when the form is valid, so saving goes ahead exactly for valid forms |
| CustomAiProviders.RecordOf | src/hooks/useCustomProvider.ts:253-284 | the record stores the auth part as the encoding of the form's auth choice and has no model list |
| CustomAiProviders.HandleSave | src/hooks/useCustomProvider.ts:240-293 | an invalid form yields its non-empty error map and saves nothing; a valid one yields the form's record, as an update of the provider being edited when there is one and as an addition otherwise |
| CustomAiProviders.SavedRecordReadsBack | src/hooks/useCustomProvider.ts:50-73 | a saved record, opened again in the form, restores the auth choice: a custom header name or a query parameter name comes back as such and a standard type comes back unchanged, and the restored form is valid |
| CustomAiProviders.HandleEdit | src/hooks/useCustomProvider.ts:157-184 | an unknown id yields `Provider not found`; otherwise the form holds the fields of the first stored provider with that id, the one `.find` returns, and the auth choice decoded from its record |
| CustomAiProviders.EditSaveRoundTrip | src/hooks/useCustomProvider.ts:157-284 | opening a stored provider with trimmed fields (and no model list) whose auth type is not literally `custom` or `query`, then saving it unchanged, reproduces exactly its stored record |
| CustomSttProviders.CheckFilled | src/hooks/useCustomSttProviders.ts:77-79 | one required-field check keeps the invariant that the error map holds exactly the errors of the fields checked so far |
| CustomSttProviders.CheckUrl | src/hooks/useCustomSttProviders.ts:81-88 | the base URL check keeps the same invariant, with the blank and the missing-scheme errors |
| CustomSttProviders.ValidateForm | src/hooks/useCustomSttProviders.ts:73-108 | every field's entry in the error map is exactly that field's own error, and the map is empty exactly when the form is valid |
| CustomSttProviders.AllReported | src/hooks/useCustomSttProviders.ts:73-108 | once all six checks have run, the map holds exactly the error of every field |
| CustomSttProviders.NoErrorsIffValid | src/hooks/useCustomSttProviders.ts:211-215 | an error map that reports each field's error is empty exactly when the form is valid |
| CustomSttProviders.RecordOf | src/hooks/useCustomSttProviders.ts:218-249 | the record stores the auth part as the encoding of the form's auth choice and keeps the method, the request description and the streaming flag |
| CustomSttProviders.HandleSave | src/hooks/useCustomSttProviders.ts:207-256 | an invalid form yields its non-empty error map and saves nothing; a valid one yields the form's record, as an update of the provider being edited when there is one and as an addition otherwise |
| CustomSttProviders.HandleEdit | src/hooks/useCustomSttProviders.ts:141-154 | an unknown id leaves the form alone; otherwise the form holds the fields of the first stored provider with that id, the one `.find` returns, and the auth choice decoded from its record |
| CustomSttProviders.SavedRecordReadsBack | src/hooks/useCustomSttProviders.ts:25-48 | a saved record, opened again, restores the auth choice (custom header name, query parameter name or standard type) and the restored form is valid |
| CustomSttProviders.EditSaveRoundTrip | src/hooks/useCustomSttProviders.ts:141-249 | opening a stored provider with trimmed fields whose auth type is not literally `custom` or `query`, then saving it unchanged, reproduces exactly its stored record |
| DeviceSelect.ScoreAll | src-tauri/src/audio.rs:98-133 | one entry per enumerated device, in enumeration order, carrying the score of that device's lower-cased name (or of `Unknown`) |
| DeviceSelect.Insert | src-tauri/src/audio.rs:134 | one insertion step of the sort adds exactly the new entry to the multiset of entries |
| DeviceSelect.SortByScoreDesc | src-tauri/src/audio.rs:134 | the sort permutes the scored entries |
| DeviceSelect.InsertOrdered | src-tauri/src/audio.rs:134 | inserting an entry enumerated after all others keeps the list ordered by descending score, ties in enumeration order |
| DeviceSelect.SortOrdered | src-tauri/src/audio.rs:134 | the sort is stable: entries scored in enumeration order come out by descending score, equal scores in enumeration order |
| DeviceSelect.SortSameElements | src-tauri/src/audio.rs:134 | the sorted list holds exactly the entries it was given |
| DeviceSelect.SortedHead | src-tauri/src/audio.rs:134-137 | the first entry after sorting has the highest score, and every device enumerated before it scores strictly less |
| DeviceSelect.HeadIsFirstBest | src-tauri/src/audio.rs:94-137 | for a non-empty enumeration the device taken is the first one with the highest score |
| DeviceSelect.SelectDevice | src-tauri/src/audio.rs:94-140 | an enumeration error is reported as `enumerate devices failed`; with devices, the choice is the first device of highest score; with none, the default input device, or `no input device` when there is none |
| Hotkeys.Entries | src/lib/storage/hotkey.storage.ts:105 | the entries are the four shortcuts, each action at its own position with its current value |
| Hotkeys.Update | src/lib/storage/hotkey.storage.ts:74 | the updated settings hold the new value for the given action and leave the other three unchanged |
| Hotkeys.PlatformDefaults | src/lib/storage/hotkey.storage.ts:20-37 | on a platform whose lower-cased name contains `mac` every default starts with `cmd+`, elsewhere every default starts with `ctrl+` |
| Hotkeys.Load | src/lib/storage/hotkey.storage.ts:42-53 | missing, empty or unparsable stored settings load as the platform defaults; otherwise the parsed settings |
| Hotkeys.UpdateHotkey | src/lib/storage/hotkey.storage.ts:69-77 | the settings returned (and stored) hold the new value for the action and the loaded value for every other action |
| Hotkeys.AlnumRun | src/lib/storage/hotkey.storage.ts:93 | the run is the longest prefix made of letters and digits |
| Hotkeys.ValidIffTokens | src/lib/storage/hotkey.storage.ts:91-95 | a hotkey matches the pattern exactly when it starts with one of the five modifiers in any case, followed by nothing or by `+` and a `+`-separated list of non-empty letter-and-digit tokens |
| Hotkeys.GroupsIffTokens | src/lib/storage/hotkey.storage.ts:93 | the repeated `+` group matches a text exactly when it is empty or a `+` followed by `+`-separated non-empty tokens |
| Hotkeys.GroupsAfterRun | src/lib/storage/hotkey.storage.ts:93 | a non-empty run of letters and digits followed by repeated groups is exactly a `+`-separated list of non-empty tokens |
| Hotkeys.TokensWholeRun | src/lib/storage/hotkey.storage.ts:93 | a text of letters and digits alone is one token exactly when it is non-empty |
| Hotkeys.TokensAfterRun | src/lib/storage/hotkey.storage.ts:93 | a text whose run of letters and digits ends at a `+` is a token list exactly when the run is non-empty and what follows the `+` is a token list |
| Hotkeys.NoTokensAfterJunk | src/lib/storage/hotkey.storage.ts:93 | a character other than `+`, a letter or a digit rules out a token list |
| Hotkeys.FirstConflict | src/lib/storage/hotkey.storage.ts:105-111 | the search returns the first entry in order that is not excluded and equals the hotkey ignoring case, and nothing exactly when no entry does |
| Hotkeys.CheckConflicts | src/lib/storage/hotkey.storage.ts:100-112 | a reported conflict is an action other than the excluded one whose shortcut equals the hotkey ignoring case, and no action before it in the order of the settings object does; no conflict is reported exactly when every other action's shortcut differs |
| Hotkeys.DefaultsDistinct | src/lib/storage/hotkey.storage.ts:20-37 | no default shortcut conflicts with another default, on any platform |
| Hotkeys.DefaultsValid | src/lib/storage/hotkey.storage.ts:20-37 | every default shortcut passes `validateHotkey`, on any platform |
| Hotkeys.ShiftShortcutValid | src/lib/storage/hotkey.storage.ts:91-95 | a modifier followed by `+shift+` and a lower-case letter is a valid hotkey |
| Hotkeys.ValidForm | src/lib/storage/hotkey.storage.ts:91-95 | a modifier followed by `+` and a non-empty `+`-separated list of tokens is a valid hotkey |
| Hotkeys.ConflictMessage | src/lib/storage/hotkey.storage.ts:117-125 | the message is the fixed text followed by exactly the action's display name |
| Hotkeys.DisplayName | src/lib/storage/hotkey.storage.ts:117-125 | toggle is shown as `Toggle Window`, audio as `Voice Input`, screenshot as `Screenshot` and systemAudio as `System Audio`, each name belonging to exactly one action |
| Hotkeys.ConflictMessagesDiffer | src/lib/storage/hotkey.storage.ts:117-125 | two different actions give two different messages |
| HotkeyDisplay.FormatPlain | src/lib/storage/hotkey.storage.ts:130-143 | a hotkey with no `+` and none of the replaced words, in any case, is displayed unchanged |
| HotkeyDisplay.SpacePlus | src/lib/storage/hotkey.storage.ts:137 | replacing every `+` by ` + ` is the same as joining the `+`-separated pieces with ` + ` |
| HotkeyDisplay.FormatModifierKeys | src/lib/storage/hotkey.storage.ts:130-143 | a modifier followed by `+` and `+`-separated keys free of the replaced words is displayed as the modifier's name (`⌘`, `Ctrl`, `Alt`, `Shift` or `Meta`) followed by the keys, every `+` spaced as ` + ` |
| HotkeyDisplay.FormatTokens | src/lib/storage/hotkey.storage.ts:130-143 | a shortcut of `+`-separated modifiers, `backslash` and keyword-free keys is displayed token by token, each modifier as its display name, `backslash` as `\`, other keys as written, joined with ` + ` |
| HotkeyDisplay.DefaultsDisplay | src/lib/storage/hotkey.storage.ts:130-143 | the shipped defaults are displayed as `⌘` (macOS) or `Ctrl` followed by ` + \` for the window toggle and ` + Shift + a`, ` + Shift + s`, ` + Shift + m` for the other three |
| HotkeyDisplay.ModifierShown | src/lib/storage/hotkey.storage.ts:132-136 | each of the five modifiers, in any case, is renamed to its display name, which the later replacements leave alone and which holds no `+` |
| Text.ReplaceSplits | src/lib/storage/hotkey.storage.ts:132-142 | a case-insensitive global replace of a non-empty pattern that cannot match a given character acts on each side of that character separately |
| Text.LetterMissing | src/lib/storage/hotkey.storage.ts:132-142 | a pattern with a character that does not occur in the string, in any case, does not occur in it |
| JsValues.Decimal | src/lib/functions/common.function.ts:30 | the decimal form of a number is made of digits only, so it is the kind of key `/^\d+$/` accepts |
| JsValues.DecimalRoundTrip | src/lib/functions/common.function.ts:30 | the decimal form of every index is an index key (no leading zero) and reads back as that index: index keys and array positions correspond one to one |
| JsValues.Prop | src/lib/functions/common.function.ts:22 | on an object the lookup yields exactly its own property or `undefined`; a lookup finds something only on an object, or on an array for an index key within its length |
| JsValues.Chain | src/lib/api.ts:9-11 | optional chaining on `null` or `undefined` yields `undefined` instead of throwing |
| JsValues.DigitRun | src/lib/api.ts:6-8 | the run is the longest prefix of decimal digits |
| JsValues.ParseDecimal | src/lib/api.ts:6-8 | `parseInt` of the decimal form of an index gives back that index |
| LinuxSpeaker.CaptureSpec | src-tauri/src/speaker/linux.rs:91-95 | the capture records 32-bit little-endian floats at 16000 Hz on one channel |
| LinuxSpeaker.MonitorSource | src-tauri/src/speaker/linux.rs:100-103 | without a default sink the set-up fails with `Could not get default sink name`; otherwise the source is the sink's name followed by `.monitor` |
| LinuxSpeaker.Init | src-tauri/src/speaker/linux.rs:98-119 | the set-up succeeds exactly when the server connects, there is a default sink and the record stream connects, and then reports the spec's rate; the failures are reported in that order, a missing sink as `Could not get default sink name` |
| LinuxSpeaker.DecodeCount | src-tauri/src/speaker/linux.rs:125-131 | a read of n bytes yields n / 4 samples, sample j decoded from bytes 4j to 4j+3, and the n % 4 trailing bytes are dropped |
| LinuxSpeaker.SpeakerStream.constructor | src-tauri/src/speaker/linux.rs:24-65 | the stream starts with an empty queue, no waker and no shutdown, and its sample rate is the one the capture thread reported, or 0 when its set-up failed |
| LinuxSpeaker.SpeakerStream.PollNext | src-tauri/src/speaker/linux.rs:174-190 | a queued sample is handed out oldest first; with an empty queue the stream ends after shutdown and otherwise registers the caller's waker and is pending; nothing produced is lost or reordered |
| LinuxSpeaker.SpeakerStream.Drop | src-tauri/src/speaker/linux.rs:156-169 | dropping the stream sets shutdown, wakes the registered waker if any and clears it, and leaves the queue alone |
| LinuxSpeaker.SpeakerStream.OnRead | src-tauri/src/speaker/linux.rs:126-140 | a read appends its decoded samples to the queue in order and, when there are any, wakes and clears the registered waker; an empty read changes nothing |
| LinuxSpeaker.SpeakerStream.ReadLoop | src-tauri/src/speaker/linux.rs:120-146 | until shutdown, the queue grows by the samples of all successful reads, in order; the loop does not start once shutdown was requested, and leaving after a read error does not set shutdown |
| LinuxSpeaker.ReadErrorLeavesPending | src-tauri/src/speaker/linux.rs:141-144 | after the read loop ends on an error, a consumer that drained the queue keeps getting `Pending` instead of the end of the stream, because shutdown stays false |
| ProviderApi.IndexOf | src/lib/api.ts:5-7 | `indexOf` finds the first occurrence of the character, or -1 exactly when it does not occur |
| ProviderApi.Substring | src/lib/api.ts:5-7 | `substring` with its arguments in either order takes the characters between the two positions |
| ProviderApi.NestedUndefined | src/lib/api.ts:9-11 | once a step of the path is `undefined`, the value at the end of the path is `undefined`, never an exception |
| ProviderApi.SegmentElement | src/lib/api.ts:4-9 | a key `name[i]` reads the element numbered i of the field `name`, and that is the array's element i whenever the field is an array long enough |
| ProviderApi.PlainSegment | src/lib/api.ts:11 | a key without brackets is read like one step of `getByPath` |
| ProviderApi.NestedIsWalk | src/lib/api.ts:3-12 | over keys without brackets the reduce agrees with the reduce of `getByPath` |
| ProviderApi.GetNestedValue | src/lib/api.ts:2-13 | on a non-empty dotted path without brackets, `getNestedValue` and `getByPath` return the same value |
| ProviderApi.ModelsRequest | src/lib/api.ts:21-43 | a provider without model fetching is rejected with its message; otherwise the request is JSON, carries `Authorization: Bearer key` for bearer, `x-api-key` for that type, and for any other type puts `authParam=key` in the query string (with `undefined` when no parameter is set), using the configured method or GET |
| ProviderApi.KeptIdsMembers | src/lib/api.ts:61-63 | an id is kept exactly when it is a non-empty string found under the id key of some model entry |
| ProviderApi.ModelIds | src/lib/api.ts:54-58 | a truthy value at the response path that is not an array is rejected; a missing or falsy one gives no ids |
| ProviderApi.ModelIdsSorted | src/lib/api.ts:54-64 | the ids returned are sorted, non-empty, and a permutation of the string ids the model entries carry |
| ProviderApi.FetchModels | src/lib/api.ts:16-65 | a provider without model fetching fails; a rejected `fetch` and a body that `response.json()` cannot read fail with their own error; an unsuccessful status fails with `Failed to fetch models:`, the status and its text; a successful body gives the sorted ids found at the response path |
| ProviderApi.FirstIndex | src/lib/api.ts:82 | the position found is the first occurrence of the pattern, and none is found exactly when it does not occur |
| ProviderApi.ReplaceFirst | src/lib/api.ts:82 | `replace` with a string pattern changes only the first occurrence: the text before it and after it are kept and the replacement stands in its place; without an occurrence the text is unchanged |
| ProviderApi.ChatUrl | src/lib/api.ts:78-83 | for every provider but Gemini the URL is the base URL followed by the chat endpoint |
| ProviderApi.ChatHeaders | src/lib/api.ts:85-95 | the headers are JSON, plus exactly the auth header of bearer, x-api-key or x-goog-api-key, and nothing else for any other type |
| ProviderApi.ChatBody | src/lib/api.ts:101-114 | the body is the payload with the model in front (a payload's own model wins), plus `max_tokens` 4096 and the API version for Claude and `stream: true` for every provider but Gemini, and no other keys |
| ProviderApi.ChatRequest | src/lib/api.ts:78-121 | the request carries the chat URL, the auth query parameter only for a query provider with a parameter name, the auth headers and the body as stated for them |
| ProviderApi.ContentOf | src/lib/api.ts:154-165 | content is found only for the four built-in providers, never for a `null` payload, and only when truthy |
| ProviderApi.LineContent | src/lib/api.ts:146-169 | a line yields content only when it starts with `data: `, its payload is not `[DONE]`, and the content is truthy |
| ProviderApi.ContentsAppend | src/lib/api.ts:146-174 | the contents of two runs of lines are the contents of each, concatenated: `[DONE]` does not stop the loop |
| ProviderApi.Leading | src/lib/api.ts:138-141 | the leading reads are all chunks and the read after them, if any, failed |
| ProviderApi.ReadLines | src/lib/api.ts:142-174 | one chunk yields the contents of the complete lines of buffer plus chunk, and the buffer becomes the unterminated tail |
| ProviderApi.ReadStream | src/lib/api.ts:135-175 | the read fails exactly when some read fails, with the first failure; the contents delivered are those of the complete lines of all text received before it, in order and independent of chunking |
| ProviderApi.Report | src/lib/api.ts:176-181 | at most one error is reported, and none exactly when the request was aborted |
| ProviderApi.StreamCompletion | src/lib/api.ts:68-182 | the request is the one described above; a thrown fetch, an unsuccessful status (with `API Error:`, status, text and body) and a missing reader each deliver no content and one error unless aborted; a streamed reply delivers the contents of the complete lines received before any failure, then no error when every read succeeded, and otherwise the report of the first failed read's error (nothing for an abort) |
| ProviderApi.ModelsMethod | src/lib/api.ts:41 | the models request always has a method: the configured one when it is non-empty, otherwise GET |
| ProviderForms.KeyNamesDistinct | src/hooks/useCustomProvider.ts:115-152 | two error keys name the same entry of the error map exactly when they are the same key, so no check overwrites another's error |
| ProviderForms.TrimsEmpty | src/hooks/useCustomProvider.ts:115 | `!value.trim()` holds exactly when the value is blank |
| ProviderForms.UrlError | src/hooks/useCustomProvider.ts:119-126 | the base URL gets no error exactly when it is filled and starts with `http://` or `https://` |
| ProviderForms.TrimmedUrlValid | src/hooks/useCustomProvider.ts:267 | trimming a valid base URL before storing it keeps it valid |
| ProviderForms.AuthError | src/hooks/useCustomProvider.ts:146-152 | the auth part can only produce the missing header-name or missing parameter-name error |
| ProviderForms.Decode | src/hooks/useCustomProvider.ts:50-73 | a standard auth type is kept with its `authParam` and both names cleared; any other stored type becomes a query parameter of that name when `authParam` is non-empty, and a custom header of that name otherwise |
| ProviderForms.EncodeAsWritten | src/hooks/useCustomProvider.ts:253-263 | a custom header is stored as its name with an empty `authParam`, a query parameter as its name with the form's `authParam`, any other type unchanged |
| ProviderForms.QueryReadsBackAsHeader | src/hooks/useCustomProvider.ts:253-263 | a query parameter `api_key` saved from a form whose `authParam` is empty is stored as `("api_key", "")` and reads back as a custom header named `api_key` |
| ProviderForms.Encode | src/hooks/useCustomProvider.ts:253-263 | as written, except that a query parameter with an empty `authParam` stores its own name there |
| ProviderForms.EncodeDecode | src/hooks/useCustomProvider.ts:50-73 | with the corrected save, reading back what was saved restores the form's choice: a standard type with its `authParam`, a custom header with its name, a query parameter with its name |
| ProviderForms.DecodeEncode | src/hooks/useCustomProvider.ts:50-263 | opening a stored pair whose type is not literally `custom` or `query` and saving it again stores the same pair, with both the original and the corrected save |
| Records.FindIndex | src/lib/chat-history.ts:27-29 | `findIndex` returns the first index whose id matches, and -1 exactly when no record has the id |
| Records.Find | src/lib/chat-history.ts:51 | `find` returns `undefined` exactly when no record has the id, and otherwise the record at the first matching index |
| Records.Without | src/lib/chat-history.ts:64-66 | the filter keeps only records whose id differs and every such record, in a list no longer than the input; `Records.WithoutCounts` gives the multiplicities and `Records.WithoutAppend` the order |
| Records.WithoutCounts | src/lib/chat-history.ts:64-66 | every record whose id differs is kept as many times as it occurs, and no record with the id is kept |
| Records.WithoutAppend | src/lib/chat-history.ts:64-66 | filtering distributes over concatenation, so the filter keeps the order of the records it keeps |
| Records.WithoutSameLength | src/lib/chat-history.ts:68-70 | the filtered list has the original length exactly when no record has the id, and is then the original list |
| Records.FirstIndex | src/lib/chat-history.ts:27-29 | an index whose record has the id, with no earlier such record, is what `findIndex` returns |
| Records.Put | src/lib/chat-history.ts:27-34 | a record whose id is present replaces the first record with that id in place and leaves every other position alone; otherwise it is pushed at the end (the upsert); afterwards `find` by its id returns it, and unique ids stay unique |
| Records.Upsert | src/lib/chat-history.ts:27-34 | replacing at the first index with the record's id keeps the length and every other position, and without such an index the record is appended |
| SettingsUtils.Indexed | src/components/settings/utils.ts:23 | the spread of a list holds element i under the key `String(i)` and no key that is not the index of an element |
| SettingsUtils.Spread | src/components/settings/utils.ts:23 | spreading an object copies exactly its fields; `null`, booleans and numbers contribute nothing; arrays and strings contribute only index keys |
| SettingsUtils.LoadSettings | src/components/settings/utils.ts:19-29 | missing, empty or unparsable storage loads the defaults; otherwise every stored property overrides its default, every other default is kept, and no default is ever missing |
| SettingsUtils.ModelsRequest | src/components/settings/utils.ts:57-80 | a provider without model fetching is rejected; otherwise the request is JSON with the configured method or GET, with the bearer or x-api-key header for those types, `?authParam=key` only for `query` with a non-empty `authParam`, and no credential at all for any other type |
| SettingsUtils.RequestsDiffer | src/components/settings/utils.ts:67-75 | for auth types other than bearer and x-api-key, the settings request and the provider client's request agree exactly when the type is `query` with a non-empty `authParam` |
| SpeakerCommands.CaptureTask.constructor | src-tauri/src/speaker/commands.rs:34-42 | the spawned task starts with an empty sample queue and a segmenter that is idle, has emitted nothing and uses the speaker constants at the stream's sample rate |
| SpeakerCommands.CaptureTask.OnSample | src-tauri/src/speaker/commands.rs:43-104 | one sample is queued and every complete window at the front is processed: the windows processed grow by the whole windows of queue plus sample, and the queue keeps the remainder |
| SpeakerCommands.CaptureTask.ProcessFront | src-tauri/src/speaker/commands.rs:47-104 | processing the window at the front of the queue keeps the invariant that the processed windows followed by the whole windows still queued are the windows of all samples received, and shortens the queue |
| SpeakerCommands.CaptureTask.CutWindow | src-tauri/src/speaker/commands.rs:48-53 | the window cut is the first HOP samples of the queue, and the queue keeps the rest in order |
| SpeakerCommands.CaptureTask.Consume | src-tauri/src/speaker/commands.rs:43-105 | after a run of samples, the windows processed grew by the whole windows of the old queue followed by the samples, and the queue keeps the remainder |
| SpeakerCommands.CaptureTask.Feed | src-tauri/src/speaker/commands.rs:43-44 | each sample of the stream keeps the invariant relating the queue and the processed windows to everything received since capture started |
| SpeakerCommands.NothingConsumed | src-tauri/src/speaker/commands.rs:35-40 | before the first sample the invariant holds with the queue as it was and no window processed |
| SpeakerCommands.CutKeepsOrder | src-tauri/src/speaker/commands.rs:47-53 | cutting the first window off the queue moves it to the end of the processed windows without changing the windows of all samples received |
| SpeakerCommands.WindowsAreConsecutive | src-tauri/src/speaker/commands.rs:43-53 | window i is exactly samples iHOP to (i+1)HOP of the stream, the windows and the queue together are the whole stream, and fewer than HOP samples stay queued |
| SpeakerCommands.AudioState.Start | src-tauri/src/speaker/commands.rs:21-110 | a second start fails with `Capture already running` and keeps the running task; a failure to open the speaker input is returned and no task is stored; otherwise a fresh idle task is stored and the start succeeds |
| SpeakerCommands.AudioState.Stop | src-tauri/src/speaker/commands.rs:147-155 | stopping always succeeds and leaves no task running, whether or not one was |
| Storage.SaveConversation | src/lib/storage.ts:85-100 | the saved list is the stored one with the conversation replacing its namesake in place, or put first, cut to 50; it can then be found by id unless its old place was beyond the cap; unique ids stay unique |
| Storage.PlacedFound | src/lib/storage.ts:87-99 | after the save the conversation is found by its id whenever its old index (or the front) is within the 50-conversation cap |
| Storage.PlacedUnique | src/lib/storage.ts:91-99 | replacing in place or prepending a new id and truncating keeps conversation ids unique |
| Storage.DeleteConversation | src/lib/storage.ts:109-113 | the written list is the stored list filtered of that id, in order; it equals the stored list exactly when none had the id |
| Storage.DeleteConversationAppend | src/lib/storage.ts:109-113 | deleting from a concatenation deletes from each part, so the kept conversations stay in order |
| Storage.NewlinesToSpaces | src/lib/storage.ts:130 | every newline becomes a space, every other character is kept, the length is unchanged |
| Storage.CleanedMessage | src/lib/storage.ts:130 | the trimmed, newline-free message has no newline |
| Storage.TrimKeepsOut | src/lib/storage.ts:130 | trimming never introduces a character that was not there |
| Storage.ConversationTitle | src/lib/storage.ts:128-132 | the title is at most 50 characters with no newline: the cleaned message itself when it fits, otherwise its first 47 characters followed by "..." |
| Storage.AddCustomProvider | src/lib/storage.ts:161-172 | the saved list is the stored one with the provider upserted: it replaces the first provider with its id at that index, or is appended; so every provider with another id keeps its place and the new provider is found by its id |
| Storage.MatchIndex | src/lib/storage.ts:219-221 | the match is -1 or an index whose provider id is `===` to the stored id |
| Storage.TypedFields | src/lib/storage.ts:225-247 | the typed provider always has a truthy id, and is custom exactly when the stored entry does not say `isCustom: false` |
| Storage.Typed | src/lib/storage.ts:225-247 | a stored entry that matches no loaded provider becomes a provider with a truthy id, custom unless it says `isCustom: false` |
| Storage.LoadSpeechProviders | src/lib/storage.ts:213-259 | the loop returns the built-in providers when nothing usable is stored and otherwise the in-order merge of the stored entries over them |
| Storage.MergeOneKeeps | src/lib/storage.ts:219-249 | one merge step grows the list by at most one and keeps every earlier provider's id and properties |
| Storage.MergeKeepsDefaults | src/lib/storage.ts:213-259 | after the whole merge every built-in provider is still at its index with its id and all its properties, and at most one provider per stored entry was added |
| Storage.LoadedSpeechProviders | src/lib/storage.ts:213-259 | nothing stored or an unparsable text gives the built-in providers; in every case each built-in provider stays at its index with its id and all its properties |
| Storage.Customs | src/lib/storage.ts:261-272 | the saved list holds exactly the custom providers, no more than were given |
| Storage.CustomsAppend | src/lib/storage.ts:261-272 | keeping the custom providers of a concatenation keeps those of each part, in order; one provider is kept exactly when it is custom |
| Storage.AddSpeechProvider | src/lib/storage.ts:274-285 | the written list is the custom providers of the loaded list with the new provider upserted by id (replacing the first with its id, or appended); a custom new provider is among them, and so is every other custom provider with a different id |
| Storage.UpdateSpeechProviderApiKey | src/lib/storage.ts:300-311 | nothing is written exactly when no provider has the id; otherwise the written list is the custom providers of the loaded list with the first match given the new `apiKey` |
| Storage.DeleteSpeechProvider | src/lib/storage.ts:287-291 | the written list is the custom providers of the loaded list filtered of that id, in order, each of them a loaded provider |
| Storage.DeleteSpeechProviderAppend | src/lib/storage.ts:287-291 | deleting from a concatenation deletes from each part, so the written providers keep their order |
| Storage.GivenKey | src/lib/storage.ts:366 | a non-empty given key wins, otherwise the provider's own key |
| Storage.SetSelectedSpeechProvider | src/lib/storage.ts:353-396 | no selection exactly when no provider has the id; otherwise the id, the name, the key (falling back to the settings key for Whisper when the settings use OpenAI with a usable key) and isConfigured exactly when the provider needs no auth or the key is non-blank |
| Storage.IsSelectedSpeechProviderConfigured | src/lib/storage.ts:402-435 | no selection is not configured; a no-auth provider is; Whisper is when either key is usable; any other provider when it was saved configured with a non-blank key |
| Storage.SelectionConfigured | src/lib/storage.ts:353-435 | a selection saved as configured is reported configured, and for providers other than Whisper the two agree exactly |
| Text.TrimStart | src/lib/storage.ts:130 | the result is a suffix of the input that does not start with white space, and everything cut off is white space |
| Text.TrimEnd | src/lib/storage.ts:130 | the result is a prefix of the input that does not end with white space, and everything cut off is white space |
| Text.TrimEmptyIffBlank | src/hooks/useCustomSttProviders.ts:77 | `!s.trim()` holds exactly for strings made only of white space |
| Text.TrimBlankIffBlank | src/lib/storage.ts:416 | the trimmed string is blank exactly when the string is |
| Text.LowerStr | src-tauri/src/audio.rs:101 | same length; every ASCII capital is lowered and every other character kept |
| Text.Split | src/lib/api.ts:143 | `split` on one character never returns an empty list and no piece holds the separator |
| Text.JoinSplit | src/lib/chat-history.ts:84-86 | joining the pieces of a split with the same separator gives the string back |
| Text.SplitJoin | src/lib/chat-history.ts:84-86 | splitting a join of separator-free pieces gives the pieces back |
| Text.LastPieceIsTail | src/lib/api.ts:143-144 | the piece `pop()` keeps as the buffer is a separator-free suffix, preceded by a separator unless it is the whole text |
| Text.ReplaceAbsent | src/lib/storage/hotkey.storage.ts:132-139 | a case-insensitive global replace of a pattern that does not occur leaves the string unchanged |
| Text.ContainsIffOccurs | src-tauri/src/audio.rs:106-124 | `contains` holds exactly when the pattern occurs at some position |
| Vad.KeepLast | src-tauri/src/speaker/commands.rs:97-101 | popping from the front until at most n samples remain keeps exactly the last min(n, length) samples |
| Vad.DropLast | src-tauri/src/speaker/commands.rs:83-86 | truncating by trim removes exactly the last trim samples when there are more than that, and nothing otherwise; the rest is a prefix |
| Vad.Step | src-tauri/src/speaker/commands.rs:55-103 | one window emits at most two events; speech-start exactly when a speech window arrives while idle; every emitted segment is an encoding and leaves the capture loop idle; the loop is in an utterance only if the window is speech or it already was |
| Vad.Run | src-tauri/src/speaker/commands.rs:47-104 | no windows change nothing; each window adds at most two events, and every emitted segment is an encoding |
| Vad.StepKeepsInv | src-tauri/src/speaker/commands.rs:55-103 | one window keeps both buffers whole windows, the pre-speech buffer within its cap and empty during an utterance, the speech buffer empty outside one, and the overshoot past the safety cap bounded by the quiet windows |
| Vad.StepEmitsWholeWindows | src-tauri/src/speaker/commands.rs:68-89 | every emitted segment is non-empty and a whole number of windows |
| Vad.SpeechStarts | src-tauri/src/speaker/commands.rs:58-67 | a speech window while idle emits speech-start and opens an utterance holding the pre-speech samples and the window, with one speech window counted |
| Vad.QuietWhileIdle | src-tauri/src/speaker/commands.rs:96-102 | a quiet window while idle emits nothing and only appends to the pre-speech buffer, keeping its last PRE_SPEECH_CHUNKS windows |
| Vad.SpeechKeepsSilenceCount | src-tauri/src/speaker/commands.rs:66-75 | a speech window during an utterance counts one more speech window, leaves the quiet count as it is, and emits only when it pushes the buffer past the cap |
| Vad.QuietCloses | src-tauri/src/speaker/commands.rs:77-95 | the quiet window that reaches SILENCE_CHUNKS returns to idle and emits the buffer without its trailing trim only when enough speech windows were counted |
| Vad.SafetyCap | src-tauri/src/speaker/commands.rs:68-75 | a speech window that pushes the buffer past the cap emits the whole buffer, clears it and leaves the utterance without resetting the counters |
| Vad.RunAppend | src-tauri/src/speaker/commands.rs:43-104 | processing two runs of windows one after the other is processing their concatenation, with the events in order |
| Vad.RunKeepsInv | src-tauri/src/speaker/commands.rs:47-104 | the invariant holds after any number of whole windows |
| Vad.AllQuietIsSilent | src-tauri/src/speaker/commands.rs:96-102 | while no window is speech nothing is emitted, no utterance opens, and the pre-speech buffer stays within its cap |
| Vad.QuietFillsPreSpeech | src-tauri/src/speaker/commands.rs:97-101 | while idle the pre-speech buffer is the quiet windows trimmed to their last PRE_SPEECH_CHUNKS windows after each one |
| Vad.SpeechRun | src-tauri/src/speaker/commands.rs:66-67 | speech windows during an utterance, staying under the cap, only append to the buffer and count up |
| Vad.QuietRun | src-tauri/src/speaker/commands.rs:77-79 | fewer quiet windows than SILENCE_CHUNKS during an utterance only append to the buffer and count up |
| Vad.Opens | src-tauri/src/speaker/commands.rs:58-67 | a run of speech windows from idle emits speech-start once and holds the pre-speech samples followed by the windows |
| Vad.Closes | src-tauri/src/speaker/commands.rs:77-95 | SILENCE_CHUNKS quiet windows close an utterance: back to idle, and the trimmed buffer emitted when enough speech was counted |
| Vad.Utterance | src-tauri/src/speaker/commands.rs:55-103 | from idle, enough speech windows followed by SILENCE_CHUNKS quiet ones emit speech-start and then one segment: the pre-speech, the speech and the first half of the quiet windows |
| Vad.ShortUtteranceDiscarded | src-tauri/src/speaker/commands.rs:80-94 | an utterance with fewer than MIN_SPEECH_CHUNKS speech windows emits only speech-start and is dropped |
| Vad.Segmenter.constructor | src-tauri/src/speaker/commands.rs:35-40 | the capture task starts idle with no events and no windows processed |
| Vad.Segmenter.ProcessWindow | src-tauri/src/speaker/commands.rs:55-103 | the variables after a window are the state machine's next state and the events grow by its events; the variables always equal a run of the machine over the windows processed |
| Vad.Segmenter.SpeechWindow | src-tauri/src/speaker/commands.rs:58-75 | the speech branch updates the variables as one step of the state machine |
| Vad.Segmenter.QuietInSpeech | src-tauri/src/speaker/commands.rs:77-95 | the quiet-during-speech branch updates the variables as one step of the state machine |
| Vad.Segmenter.QuietWhileIdle | src-tauri/src/speaker/commands.rs:96-102 | the idle quiet branch updates the variables as one step of the state machine |
| WindowPlacement.TruncDiv2 | src-tauri/src/window.rs:60 | Rust's i32 division by two rounds toward zero for either sign |
| WindowPlacement.TopCenter | src-tauri/src/window.rs:59-64 | the position is on-screen: y is the offset clamped at 0; a window narrower than the monitor fits and is centred to within one pixel, a wider one sits at x = 0 |
| WindowPlacement.TopCenterOnMonitor | src-tauri/src/window.rs:88-94 | the same centring shifted by the monitor's position, so the window stays within the monitor |
| WindowPlacement.CenterCompletely | src-tauri/src/window.rs:130-136 | the window is centred on both axes to within one pixel when it fits, and pinned to the monitor's corner along an axis where it does not |
| WindowPlacement.SetupPosition | src-tauri/src/window.rs:5-44 | set-up puts the window 54 pixels from the top, never left of the screen, and within it when it fits |
| WindowsSpeaker.MonoFormatConsistent | src-tauri/src/speaker/windows.rs:89-101 | for a consistent interleaved mix format the one-channel capture format keeps the sample rate, has one sample per block, and its byte rate matches |
| WindowsSpeaker.PacketSampleCount | src-tauri/src/speaker/windows.rs:145-164 | a packet of n frames adds exactly n samples: zeros when SILENT, otherwise sample j mixes the bytes of frame j |
| WindowsSpeaker.MixFrames | src-tauri/src/speaker/windows.rs:156-164 | the samples are the mix of each whole frame of 4 * channels bytes, in order |
| WindowsSpeaker.SpeakerStream.constructor | src-tauri/src/speaker/windows.rs:22-58 | the stream starts with an empty queue, no waker, no data and no shutdown, and its sample rate is the one the capture thread reported, 0 when set-up failed |
| WindowsSpeaker.SpeakerStream.PollNext | src-tauri/src/speaker/windows.rs:212-230 | a queued sample is handed out first in order; with an empty queue it ends after shutdown, otherwise it registers the caller's waker, clears has_data and is pending; nothing produced is lost or reordered |
| WindowsSpeaker.SpeakerStream.Drop | src-tauri/src/speaker/windows.rs:192-199 | drop requests shutdown and wakes a registered waker exactly once |
| WindowsSpeaker.SpeakerStream.OnPacket | src-tauri/src/speaker/windows.rs:136-179 | a packet's samples are appended to the queue; the first packet with frames after a pending poll sets has_data and wakes the waker once; an empty or failed packet changes nothing |
| WindowsSpeaker.SpeakerStream.QueueZeros | src-tauri/src/speaker/windows.rs:145-149 | a SILENT packet appends one zero per frame and changes nothing else |
| WindowsSpeaker.SpeakerStream.CaptureLoop | src-tauri/src/speaker/windows.rs:127-181 | the loop does not start after shutdown, stops at the first device error, and queues the samples of every packet it took, in order |
| StringOrder.LexTotal | src/lib/api.ts:64 | any two strings are ordered one way or the other |
| StringOrder.LexTrans | src/lib/api.ts:64 | the default string order is transitive |
| StringOrder.LexRefl | src/lib/api.ts:64 | every string sorts with itself |
| StringOrder.SortedPairs | src/lib/api.ts:64 | in a sorted list every earlier element sorts before or with every later one |
| StringOrder.Insert | src/lib/api.ts:64 | inserting adds the element once and keeps the others; the new head is the element or the old head |
| StringOrder.InsertSorted | src/lib/api.ts:64 | inserting into a sorted list keeps it sorted |
| StringOrder.SortSorted | src/lib/api.ts:64 | `sort()` returns a sorted list |
| StringOrder.SortPermutes | src/lib/api.ts:64 | `sort()` returns the same elements with the same multiplicities |
| StringOrder.SortCorrect | src/lib/api.ts:61-64 | the sorted ids are sorted and a permutation of the filtered ids |

## Left out

- Native audio: the cpal streams, the WASAPI and PulseAudio calls, event waits and the release of OS handles. Each back end is modelled as a source of packets or blocks. The outcomes of the PulseAudio connection, the server-info query and the stream set-up are the parameters of `LinuxSpeaker.Init`.
- Audio.Channels: a device configuration has at least one channel. With zero channels the loop of src-tauri/src/audio.rs:291-304 would never end (it needs no values per frame, so it pops nothing and pushes NaN forever); cpal does not report an input configuration without channels, so the model does not follow that case.
- Threads and the async runtime: spawning, joining and aborting, the mpsc stop channel, and the order in which locks are taken. Every locked block is one atomic method.
- Floating-point signal processing: RMS and peak levels, channel averaging, f32 decoding and the i16 scaling of the WAV writer. These are the abstract functions `levels`, `mix` and `decode`, and the thresholds are reals.
- The WAV container and the base64 crate of the audio path: encoding a segment is the abstract `encodes`, which only says whether it succeeded. The emitted event carries the segment's samples.
- HTTP: the reqwest and `fetch` calls. Their responses (status, body chunks, JSON or the error thrown) are parameters. `activate_license_api`, `get_checkout_url` and `transcribe_audio` are not part of this model.
- Environment variables, file I/O and localStorage, `JSON.parse` and `JSON.stringify`: stored text and a parse function are parameters, and written values are results. The failures of locating and reading the secure-storage file are not modelled: `ChatStream.StoredCredentials` has no case for the error of `get_secure_storage_path` or for `Failed to read storage file:` (src-tauri/src/api.rs:45, 51-52).
- JSON numbers are integers. The key order of objects is not modelled. `parseInt` is modelled only on digit runs.
- `trim` and `toLowerCase` are modelled on ASCII only. `TextDecoder` in streaming mode is modelled by chunks that are already text. `String::from_utf8_lossy` is the parameter `decode` of `ChatStream`, of which the model assumes only what `ChatStream.SplitsAtFeeds` states. UTF-16 code units in sort order and title length, Rust byte slicing and panics, and `usize`/`i32` overflow are not modelled.
- React state and effects, the formatted `Ok` messages of the audio setters, `get_vad_status`, `get_audio_devices`, `debug_audio_devices` and `test_audio_levels`.
- `handleAutoFill` and `confirmDelete` of both provider forms, and the storage calls `handleSave` makes after it builds the record.
- `Date.now()` is the parameter `now`. An `undefined` property is an absent key. A form's error keys are an enumeration, and `KeyName` gives the string key of each. A stored provider without `authParam` reads as "".
- The Linux retry loop and the OS calls of window placement. Only the coordinates are modelled.
- `resetHotkeysToDefaults` is `Hotkeys.PlatformDefaults` followed by a write. `setHotkeySettings` and `saveSettingsToStorage` only write.
- `deleteAllConversations`, `loadScreenshotConfig`, `saveScreenshotConfig`, `deleteCustomProvider`, `getCustomProvider`, `getSpeechProvider`, `loadSelectedSpeechProvider`, `saveSelectedSpeechProvider`, `clearSelectedSpeechProvider` and `loadCustomProvidersFromStorage` in src/lib/storage.ts. They are plain reads, writes or lookups by id; the lookups are `Records.Find`.
- What the settings helpers' `fetchModels` does after its request is the provider client's post-processing, `ProviderApi.ModelIds`.
- `CustomAiProviders.HandleSave` and `CustomSttProviders.HandleSave` build the record with the corrected `ProviderForms.Encode` (see Findings). The encoding as written is `ProviderForms.EncodeAsWritten`.
- CustomAiProviders.RecordOf: stores the auth fields of the corrected `ProviderForms.Encode`, not those of `ProviderForms.EncodeAsWritten` that src/hooks/useCustomProvider.ts:253-263 computes, so a query-parameter provider is saved as it was meant to be (see Findings).
- CustomSttProviders.RecordOf: stores the auth fields of the corrected `ProviderForms.Encode` in the same way, not the encoding as written.
- ChatStream.Chat: reads a streamed body with the corrected `ChatStream.ReadBodyBuffered` (see Findings). src-tauri/src/api.rs:187-189 decodes every chunk on its own, and that reading as written is `ChatStream.ReadBody`. The events are therefore those of the stream loop over the texts decoded up to each chunk's last line feed (`ChatStream.BufferedTexts`), not over each chunk's own decoding. `ChatStream.BufferedOnLineChunks` shows that the two coincide when every chunk ends at a line feed.
- JsValues.Prop: reads every property of a string, number or boolean as `undefined` (JavaScript gives `"abc"["0"] == "a"` and a `length`), and an array's `length` as `undefined` too. The paths the core reads through go through objects and array indices only.

## Findings

| source | as written | input that shows it | evidently intended | confidence | as-written member | corrected member |
|---|---|---|---|---|---|---|
| src/hooks/useCustomProvider.ts:253-263 | query auth stores (`queryParamName`, `formData.authParam`), and the AI form has no input that sets `authParam` | form with auth type `query`, `authParam` "" and `queryParamName` "api_key": stored as (`api_key`, ""), which reopens as a custom header named `api_key` | a query-parameter provider reopens as a query parameter with the same name | not executed | ProviderForms.EncodeAsWritten / ProviderForms.QueryReadsBackAsHeader | ProviderForms.Encode / ProviderForms.EncodeDecode |
| src-tauri/src/api.rs:187-189 | every network chunk is decoded on its own with `String::from_utf8_lossy` before it is appended to the line buffer | the body `é` followed by a line feed (bytes C3 A9 0A) arriving as the chunks [C3] and [A9 0A]: the line handed to the loop is two U+FFFD instead of `é`, so a `data:` event's content is corrupted whenever a multi-byte character straddles two chunks | the text framed into lines is the decoding of the whole body whatever the chunking, as the front end gets from its streaming `TextDecoder` (src/lib/api.ts:142) | not executed | ChatStream.ReadBody / ChatStream.SplitCharacterChangesLines | ChatStream.ReadBodyBuffered |
