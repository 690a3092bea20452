# Second-brain chat front end: stream consumer, upload form and sidebar

This project is a Dafny model of the logic in three React components of a chat front end for a
retrieval-augmented knowledge store. The model proves properties about each of them:

- **ChatInterface `handleSubmit`.** This is the answer-stream consumer. It guards a submission
  and appends the user message. It then reads the streamed response chunk by chunk. Each chunk
  is split on `'\n'`, and only the lines that start with `"data: "` are kept. Each kept line's
  JSON payload is treated as a `sources`, `token` or `done` event:
  - tokens accumulate into `fullContent`, mirrored into `streamingContent`;
  - `done` commits an assistant message.

  If an exception escapes the stream path, one fallback request is sent. Its answer, or a fixed
  apology, is committed.
- **UploadModal.** This covers three things:
  - what choosing a file does: the title default, and the audio/document content type taken
    from the extension;
  - what submitting does on each tab: required-field validation with the fixed messages, tag
    parsing, the request sent, and the error/success/loading flags.
- **Sidebar.** This covers four things:
  - grouping the documents by creation date, kept in first-occurrence order;
  - the per-type counts in the footer;
  - the icon and colour fallback for unknown types;
  - the two-tag preview.

Modules:

- `Text` (`text.dfy`): the JavaScript string operations that are used — `split`, `join`,
  `startsWith`, `trim` and `toLowerCase`.
- `EventLines` (`event_lines.dfy`): the per-chunk line filter.
- `StreamModel` (`stream_model.dfy`): the read loop as functions of its inputs, and what it
  keeps.
- `ChatSession` (`chat_session.dfy`): the `ChatPanel` class and its submit handler.
- `UploadForm` (`upload_form.dfy`): the `UploadModal` class.
- `Sidebar` (`sidebar.dfy`): grouping, counts and the tag preview.
- `ContentTypes` (`content_types.dfy`): the icon and colour tables.
- `Wrappers` (`wrappers.dfy`): `Option` and `Result`.

External behaviour is passed in as parameters:

- `JSON.parse` plus the dispatch on `type` is the function parameter `decode`. It returns
  `None` for a line that does not parse and for an unknown `type`.
- The network is abstract input:
  - the stream is `OpenFailed`, or a sequence of decoded chunks ending cleanly or with a read
    error;
  - the fallback call either answers or fails;
  - the ingest call either succeeds or fails with the server's `error` field and a message.
- `toLocaleDateString` is the parameter `dateKey`.

The model follows what the code does. In particular:

- no partial line is carried over from one chunk to the next (`SplitLineNotReassembled`);
- the loop does not stop after `done`: every `done` commits one more message;
- a read error after tokens or after `done` still goes to the fallback, which appends one more
  message;
- a clean end without `done` commits nothing and keeps whatever `streamingContent` last showed.

## Model

| member | source | states |
|---|---|---|
| `ChatSession.ChatPanel.HandleSubmit` | frontend/src/components/ChatInterface.jsx:18-70 | A whitespace-only input, or a submit while loading, changes nothing and sends nothing. Otherwise: the untrimmed input is appended as the user message, followed by exactly the assistant messages the stream and fallback produce. The input is cleared, `isLoading` ends false, `streamingContent` is the slot the loop left, and the requests are the stream query plus, on failure, the fallback query, both with limit 5. |
| `ChatSession.ChatPanel.Answer` | frontend/src/components/ChatInterface.jsx:22-69 | An accepted submit appends the user message before any assistant message. It clears the slot, reads the stream, falls back once when the stream path throws, and ends with `isLoading` false. |
| `ChatSession.ChatPanel.ReadStream` | frontend/src/components/ChatInterface.jsx:37-60 | The read loop starts from `fullContent = ''` and `sources = []`. It appends exactly the messages `RunChunks` commits, and leaves the slot `RunChunks` computes. |
| `ChatSession.ChatPanel.ConsumeChunk` | frontend/src/components/ChatInterface.jsx:44-59 | One chunk's candidate lines are processed in order, as `RunPayloads` on `Payloads(chunk)`. Earlier messages are untouched. |
| `ChatSession.ChatPanel.ConsumeLine` | frontend/src/components/ChatInterface.jsx:48-58 | One line acts as `StepLine`: a sources event replaces `sources`; a token extends `fullContent` and mirrors it into the slot; done appends one assistant message and clears the slot; an undecodable line changes nothing. |
| `ChatSession.ChatPanel.constructor` | frontend/src/components/ChatInterface.jsx:8-11 | Starts with no messages, empty input, not loading, empty slot. |
| `ChatSession.Accepts` | frontend/src/components/ChatInterface.jsx:20 | A submit goes ahead exactly when the input is not all whitespace and no query is loading. |
| `ChatSession.FallbackMessage` | frontend/src/components/ChatInterface.jsx:62-67 | The fallback message carries the fallback's answer and sources on success. On failure it is the fixed apology with empty sources. |
| `ChatSession.OpenFailureFallsBack` | frontend/src/components/ChatInterface.jsx:61-67 | When the stream cannot be opened, exactly one message (the fallback's) is appended. The fallback is sent with the same query and limit 5. |
| `ChatSession.CleanEndCommitsPerDone` | frontend/src/components/ChatInterface.jsx:40-60 | A cleanly ended stream appends one assistant message per done event that decodes chunk by chunk, and nothing without one. For every query, only the stream request is sent, with limit 5, and no fallback. |
| `ChatSession.ReadErrorFallsBack` | frontend/src/components/ChatInterface.jsx:40-67 | A read error keeps the messages already committed by done events and appends exactly one fallback message after them. |
| `ChatSession.WellFormedStreamOneAnswer` | frontend/src/components/ChatInterface.jsx:47-57 | A stream whose only done event is its last appends exactly one message. That message holds the concatenated tokens and the most recent sources, and the slot ends empty. |
| `ChatSession.SlotAfterStream` | frontend/src/components/ChatInterface.jsx:51-56 | After the stream, `streamingContent` is empty or equals the whole accumulated answer. |
| `EventLines.OneLine` | frontend/src/components/ChatInterface.jsx:45 | A single line gives its payload (the text after the 6-character prefix) if it starts with `"data: "`, and nothing otherwise. |
| `EventLines.DataLine` | frontend/src/components/ChatInterface.jsx:45-49 | A `"data: "` line without a newline gives exactly the rest of the line as its one payload. |
| `EventLines.LinesInOrder` | frontend/src/components/ChatInterface.jsx:45 | The payloads of `a + "\n" + b` are those of `a` followed by those of `b`: original order, nothing added. |
| `EventLines.PayloadMembership` | frontend/src/components/ChatInterface.jsx:45-49 | `p` is a payload of a chunk exactly when `"data: " + p` is one of its newline-separated pieces. No payload contains a newline. |
| `EventLines.Payloads` | frontend/src/components/ChatInterface.jsx:45 | Every payload comes from a whole line of the chunk that reads `"data: "` followed by it, and no payload contains a newline. |
| `StreamModel.StepEffect` | frontend/src/components/ChatInterface.jsx:50-56 | A token only extends `fullContent` and shows it in the slot. A sources event only replaces `sources`, leaving everything else, the slot included, as it was. A done event only appends one assistant message holding the current `fullContent` and `sources`, and clears the slot. Earlier messages are kept, and a slot that was empty or equal to `fullContent` stays so. |
| `StreamModel.StepLineEffect` | frontend/src/components/ChatInterface.jsx:48-58 | A payload that does not decode changes nothing. Any line keeps the earlier messages, adds at most one, only extends `fullContent`, and keeps the slot consistent. |
| `StreamModel.RunPayloadsIsRunEvents` | frontend/src/components/ChatInterface.jsx:47-59 | The line loop acts on exactly the payloads that decode, in order. |
| `StreamModel.RunChunksIsRunEvents` | frontend/src/components/ChatInterface.jsx:40-60 | Reading chunk after chunk acts on the decoded events of all chunks in arrival order. |
| `StreamModel.MalformedLineSkipped` | frontend/src/components/ChatInterface.jsx:48-58 | A line that fails to parse, or has an unknown type, leaves the content, sources, slot and messages as they were. The lines after it are processed as if it were absent. |
| `StreamModel.SplitLineNotReassembled` | frontend/src/components/ChatInterface.jsx:44-45 | A `"data: "` line split across two chunks is not re-joined. Only its first half is decoded, and the second half is discarded. The same line in one chunk is decoded whole. |
| `StreamModel.RunEventsFacts` | frontend/src/components/ChatInterface.jsx:37-56 | The loop's invariants hold after any run of events: `fullContent` is the concatenation of the token payloads in arrival order; `sources` is the most recent sources payload, or `[]`; one assistant message is committed per done after the earlier ones; and the slot is empty or equals `fullContent`. |
| `StreamModel.AfterToken` | frontend/src/components/ChatInterface.jsx:51-53 | After a token event, `fullContent` is all tokens so far, and `streamingContent == fullContent`. |
| `StreamModel.AfterDone` | frontend/src/components/ChatInterface.jsx:54-56 | A done event appends one assistant message with the accumulated text and the latest sources, and resets the slot to `''`. |
| `StreamModel.HelloWorld` | frontend/src/components/ChatInterface.jsx:47-57 | Sources, then tokens "Hel", "lo", " world", then done, commits exactly one message, "Hello world", with those sources. |
| `ContentTypes.IconFor` | frontend/src/components/ChatInterface.jsx:149 | A type the table names gets its own icon. Any other type gets the FileText icon. |
| `ContentTypes.ColorFor` | frontend/src/components/Sidebar.jsx:39 | A named type gets its table colour. Any other type gets `'text-midnight-300'`. |
| `ContentTypes.IconAndColorFallback` | frontend/src/components/Sidebar.jsx:38-39 | Only `audio` gets the microphone and only `web` the globe. A colour other than the fallback goes exactly to the five named types. |
| `UploadForm.ContentTypeFor` | frontend/src/components/UploadModal.jsx:29-31 | The content type is `'audio'` exactly when the extension is one of mp3/m4a/wav/ogg/flac, and `'document'` otherwise. |
| `UploadForm.Extension` | frontend/src/components/UploadModal.jsx:29 | The extension contains no dot and no upper-case ASCII letter. |
| `UploadForm.ExtensionAfterLastDot` | frontend/src/components/UploadModal.jsx:29 | The extension is the lower-cased text after the last dot. |
| `UploadForm.ExtensionWithoutDot` | frontend/src/components/UploadModal.jsx:29 | A name without a dot is, lower-cased, its own extension. |
| `UploadForm.ContentTypeByLastDot` | frontend/src/components/UploadModal.jsx:29-31 | A file is audio exactly when its text after the last dot, lower-cased, is an audio extension. |
| `UploadForm.ParseTags` | frontend/src/components/UploadModal.jsx:48 | No parsed tag is empty, starts or ends with whitespace, or contains a comma. |
| `UploadForm.TagsInOrder` | frontend/src/components/UploadModal.jsx:52 | The tags of `a + "," + b` are the tags of `a` followed by those of `b`: input order is preserved. |
| `UploadForm.OneTag` | frontend/src/components/UploadModal.jsx:48 | A comma-free part gives its trimmed text as one tag, or nothing if that is empty. |
| `UploadForm.PlanSubmit` | frontend/src/components/UploadModal.jsx:42-54 | The submit throws exactly when the tab's required field is missing, with "Please select a file", "Please enter a URL" or "Please enter some text". Otherwise: the file tab sends the raw tags string; the URL tab sends the parsed tags; the text tab sends the parsed tags and the title `'Text Note'` when the title is empty. |
| `UploadForm.ErrorText` | frontend/src/components/UploadModal.jsx:57 | The error shown is the server's `error` field when present and non-empty, else the exception message. |
| `UploadForm.SuccessText` | frontend/src/components/UploadModal.jsx:45-53 | The banner is "Successfully uploaded " plus the file name for a file, "Successfully ingested URL" for a URL and "Successfully saved note" for a note. |
| `UploadForm.UploadModal.constructor` | frontend/src/components/UploadModal.jsx:12-22 | The initial form state: file tab, no file, empty fields, `contentType` `'document'`. |
| `UploadForm.UploadModal.HandleFileChange` | frontend/src/components/UploadModal.jsx:24-33 | With no file selected, nothing changes. Otherwise the file is stored, the title becomes the file name only if it was empty, and the content type follows the extension. |
| `UploadForm.UploadModal.HandleSubmit` | frontend/src/components/UploadModal.jsx:35-60 | `isLoading` is false at the end. On a validation failure, no request is made and `error` is the tab's fixed message. Otherwise the planned request is made: success sets the success banner, leaves `error` empty and schedules `onComplete`; failure sets `error` from `ErrorText` and leaves `success` empty. |
| `Sidebar.GroupByDate` | frontend/src/components/Sidebar.jsx:7-12 | The `reduce` builds the map `Grouped` gives, with its keys in insertion order `KeyOrder`. |
| `Sidebar.GroupsAreFilters` | frontend/src/components/Sidebar.jsx:7-12 | A key has a group exactly when some document has that date key. That group holds exactly the documents with that key, in their original order. |
| `Sidebar.DocumentInOneGroup` | frontend/src/components/Sidebar.jsx:7-12 | Every document is in the group of its own date key and in no other group. |
| `Sidebar.GroupSizesSum` | frontend/src/components/Sidebar.jsx:7-12 | No key is listed twice, and the group sizes sum to the number of documents. |
| `Sidebar.GroupsInFirstOccurrenceOrder` | frontend/src/components/Sidebar.jsx:9-12 | Groups are listed in the order in which their keys first occur among the documents. |
| `Sidebar.CountOfType` | frontend/src/components/Sidebar.jsx:69 | A type's count is never more than the number of documents. |
| `Sidebar.TypeCounts` | frontend/src/components/Sidebar.jsx:68-69 | One count per named type in the table order, each the number of documents with exactly that type. |
| `Sidebar.CountZeroIff` | frontend/src/components/Sidebar.jsx:69 | A type's count is zero exactly when no document has that type. |
| `Sidebar.CountsCoverNamedTypes` | frontend/src/components/Sidebar.jsx:68-69 | The five counts add up to the number of documents of named types. A document of any other type is counted in none of them. |
| `Sidebar.TagPreview` | frontend/src/components/Sidebar.jsx:46-49 | The preview is shown exactly when the tags are present and non-empty. It is then the first tag, or the first two joined by `", "`. |
| `Text.TrimOf` | frontend/src/components/UploadModal.jsx:48 | `trim` removes exactly the surrounding whitespace and keeps a core that neither starts nor ends with whitespace. |
| `Text.TrimEmptyIff` | frontend/src/components/ChatInterface.jsx:20 | `trim` gives the empty string exactly for whitespace-only text. |
| `Text.SplitAppend` | frontend/src/components/ChatInterface.jsx:45 | `split` distributes over a separator: the pieces of `a + sep + b` are the pieces of `a` followed by the pieces of `b`. |
| `Text.JoinSplit` | frontend/src/components/ChatInterface.jsx:45 | Any text is the join, on the separator, of the pieces `split` gives. With `SplitAppend` this lets `OneLine` and `LinesInOrder` determine the payloads of every chunk, and `OneTag` and `TagsInOrder` the tags of every tag string. |
| `Text.SplitJoin` | frontend/src/components/UploadModal.jsx:48 | Splitting the join of a non-empty list of separator-free pieces gives those pieces back, so `split` is the inverse of `join`. |

## Left out

- Network I/O (`fetch`, `reader.read()`, `axios.post`, the `api` wrappers) is replaced by abstract outcomes passed in as parameters. A `fetch` that resolves with an error status is an ordinary opened stream. A missing response body, which makes `getReader()` throw, is `OpenFailed`.
- `TextDecoder` is left out: chunks arrive already decoded, and a multibyte character split across chunks is not modelled.
- `JSON.parse` and the `type` dispatch are the parameter `decode`. How `data.data` is coerced when it has an unexpected shape is up to `decode`.
- Timestamps (`new Date()`), `toLocaleTimeString` and `toLocaleDateString` are left out; the last is the parameter `dateKey`. Messages have no timestamp field.
- The user message has no `sources` field in the code. The model gives it `[]`, which the bubble renders the same way, because it checks `message.sources && message.sources.length > 0`.
- Source relevance is left out. `Math.round(relevance * 100)` is floating-point display only.
- React state batching is not modelled: updates are sequential field assignments. The done branch's updater (ChatInterface.jsx:55) reads the `fullContent` and `sources` bindings when React runs it. Under automatic batching that can happen after later lines of the same chunk have extended `fullContent` or replaced `sources`, so the committed message may hold the later values. The model commits the values as they were at the done event. The `isLoading` guard is the only concurrency control modelled. Rendering, CSS, the `scrollIntoView` effect and the `MessageBubble` layout are left out.
- The `setTimeout(onComplete, 1500)` timer is left out. `HandleSubmit` only reports that it would be scheduled.
- The input, textarea and select `onChange` handlers and the tab buttons are plain field assignments, so they are not modelled as operations.
- `Text.ToLower`: lowers ASCII letters only, while `toLowerCase` lowers all of Unicode. No non-ASCII character lowers to a letter of mp3/m4a/wav/ogg/flac, so the audio classification does not change.
- `ContentTypes.IconFor`: does not model inherited `Object.prototype` properties. In the code, a content type such as `"toString"` finds an inherited member instead of the fallback.
- `ContentTypes.ColorFor`: does not model inherited `Object.prototype` properties either, for the same reason.
- `Sidebar.KeyOrder`: uses insertion order for all date keys. JavaScript lists integer-like object keys first, but date strings are not integer-like.
- App.jsx and api.js are not part of this model. They only fetch, refresh and lay out data.
