# Document upload pipeline: a verified model

This project models the document-ingestion path of a legal-assistant web
application in Dafny. A browser drops a file; the server route stores it,
extracts its text, records the document, splits the text into chunks, embeds
them and stores the chunk rows, streaming one NDJSON stage record per step;
the browser reads that stream line by line and moves an upload job through a
client-side registry. The model covers four pieces of logic and how they fit
together:

- `upload_store.dfy` (module `UploadStore`): the zustand job registry of
  `store/upload.ts`, as a class `Store` whose `jobs` map is replaced by
  `AddJob`, `UpdateJob`, `CompleteJob` and `FailJob`. The field-wise object
  spread is `Merge`; a missing id reads as the empty object, so patching an
  unregistered id stores a partial entry.
- `progress_decoder.dfy` (module `ProgressDecoder`): `startUpload` of
  `components/Dropzone.tsx`. It registers the job, reads the body chunk by
  chunk into a buffer, splits on newlines, keeps the trailing partial line,
  skips blank or unparseable lines and maps each stage to a registry
  transition. `ReadStream` is proved equal to applying the complete lines of
  the whole body, so where the network cuts the stream does not matter.
- `upload_route.dfy` (module `UploadRoute`): `POST` of
  `app/api/upload/route.ts` with each external step as an abstract outcome
  (`Services`). It includes the extension and storage path, the extraction
  dispatch, chunk rows and NDJSON framing. Every body it can write starts with
  `start`, lists the stages in pipeline order and ends in exactly one `done` or
  `error`.
- `embeddings.dfy` (module `Embeddings`): `getEmbeddings` of
  `lib/embeddings.ts`. It checks the providers in order (Google, then Groq,
  then the configuration error), sends consecutive slices of at most 100
  texts, and concatenates the outputs in batch order. The first failure wins.
- `pipeline.dfy` (module `Pipeline`): the route's body read by the client.
  Along a well-formed body the job's progress goes 0, 0, 20, 40, 55, 65, 80,
  90 and never back. `done` leaves the job done at 100%, and `error` leaves it
  failed with the record's message.
- `text.dfy` (module `Text`) and `wrappers.dfy` (module `Wrappers`): the
  JavaScript string operations the source relies on (`split`, `join`, `trim`
  emptiness, `toLowerCase`, `||` on strings, decimal rendering of a number)
  and `Option`/`Result`.

External calls become parameters:

- JSON serialisation is a function `stringify` and parsing is `parse`.
- The storage, table, OCR and PDF calls are `StepOutcome`s and `extract`.
- The text splitter is `split`.
- The embedding providers are per-batch functions.
- Random UUIDs are id parameters.

Missing embedding keys are not detected at start-up. `getEmbeddings`
throws "No embeddings provider configured. Set GOOGLE_API_KEY or
GROQ_API_KEY." when it is called. That is after the file has been stored and
the document row inserted, so the route writes an `error` record right after
`embedding` (`UploadRoute.NoProviderAtEmbedding`).

## Model

| member | source | states |
|---|---|---|
| UploadStore.Store.constructor | store/upload.ts:22 | the store starts with no jobs |
| UploadStore.Store.AddJob | store/upload.ts:23 | the new registry maps the job's id to the job; every other key keeps its value; the key set grows by that id only |
| UploadStore.Store.UpdateJob | store/upload.ts:24 | the new registry is the old one with the entry under `id` merged with the patch; other keys unchanged; no key lost |
| UploadStore.Store.CompleteJob | store/upload.ts:25 | the job becomes done at progress 100; other jobs unchanged; no key lost |
| UploadStore.Store.FailJob | store/upload.ts:26 | the job becomes failed with the message and keeps its progress; other jobs unchanged; no key lost |
| UploadStore.Merge | store/upload.ts:24-26 | the object spread `{ ...job, ...patch }`: each field is the patch's when present and the job's otherwise |
| UploadStore.Lookup | store/upload.ts:24-26 | `s.jobs[id]`, with a missing entry read as the empty object |
| UploadStore.Completed | store/upload.ts:25 | the registry after `completeJob`: the entry merged with status done and progress 100 |
| UploadStore.Failed | store/upload.ts:26 | the registry after `failJob`: the entry merged with status error and the message |
| UploadStore.NewJob | components/Dropzone.tsx:13 | a new job is whole, with the given id and file name, progress 0, status uploading, no error |
| UploadStore.Added | store/upload.ts:23 | keys are the old keys plus the job's id, that id maps to the job, other entries are unchanged |
| UploadStore.Patched | store/upload.ts:24 | for each field, the patched entry holds the patch's value when the patch has that field and the old value otherwise; other entries unchanged; keys gain only `id` |
| UploadStore.CompleteJobEffect | store/upload.ts:25 | completing sets status done and progress 100, keeps id, file name and error, and changes no other job |
| UploadStore.FailJobEffect | store/upload.ts:26 | failing sets status error and the message, keeps progress, id and file name, and changes no other job |
| UploadStore.PatchMissingId | store/upload.ts:24-26 | on an unregistered id the stored entry is exactly the patch, so a completed unknown job is not a whole `UploadJob` |
| UploadStore.PatchKeepsWhole | store/upload.ts:24 | patching a whole registered job leaves it whole |
| UploadStore.PatchTwice | store/upload.ts:24 | two updates in a row equal one update with the merged patch |
| UploadStore.PatchIdempotent | store/upload.ts:24 | repeating the same update changes nothing more |
| ProgressDecoder.ApplyLine | components/Dropzone.tsx:33-55 | one complete line: a blank line or one that does not parse is skipped, otherwise the parsed event's transition is applied |
| ProgressDecoder.Decode | components/Dropzone.tsx:25-31 | the decoder state after each chunk: the chunk joins the buffer, the complete lines go to the handler and the text after the last newline stays buffered |
| ProgressDecoder.FaultMessage | components/Dropzone.tsx:59 | the caught fault's message, or "Upload failed" when it is empty |
| ProgressDecoder.ErrorMessage | components/Dropzone.tsx:37 | the failure message is never empty; it is the event's message whenever that is non-empty, and "Error" when the message is missing or empty |
| ProgressDecoder.TransitionOf | components/Dropzone.tsx:36-52 | "error" fails the job with `ErrorMessage`, the six progress stages map to their patch (20 with processing, 40, 55, 65, 80, 90), "done" completes, anything else is ignored; each case in both directions |
| ProgressDecoder.ApplyLines | components/Dropzone.tsx:32-56 | handling lines changes only the uploading job's entry and adds no key but that id |
| ProgressDecoder.ApplyLinesAppend | components/Dropzone.tsx:32 | handling `a + b` is handling `a` and then `b` |
| ProgressDecoder.SkippedLinesChangeNothing | components/Dropzone.tsx:33-55 | blank lines, lines that do not parse and unknown stages leave the registry unchanged |
| ProgressDecoder.TerminalLine | components/Dropzone.tsx:36-52 | a "done" line leaves the job done at 100 and an "error" line leaves it failed with its message, whatever came before |
| ProgressDecoder.NoTerminalGuard | components/Dropzone.tsx:38-51 | an "uploaded" line after "done" moves the job back to processing at 20, since nothing guards a finished job |
| ProgressDecoder.DecodeFramesConcatenation | components/Dropzone.tsx:25-32 | after any chunks, the lines handled are the complete lines of their concatenation, in order, and the buffer is the text after its last newline |
| ProgressDecoder.SplitInvariance | components/Dropzone.tsx:25-32 | two chunkings of the same text give the same lines and buffer |
| ProgressDecoder.PartialLineAtEndIgnored | components/Dropzone.tsx:27-31 | a last chunk without a newline adds no handled line and is appended to the buffer, so a partial line still buffered when the reader reports done is never handled |
| ProgressDecoder.HandleLine | components/Dropzone.tsx:33-55 | handling one line changes the store as `ApplyLine` says |
| ProgressDecoder.FeedChunk | components/Dropzone.tsx:29-32 | after one chunk the buffer is the text after the last newline of buffer plus chunk, and its complete lines were handled in order |
| ProgressDecoder.ReadStream | components/Dropzone.tsx:23-57 | after the read loop the store has handled exactly the complete lines of the whole body, in order, and the buffer is its unterminated tail |
| ProgressDecoder.UploadOutcome | components/Dropzone.tsx:11-60 | an upload touches only its own job and keeps every other entry and key |
| ProgressDecoder.StartUpload | components/Dropzone.tsx:11-61 | the store after `startUpload` is `UploadOutcome` of the old store |
| ProgressDecoder.RejectedUploadFails | components/Dropzone.tsx:19-21 | a non-OK response or one without a body fails the job with "Upload failed: " and the status, at progress 0 |
| ProgressDecoder.FetchFaultFails | components/Dropzone.tsx:58-59 | a fetch fault fails the job with its message, or "Upload failed" when the message is empty |
| ProgressDecoder.ReadFaultFails | components/Dropzone.tsx:58-59 | a fault thrown by `reader.read()` (line 27) while reading the body fails the job with the fault's message, or "Upload failed" when it has none, whatever records came before |
| ProgressDecoder.SilentStreamKeepsNewJob | components/Dropzone.tsx:13-56 | a body with no recognised record leaves the job as registered |
| Embeddings.GroqResult | lib/embeddings.ts:41-43 | a non-OK Groq response is a failure whose message starts with "Groq embeddings failed: " and the status |
| Embeddings.FlattenAppend | lib/embeddings.ts:21 | flattening concatenated batch lists concatenates their flattenings |
| Embeddings.Batches | lib/embeddings.ts:11-13 | every batch is non-empty and at most 100 long |
| Embeddings.BatchesCover | lib/embeddings.ts:12-13 | the batches concatenate back to the input, in order |
| Embeddings.BatchCount | lib/embeddings.ts:12 | there are ceil(n / 100) batches, so an empty input makes no call |
| Embeddings.BatchAt | lib/embeddings.ts:12-13 | batch j is the slice from 100 * j to the lesser of 100 * j + 100 and n |
| Embeddings.RequestedPrefix | lib/embeddings.ts:12-20 | the provider sees a prefix of the batches in order: all of them on success, else up to and including the failing one, whose error is the result |
| Embeddings.EmbedAllAligned | lib/embeddings.ts:19-21 | if each reply has one vector per text matching it, the output has one vector per input text and vector k matches text k |
| Embeddings.EmbedAll | lib/embeddings.ts:12-48 | the batches sent in order: the first failure is the result, otherwise the per-batch vectors concatenated |
| Embeddings.Requested | lib/embeddings.ts:12-47 | the batches a provider sees: all of them, or those up to and including the first that fails |
| Embeddings.EmbeddingsOf | lib/embeddings.ts:6-52 | Google over the batches when its key is set, else Groq over the batches when its key is set, else the configuration error |
| Embeddings.EmbedWithGoogle | lib/embeddings.ts:7-22 | the Google loop returns the in-order concatenation of per-batch outputs or the first failure, and sends exactly the requested batches |
| Embeddings.EmbedWithGroq | lib/embeddings.ts:24-49 | the Groq loop does the same with a non-OK response as a failure |
| Embeddings.GetEmbeddings | lib/embeddings.ts:6-52 | Google when its key is set, else Groq when its key is set, else the configuration error with nothing sent; empty input with a provider gives no vectors and sends nothing |
| UploadRoute.OneTerminal | app/api/upload/route.ts:30-150 | in a well-formed body the only terminal record is the last one, and the first record is `start` |
| UploadRoute.StagesInOrder | app/api/upload/route.ts:30-146 | stage ranks strictly increase along a well-formed body, so no stage repeats |
| UploadRoute.Ext | app/api/upload/route.ts:41 | the extension is never empty and holds no dot |
| UploadRoute.ExtAfterLastDot | app/api/upload/route.ts:41 | the extension is the lower-cased text after the last dot, and "bin" when that text is empty |
| UploadRoute.ExtWithoutDot | app/api/upload/route.ts:41 | a name without a dot is its own extension, lower-cased, and "bin" only when empty |
| UploadRoute.StoragePath | app/api/upload/route.ts:42 | the storage path `documents/<id>.<ext>` |
| UploadRoute.StoragePathKeepsExt | app/api/upload/route.ts:41-42 | the extension read back from the storage path is the file's extension |
| UploadRoute.ChooseExtractor | app/api/upload/route.ts:64-99 | PDF exactly when the MIME type is application/pdf or the extension is pdf; otherwise image extraction exactly for image MIME types or the six image extensions, OCR.Space exactly when its key is set; plain text otherwise |
| UploadRoute.Indexed | app/api/upload/route.ts:126 | one chunk per document, chunk i has index i and document i's content |
| UploadRoute.Rows | app/api/upload/route.ts:132-138 | one row per chunk, with the document id, the chunk's index and content, and the vector at the same position or none past the end |
| UploadRoute.RowsOfDocuments | app/api/upload/route.ts:126-138 | the rows have chunk indices exactly 0..N-1 in order, the document id and the splitter's texts, and carry every vector when there is one per chunk |
| UploadRoute.ToJSONLine | app/api/upload/route.ts:21-23 | a record serialised and followed by one newline |
| UploadRoute.Frame | app/api/upload/route.ts:21-23 | the response body: the records' lines written one after another |
| UploadRoute.FramedRecords | app/api/upload/route.ts:21-23 | splitting the framed body on newlines gives one line per record, in order, with nothing left over |
| UploadRoute.Extracted | app/api/upload/route.ts:59-99 | the text of the chosen extractor; a fault of the plain-text decoder is caught and gives empty text, any other fault escapes to the route's catch |
| UploadRoute.EmbeddingMessage | app/api/upload/route.ts:128 | "Generating embeddings for <n> chunks", with the number of chunks |
| UploadRoute.FaultText | app/api/upload/route.ts:149 | the message of a caught fault is the fault's message when non-empty and "Unknown error" otherwise |
| UploadRoute.AfterEmbedding | app/api/upload/route.ts:131-147 | `inserting_chunks`, then `done` with the document id or the chunk insert's error |
| UploadRoute.AfterDocument | app/api/upload/route.ts:120-147 | `splitting` and `embedding` with the chunk count, then the embedding error or the records from `inserting_chunks` on |
| UploadRoute.AfterExtraction | app/api/upload/route.ts:59-147 | after `extracting`: an extraction fault, "No text extracted" for blank text, or `insert_document` followed by the insert's error or the records from `splitting` on |
| UploadRoute.AfterStart | app/api/upload/route.ts:32-147 | after `start`: a form fault, "No file provided", the storage error, or `uploaded` with the storage path and `extracting` followed by the records after extraction |
| UploadRoute.Body | app/api/upload/route.ts:25-151 | the whole response body: `start`, then the records after it |
| UploadRoute.BodyWellFormed | app/api/upload/route.ts:30-150 | every body starts with `start`, has the stages in pipeline order, ends with one `done` or `error`, and every error carries a message |
| UploadRoute.SuccessOrder | app/api/upload/route.ts:30-146 | when every step succeeds the body is start, uploaded, extracting, insert_document, splitting, embedding, inserting_chunks, done |
| UploadRoute.DoneOnlyOnSuccess | app/api/upload/route.ts:146 | a body ends in `done` only if every external step succeeded |
| UploadRoute.MissingFile | app/api/upload/route.ts:30-37 | without a file the body is exactly start, error "No file provided" |
| UploadRoute.StorageFailure | app/api/upload/route.ts:52-56 | a storage error gives exactly start, error "Upload failed: " and its message |
| UploadRoute.BlankText | app/api/upload/route.ts:101-105 | blank extracted text ends the body with "No text extracted" right after `extracting`, before any insert |
| UploadRoute.NoProviderAtEmbedding | app/api/upload/route.ts:128-129 | with no embedding key the run fails right after `embedding`, after the document row was inserted |
| UploadRoute.ExtractText | app/api/upload/route.ts:59-118 | the records written from extraction through the document insert are those of the body |
| UploadRoute.EmbedChunks | app/api/upload/route.ts:120-147 | the records written from splitting through the chunk insert are those of the body |
| UploadRoute.Post | app/api/upload/route.ts:25-151 | the records `POST` writes are the body, which is well formed |
| Pipeline.LinesReplay | components/Dropzone.tsx:32-52 | reading the serialised records line by line has the effect of replaying the records |
| Pipeline.ClientSeesRecords | components/Dropzone.tsx:25-56 | however the body is cut into chunks, the client handles exactly the records, in order, and nothing is left in the buffer |
| Pipeline.RecordTransition | components/Dropzone.tsx:36-52 | `start` is ignored, each progress record sets the progress of its rank, `done` completes and `error` fails with its message |
| Pipeline.StageAdvance | components/Dropzone.tsx:38-49 | the progress record of rank k - 1 moves the job from stage k - 1 to stage k |
| Pipeline.ProgressAlongStream | components/Dropzone.tsx:13-49 | before the terminal record the job keeps its id and file name, shows progress 0, 0, 20, 40, 55, 65, 80, 90 record by record, and is processing once `uploaded` arrives |
| Pipeline.StreamOutcome | components/Dropzone.tsx:36-52 | after a well-formed body the job is done at 100 with no error if it ended in `done`, and failed with the record's message at the last progress if it ended in `error` |
| Pipeline.ProgressAt | components/Dropzone.tsx:13-52 | the progress after each prefix of a well-formed body |
| Pipeline.ProgressNonDecreasing | components/Dropzone.tsx:13-52 | the progress the client shows never decreases along a well-formed body |
| Pipeline.ReadWellFormedBody | components/Dropzone.tsx:25-61 | for any well-formed record body and any way the network cuts it into chunks, the client ends with the job done at 100 after `done` and failed with the record's message after `error` |
| Pipeline.EndToEnd | app/api/upload/route.ts:25-151 | for every outcome of the external steps, the client ends with the job done at 100 when the route's body ends in `done`, and failed with the error message when it ends in `error` |
| Text.Split | components/Dropzone.tsx:30 | one more piece than separators, and no piece holds the separator |
| Text.SplitAppend | components/Dropzone.tsx:29-31 | splitting a concatenation splits the parts and joins the last piece of the first to the first piece of the second |
| Text.JoinSplit | components/Dropzone.tsx:30 | joining the pieces of a split gives the string back |
| Text.SplitJoin | app/api/upload/route.ts:21-23 | splitting a join of separator-free pieces gives the pieces back |
| Text.FeedAfterRemainder | components/Dropzone.tsx:29-31 | the complete lines of `s + more` are those of `s` followed by those of its tail plus `more`, with the same remainder |
| Text.RemainderHasNoNewline | components/Dropzone.tsx:31 | the kept buffer never holds a newline |
| Text.TrailingPartialLine | components/Dropzone.tsx:27-31 | a partial line after newline-terminated text adds no complete line and becomes the buffer |
| Text.LastPieceAfterSeparator | app/api/upload/route.ts:41 | the last piece of a split is the text after the last separator |
| Text.IsBlank | components/Dropzone.tsx:33 | `!s.trim()`: every character is ECMAScript whitespace or a line terminator |
| Text.OrElse | components/Dropzone.tsx:37 | `s || fallback` is `s` when `s` is non-empty and `fallback` when it is empty |
| Text.ToLower | app/api/upload/route.ts:41 | lower-casing keeps the length and lowers each ASCII capital |
| Text.ToLowerIdempotent | app/api/upload/route.ts:41 | lower-casing twice is lower-casing once |
| Text.NatToString | app/api/upload/route.ts:128 | a number renders as a non-empty string of decimal digits, with a leading zero only for 0 itself |
| Text.DecimalRoundTrip | app/api/upload/route.ts:128 | reading the rendered digits back gives the number |

## Left out

- Network chunks are modelled as already-decoded text. `TextDecoder` streaming of multi-byte characters split across chunks is left out, and so is the byte encoding of `toJSONLine`.
- `JSON.stringify` and `JSON.parse` are the abstract `stringify` and `parse`. The end-to-end lemmas assume what `Pipeline.Faithful` states: JSON escapes newlines, and parsing gives back the stage and message.
- Supabase storage and table inserts, pdf-parse, OCR.Space, Tesseract, the Google SDK and the Groq HTTP endpoint are abstract outcomes. This covers the join of OCR.Space's `ParsedResults`, the `|| ""` on extracted text, the 1000/200 splitter settings, and the content type and upsert options of the upload.
- The text splitter is an opaque function that cannot fail. A fault it throws is not modelled.
- `file.arrayBuffer()` faults are folded into the storage step's thrown outcome.
- Embedding vectors are opaque values of type `seq<real>`. Floating point is not modelled.
- `crypto.randomUUID` and `uuidv4` are id parameters. Freshness is not modelled.
- `created_at` timestamps and the response headers are left out.
- The Supabase key selection at module load is left out, as are async scheduling and `controller.close()`. The end of the record sequence stands for the close.
- The React component around `startUpload` is left out: the drop and change handlers and the drag-over state.
- `components/theme-provider.tsx`, `app/page.tsx`, `app/dashboard/page.tsx` and `tailwind.preset.ts` are presentational and are not part of this model.
- Text.ToLower: lowers ASCII capitals only. `toLowerCase` also maps non-ASCII letters, and that is not modelled.
- UploadStore.Patched: a patch field that is present but explicitly `undefined` is treated as absent. In JavaScript the spread would write `undefined` over the old value.
- ProgressDecoder.StartUpload: a read fault is modelled as ending the read loop after the chunks read so far. A fault thrown by a store operation is not modelled.
- Embeddings.EmbedWithGoogle: a reply whose `embeddings` field is missing is a failure of the abstract call. The model does not check the reply's shape.
