/** The upload endpoint of app/api/upload/route.ts (`POST`): it streams one
    stage record per step of the ingestion pipeline and stops at the first
    failure. Every external step (form parsing, storage, text extraction,
    table inserts, the text splitter, the embedding providers) is a field of
    `Services` that yields an abstract outcome; the document id that
    `uuidv4` draws is a parameter. */
module UploadRoute {
  import opened Wrappers
  import opened Text
  import opened Embeddings

  /** One record of the NDJSON stream, by its `stage`. */
  datatype Record =
    | Start(message: string)
    | Uploaded(path: string)
    | Extracting(message: string)
    | InsertDocument(message: string)
    | Splitting(message: string)
    | Embedding(message: string)
    | InsertingChunks(message: string)
    | Done(id: string)
    | Error(message: string)

  /** The `stage` field the record is serialised with. */
  function StageName(r: Record): string
  {
    match r
    case Start(_) => "start"
    case Uploaded(_) => "uploaded"
    case Extracting(_) => "extracting"
    case InsertDocument(_) => "insert_document"
    case Splitting(_) => "splitting"
    case Embedding(_) => "embedding"
    case InsertingChunks(_) => "inserting_chunks"
    case Done(_) => "done"
    case Error(_) => "error"
  }

  /** A record after which the stream is closed. */
  predicate IsTerminal(r: Record)
  {
    r.Done? || r.Error?
  }

  /** The position of a progress record in the pipeline. */
  function Rank(r: Record): nat
  {
    match r
    case Start(_) => 0
    case Uploaded(_) => 1
    case Extracting(_) => 2
    case InsertDocument(_) => 3
    case Splitting(_) => 4
    case Embedding(_) => 5
    case InsertingChunks(_) => 6
    case Done(_) => 7
    case Error(_) => 7
  }

  /** A run of records from pipeline position `k` on: progress records of
      consecutive ranks, then exactly one terminal record, and every error
      record carries a message. */
  predicate TailFrom(rs: seq<Record>, k: nat)
  {
    && |rs| > 0
    && IsTerminal(rs[|rs| - 1])
    && (forall i :: 0 <= i < |rs| - 1 ==> !IsTerminal(rs[i]) && Rank(rs[i]) == k + i)
    && (forall i :: 0 <= i < |rs| ==> rs[i].Error? ==> rs[i].message != "")
  }

  /** A whole response body: it starts at `start`, goes through the stages
      in pipeline order, and ends with a single `done` or `error`. */
  predicate WellFormed(rs: seq<Record>)
  {
    |rs| >= 2 && TailFrom(rs, 0)
  }

  lemma TailCons(r: Record, rs: seq<Record>, k: nat)
    requires TailFrom(rs, k + 1)
    requires !IsTerminal(r) && Rank(r) == k
    ensures TailFrom([r] + rs, k)
  {
    var t := [r] + rs;
    forall i | 0 <= i < |t| - 1 ensures !IsTerminal(t[i]) && Rank(t[i]) == k + i {
      if i > 0 {
        assert t[i] == rs[i - 1];
      }
    }
    forall i | 0 <= i < |t| && t[i].Error? ensures t[i].message != "" {
      if i > 0 {
        assert t[i] == rs[i - 1];
      }
    }
  }

  /** Exactly one terminal record, and it is the last: nothing is emitted
      after `done` or `error`. */
  lemma {:induction false} OneTerminal(rs: seq<Record>)
    requires WellFormed(rs)
    ensures forall i :: 0 <= i < |rs| ==> (IsTerminal(rs[i]) <==> i == |rs| - 1)
    ensures rs[0].Start?
  {
    assert Rank(rs[0]) == 0;
  }

  /** Stages never repeat and never go back. */
  lemma StagesInOrder(rs: seq<Record>, i: nat, j: nat)
    requires WellFormed(rs)
    requires i < j < |rs|
    ensures Rank(rs[i]) < Rank(rs[j])
  {
    if j == |rs| - 1 {
      assert Rank(rs[i]) == i;
      assert i <= 6 by {
        assert !IsTerminal(rs[i]);
      }
    }
  }

  // ---------------------------------------------------------------------
  // File extension, storage path and extraction dispatch

  /** The uploaded form entry: its name and MIME type (`file.type`). */
  datatype UploadedFile = UploadedFile(name: string, mime: string)

  /** `name.split(".").pop()?.toLowerCase() || "bin"`. */
  function Ext(name: string): (e: string)
    ensures e != ""
    ensures '.' !in e
  {
    var tail := Last(Split(name, '.'));
    assert forall i :: 0 <= i < |tail| ==> ToLower(tail)[i] == ToLowerChar(tail[i]);
    OrElse(ToLower(tail), "bin")
  }

  /** The extension is the lower-cased text after the last dot, or "bin"
      when that text is empty. */
  lemma ExtAfterLastDot(stem: string, tail: string)
    requires '.' !in tail
    ensures Ext(stem + "." + tail) == if tail == "" then "bin" else ToLower(tail)
  {
    LastPieceAfterSeparator(stem, tail, '.');
  }

  /** A name with no dot is its own extension, lower-cased. */
  lemma ExtWithoutDot(name: string)
    requires '.' !in name
    ensures Ext(name) == if name == "" then "bin" else ToLower(name)
  {
    SplitWithoutSeparator(name, '.');
  }

  /** `documents/${id}.${ext}`. */
  function StoragePath(id: string, ext: string): string
  {
    "documents/" + id + "." + ext
  }

  /** The storage path keeps the file's extension: reading the extension
      back from the path gives the one it was built from. */
  lemma StoragePathKeepsExt(id: string, name: string)
    ensures Ext(StoragePath(id, Ext(name))) == Ext(name)
  {
    var e := Ext(name);
    assert StoragePath(id, e) == ("documents/" + id) + "." + e;
    ExtAfterLastDot("documents/" + id, e);
    ToLowerIdempotent(Last(Split(name, '.')));
    assert ToLower("bin") == "bin";
  }

  /** The four ways text is extracted. */
  datatype Extractor = Pdf | OcrSpace | Tesseract | PlainText

  const ImageExtensions: seq<string> := ["png", "jpg", "jpeg", "webp", "gif", "bmp"]

  predicate IsPdf(mime: string, ext: string)
  {
    mime == "application/pdf" || ext == "pdf"
  }

  predicate IsImage(mime: string, ext: string)
  {
    StartsWith(mime, "image/") || ext in ImageExtensions
  }

  /** The extraction dispatch: PDF first, then images (OCR.Space when its
      key is set, else Tesseract), then plain text. */
  function ChooseExtractor(mime: string, ext: string, ocrKey: bool): (x: Extractor)
    ensures x == Pdf <==> IsPdf(mime, ext)
    ensures x == OcrSpace <==> !IsPdf(mime, ext) && IsImage(mime, ext) && ocrKey
    ensures x == Tesseract <==> !IsPdf(mime, ext) && IsImage(mime, ext) && !ocrKey
    ensures x == PlainText <==> !IsPdf(mime, ext) && !IsImage(mime, ext)
  {
    if IsPdf(mime, ext) then Pdf
    else if IsImage(mime, ext) then (if ocrKey then OcrSpace else Tesseract)
    else PlainText
  }

  // ---------------------------------------------------------------------
  // Chunk rows

  /** `{ index: i, content: d.pageContent }`. */
  datatype Chunk = Chunk(index: nat, content: string)

  /** A row of `document_chunks`; `embedding` is `vectors[i]`, which is
      `undefined` past the end of the vectors. */
  datatype ChunkRow = ChunkRow(documentId: string, chunkIndex: nat, content: string, embedding: Option<Vector>)

  /** `docs.map((d, i) => ({ index: i, content: d.pageContent }))`. */
  function Indexed(docs: seq<string>): (chunks: seq<Chunk>)
    ensures |chunks| == |docs|
    ensures forall i :: 0 <= i < |docs| ==> chunks[i] == Chunk(i, docs[i])
  {
    seq(|docs|, i requires 0 <= i < |docs| => Chunk(i, docs[i]))
  }

  /** `vectors[i]`, `undefined` when out of range. */
  function VectorAt(vectors: seq<Vector>, i: nat): Option<Vector>
  {
    if i < |vectors| then Some(vectors[i]) else None
  }

  /** `chunks.map((c, i) => ({ document_id: id, chunk_index: c.index, ... }))`. */
  function Rows(id: string, chunks: seq<Chunk>, vectors: seq<Vector>): (rows: seq<ChunkRow>)
    ensures |rows| == |chunks|
    ensures forall i :: 0 <= i < |chunks| ==> rows[i] == ChunkRow(id, chunks[i].index, chunks[i].content, VectorAt(vectors, i))
  {
    seq(|chunks|, i requires 0 <= i < |chunks| => ChunkRow(id, chunks[i].index, chunks[i].content, VectorAt(vectors, i)))
  }

  /** The rows the route inserts: one per splitter document, in order, with
      chunk indices exactly 0..N-1 and the vector of the same position. */
  lemma RowsOfDocuments(id: string, docs: seq<string>, vectors: seq<Vector>)
    ensures |Rows(id, Indexed(docs), vectors)| == |docs|
    ensures forall i :: 0 <= i < |docs| ==>
      var row := Rows(id, Indexed(docs), vectors)[i];
      row.documentId == id && row.chunkIndex == i && row.content == docs[i] && row.embedding == VectorAt(vectors, i)
    ensures |vectors| == |docs| ==> forall i :: 0 <= i < |docs| ==>
      Rows(id, Indexed(docs), vectors)[i].embedding == Some(vectors[i])
  {
  }

  // ---------------------------------------------------------------------
  // Framing

  /** `toJSONLine(obj)`: the serialised record and one newline. */
  function ToJSONLine(stringify: Record -> string, r: Record): string
  {
    stringify(r) + "\n"
  }

  /** The response body: the framed records, in order. */
  function Frame(stringify: Record -> string, rs: seq<Record>): string
  {
    if rs == [] then "" else Frame(stringify, DropLast(rs)) + ToJSONLine(stringify, Last(rs))
  }

  /** The serialised records, one per line. */
  function Lines(stringify: Record -> string, rs: seq<Record>): (lines: seq<string>)
    ensures |lines| == |rs|
    ensures forall i :: 0 <= i < |rs| ==> lines[i] == stringify(rs[i])
  {
    seq(|rs|, i requires 0 <= i < |rs| => stringify(rs[i]))
  }

  lemma OneLine(line: string)
    requires '\n' !in line
    ensures CompleteLines(line + "\n") == [line]
    ensures Remainder(line + "\n") == ""
  {
    SplitAppend(line, "\n", '\n');
    SplitWithoutSeparator(line, '\n');
    assert "\n"[1..] == "";
    assert Split("\n", '\n') == ["", ""];
    assert line + "" == line;
  }

  /** When a serialised record never holds a raw newline (JSON escapes it),
      splitting the body on newlines gives back exactly one line per record,
      in order, and leaves nothing after the last newline. */
  lemma {:induction false} FramedRecords(stringify: Record -> string, rs: seq<Record>)
    requires forall r :: '\n' !in stringify(r)
    ensures CompleteLines(Frame(stringify, rs)) == Lines(stringify, rs)
    ensures Remainder(Frame(stringify, rs)) == ""
  {
    if rs == [] {
      assert Split("", '\n') == [""];
    } else {
      var before := Frame(stringify, DropLast(rs));
      var line := stringify(Last(rs));
      FramedRecords(stringify, DropLast(rs));
      FeedAfterRemainder(before, line + "\n");
      assert "" + (line + "\n") == line + "\n";
      OneLine(line);
      assert Lines(stringify, rs) == Lines(stringify, DropLast(rs)) + [line];
    }
  }

  // ---------------------------------------------------------------------
  // The stage sequencer

  /** The outcome of a storage write or a table insert: success, a returned
      `error` object with its message, or a thrown fault with its message. */
  datatype StepOutcome = Ok | Rejected(message: string) | Threw(message: string)

  /** The external world as the route sees it. `form` fails when
      `req.formData()` throws; `storage` covers reading the file and the
      storage upload; `extract` yields the text an extractor produces or the
      fault it throws; `split` is the text splitter; `google` and `groq` are
      the per-batch embedding calls; `chunkInsert` receives the rows. */
  datatype Services = Services(
    form: Result<Option<UploadedFile>, string>,
    storage: StepOutcome,
    extract: Extractor -> Result<string, string>,
    documentInsert: StepOutcome,
    split: string -> seq<string>,
    google: seq<string> -> Result<seq<Vector>, string>,
    groq: seq<string> -> GroqReply,
    chunkInsert: seq<ChunkRow> -> StepOutcome)

  /** Which optional credentials are set. */
  datatype Config = Config(ocrSpaceKey: bool, keys: Keys)

  const UploadingMessage := "Uploading file"
  const NoFileMessage := "No file provided"
  const ExtractingMessage := "Detecting type and extracting text"
  const NoTextMessage := "No text extracted"
  const InsertingMessage := "Inserting document"
  const SplittingMessage := "Splitting text into chunks"
  const InsertingChunksMessage := "Inserting chunk embeddings"

  function EmbeddingMessage(n: nat): string
  {
    "Generating embeddings for " + NatToString(n) + " chunks"
  }

  /** The message the `catch` records: `err?.message || "Unknown error"`. */
  function FaultText(message: string): (r: string)
    ensures r != ""
    ensures message != "" ==> r == message
    ensures message == "" ==> r == "Unknown error"
  {
    OrElse(message, "Unknown error")
  }

  /** The text `rawText` holds after extraction: a fault of the plain-text
      decoder is caught and leaves it empty; any other fault escapes. */
  function Extracted(f: UploadedFile, ocrKey: bool, extract: Extractor -> Result<string, string>): Result<string, string>
  {
    var x := ChooseExtractor(f.mime, Ext(f.name), ocrKey);
    match extract(x)
    case Success(text) => Success(text)
    case Failure(e) => if x == PlainText then Success("") else Failure(e)
  }

  /** The records from `inserting_chunks` on, once the embeddings are in. */
  function AfterEmbedding(id: string, docs: seq<string>, vectors: seq<Vector>,
                          chunkInsert: seq<ChunkRow> -> StepOutcome): seq<Record>
  {
    [InsertingChunks(InsertingChunksMessage)] +
      match chunkInsert(Rows(id, Indexed(docs), vectors))
      case Ok => [Done(id)]
      case Rejected(m) => [Error("Chunk insert failed: " + m)]
      case Threw(m) => [Error(FaultText(m))]
  }

  /** The records from `splitting` on, once the document row is in. */
  function AfterDocument(config: Config, svc: Services, id: string, text: string): seq<Record>
  {
    var docs := svc.split(text);
    [Splitting(SplittingMessage), Embedding(EmbeddingMessage(|docs|))] +
      match EmbeddingsOf(docs, config.keys, svc.google, svc.groq)
      case Failure(e) => [Error(FaultText(e))]
      case Success(vectors) => AfterEmbedding(id, docs, vectors, svc.chunkInsert)
  }

  /** The records after `extracting`. */
  function AfterExtraction(config: Config, svc: Services, id: string, f: UploadedFile): seq<Record>
  {
    match Extracted(f, config.ocrSpaceKey, svc.extract)
    case Failure(e) => [Error(FaultText(e))]
    case Success(text) =>
      if IsBlank(text) then [Error(NoTextMessage)]
      else
        [InsertDocument(InsertingMessage)] +
          match svc.documentInsert
          case Ok => AfterDocument(config, svc, id, text)
          case Rejected(m) => [Error("Document insert failed: " + m)]
          case Threw(m) => [Error(FaultText(m))]
  }

  /** The records after `start`. */
  function AfterStart(config: Config, svc: Services, id: string): seq<Record>
  {
    match svc.form
    case Failure(e) => [Error(FaultText(e))]
    case Success(None) => [Error(NoFileMessage)]
    case Success(Some(f)) =>
      match svc.storage
      case Rejected(m) => [Error("Upload failed: " + m)]
      case Threw(m) => [Error(FaultText(m))]
      case Ok =>
        [Uploaded(StoragePath(id, Ext(f.name))), Extracting(ExtractingMessage)]
          + AfterExtraction(config, svc, id, f)
  }

  /** The whole response body of `POST`, as records. */
  function Body(config: Config, svc: Services, id: string): seq<Record>
  {
    [Start(UploadingMessage)] + AfterStart(config, svc, id)
  }

  /** From `inserting_chunks` on, the records keep pipeline order and end
      in one terminal record. */
  lemma AfterEmbeddingInOrder(id: string, docs: seq<string>, vectors: seq<Vector>,
                              chunkInsert: seq<ChunkRow> -> StepOutcome)
    ensures TailFrom(AfterEmbedding(id, docs, vectors, chunkInsert), 6)
  {
    var last := match chunkInsert(Rows(id, Indexed(docs), vectors))
      case Ok => [Done(id)]
      case Rejected(m) => [Error("Chunk insert failed: " + m)]
      case Threw(m) => [Error(FaultText(m))];
    TailCons(InsertingChunks(InsertingChunksMessage), last, 6);
  }

  lemma AfterDocumentInOrder(config: Config, svc: Services, id: string, text: string)
    ensures TailFrom(AfterDocument(config, svc, id, text), 4)
  {
    var docs := svc.split(text);
    var rest := match EmbeddingsOf(docs, config.keys, svc.google, svc.groq)
      case Failure(e) => [Error(FaultText(e))]
      case Success(vectors) => AfterEmbedding(id, docs, vectors, svc.chunkInsert);
    if EmbeddingsOf(docs, config.keys, svc.google, svc.groq).Success? {
      AfterEmbeddingInOrder(id, docs, EmbeddingsOf(docs, config.keys, svc.google, svc.groq).value, svc.chunkInsert);
    }
    TailCons(Embedding(EmbeddingMessage(|docs|)), rest, 5);
    TailCons(Splitting(SplittingMessage), [Embedding(EmbeddingMessage(|docs|))] + rest, 4);
    assert AfterDocument(config, svc, id, text)
        == [Splitting(SplittingMessage)] + ([Embedding(EmbeddingMessage(|docs|))] + rest);
  }

  lemma AfterExtractionInOrder(config: Config, svc: Services, id: string, f: UploadedFile)
    ensures TailFrom(AfterExtraction(config, svc, id, f), 3)
  {
    match Extracted(f, config.ocrSpaceKey, svc.extract)
    case Failure(e) =>
    case Success(text) =>
      if !IsBlank(text) {
        var rest := match svc.documentInsert
          case Ok => AfterDocument(config, svc, id, text)
          case Rejected(m) => [Error("Document insert failed: " + m)]
          case Threw(m) => [Error(FaultText(m))];
        if svc.documentInsert.Ok? {
          AfterDocumentInOrder(config, svc, id, text);
        }
        TailCons(InsertDocument(InsertingMessage), rest, 3);
      }
  }

  /** The records after `start` once the file is stored. */
  lemma StoredBody(config: Config, svc: Services, id: string, f: UploadedFile)
    requires svc.form == Success(Some(f)) && svc.storage == Ok
    ensures AfterStart(config, svc, id)
         == [Uploaded(StoragePath(id, Ext(f.name)))] + ([Extracting(ExtractingMessage)] + AfterExtraction(config, svc, id, f))
  {
  }

  lemma StoredInOrder(config: Config, svc: Services, id: string, f: UploadedFile)
    requires svc.form == Success(Some(f)) && svc.storage == Ok
    ensures TailFrom(AfterStart(config, svc, id), 1)
  {
    var rest := AfterExtraction(config, svc, id, f);
    AfterExtractionInOrder(config, svc, id, f);
    TailCons(Extracting(ExtractingMessage), rest, 2);
    TailCons(Uploaded(StoragePath(id, Ext(f.name))), [Extracting(ExtractingMessage)] + rest, 1);
    StoredBody(config, svc, id, f);
  }

  lemma AfterStartInOrder(config: Config, svc: Services, id: string)
    ensures TailFrom(AfterStart(config, svc, id), 1)
  {
    match svc.form
    case Failure(e) =>
    case Success(None) =>
    case Success(Some(f)) =>
      if svc.storage.Ok? {
        StoredInOrder(config, svc, id, f);
      }
  }

  /** Every body `POST` can write is well formed: `start` first, the stages
      in pipeline order, one terminal record last, no error without a
      message. */
  lemma BodyWellFormed(config: Config, svc: Services, id: string)
    ensures WellFormed(Body(config, svc, id))
  {
    AfterStartInOrder(config, svc, id);
    TailCons(Start(UploadingMessage), AfterStart(config, svc, id), 0);
  }

  /** Every external step succeeded, with these intermediate values. */
  predicate Succeeds(config: Config, svc: Services, f: UploadedFile, text: string, vectors: seq<Vector>)
  {
    && svc.form == Success(Some(f))
    && svc.storage == Ok
    && Extracted(f, config.ocrSpaceKey, svc.extract) == Success(text)
    && !IsBlank(text)
    && svc.documentInsert == Ok
    && EmbeddingsOf(svc.split(text), config.keys, svc.google, svc.groq) == Success(vectors)
  }

  /** The happy path: the eight records in pipeline order, each once. */
  function SuccessBody(id: string, path: string, n: nat): seq<Record>
  {
    [Start(UploadingMessage), Uploaded(path), Extracting(ExtractingMessage),
     InsertDocument(InsertingMessage), Splitting(SplittingMessage),
     Embedding(EmbeddingMessage(n)), InsertingChunks(InsertingChunksMessage), Done(id)]
  }

  /** When every step succeeds the body is the full stage sequence, and the
      body ends in `done` only then. */
  lemma SuccessOrder(config: Config, svc: Services, id: string, f: UploadedFile, text: string, vectors: seq<Vector>)
    requires Succeeds(config, svc, f, text, vectors)
    requires svc.chunkInsert(Rows(id, Indexed(svc.split(text)), vectors)) == Ok
    ensures Body(config, svc, id) == SuccessBody(id, StoragePath(id, Ext(f.name)), |svc.split(text)|)
  {
  }

  lemma DoneOnlyOnSuccess(config: Config, svc: Services, id: string)
    requires Body(config, svc, id)[|Body(config, svc, id)| - 1].Done?
    ensures exists f, text, vectors ::
      Succeeds(config, svc, f, text, vectors) && svc.chunkInsert(Rows(id, Indexed(svc.split(text)), vectors)) == Ok
  {
    var f := svc.form.value.value;
    var text := Extracted(f, config.ocrSpaceKey, svc.extract).value;
    var vectors := EmbeddingsOf(svc.split(text), config.keys, svc.google, svc.groq).value;
    assert Succeeds(config, svc, f, text, vectors);
  }

  /** A request without a file: `start`, then the error, and nothing else. */
  lemma MissingFile(config: Config, svc: Services, id: string)
    requires svc.form == Success(None)
    ensures Body(config, svc, id) == [Start(UploadingMessage), Error(NoFileMessage)]
  {
  }

  /** A storage error: `start`, then "Upload failed: " and its message. */
  lemma StorageFailure(config: Config, svc: Services, id: string, f: UploadedFile, m: string)
    requires svc.form == Success(Some(f)) && svc.storage == Rejected(m)
    ensures Body(config, svc, id) == [Start(UploadingMessage), Error("Upload failed: " + m)]
  {
  }

  /** Blank text ends the run right after `extracting`, before any insert. */
  lemma BlankText(config: Config, svc: Services, id: string, f: UploadedFile, text: string)
    requires svc.form == Success(Some(f)) && svc.storage == Ok
    requires Extracted(f, config.ocrSpaceKey, svc.extract) == Success(text) && IsBlank(text)
    ensures Body(config, svc, id) ==
      [Start(UploadingMessage), Uploaded(StoragePath(id, Ext(f.name))), Extracting(ExtractingMessage), Error(NoTextMessage)]
  {
  }

  /** Missing embedding credentials surface at the embedding stage, after
      the document row was inserted, as the error the batcher throws. */
  lemma NoProviderAtEmbedding(config: Config, svc: Services, id: string, f: UploadedFile, text: string)
    requires svc.form == Success(Some(f)) && svc.storage == Ok
    requires Extracted(f, config.ocrSpaceKey, svc.extract) == Success(text) && !IsBlank(text)
    requires svc.documentInsert == Ok
    requires !config.keys.google && !config.keys.groq
    ensures Body(config, svc, id) ==
      [Start(UploadingMessage), Uploaded(StoragePath(id, Ext(f.name))), Extracting(ExtractingMessage),
       InsertDocument(InsertingMessage), Splitting(SplittingMessage),
       Embedding(EmbeddingMessage(|svc.split(text)|)), Error(NoProviderMessage)]
  {
  }

  /** The second half of `POST`: splitting, embedding and the chunk insert,
      once the document row is in. Returns the records it appends. */
  method EmbedChunks(config: Config, svc: Services, id: string, rawText: string)
    returns (records: seq<Record>)
    ensures records == AfterDocument(config, svc, id, rawText)
  {
    records := [Splitting(SplittingMessage)];
    var docs := svc.split(rawText);
    var chunks := Indexed(docs);
    records := records + [Embedding(EmbeddingMessage(|chunks|))];
    var vectors, _ := GetEmbeddings(docs, config.keys, svc.google, svc.groq);
    if vectors.Failure? {
      records := records + [Error(FaultText(vectors.error))];
      return;
    }
    records := records + [InsertingChunks(InsertingChunksMessage)];
    var rows := Rows(id, chunks, vectors.value);
    match svc.chunkInsert(rows) {
      case Rejected(m) =>
        records := records + [Error("Chunk insert failed: " + m)];
      case Threw(m) =>
        records := records + [Error(FaultText(m))];
      case Ok =>
        records := records + [Done(id)];
    }
  }

  /** The middle of `POST`: text extraction, the empty-text check and the
      document insert. Returns the records it appends. */
  method ExtractText(config: Config, svc: Services, id: string, file: UploadedFile)
    returns (records: seq<Record>)
    ensures records == AfterExtraction(config, svc, id, file)
  {
    var rawText := "";
    var extractor := ChooseExtractor(file.mime, Ext(file.name), config.ocrSpaceKey);
    match svc.extract(extractor) {
      case Success(text) =>
        rawText := text;
      case Failure(e) =>
        if extractor != PlainText {
          records := [Error(FaultText(e))];
          return;
        }
        rawText := "";
    }
    assert Extracted(file, config.ocrSpaceKey, svc.extract) == Success(rawText);
    if IsBlank(rawText) {
      records := [Error(NoTextMessage)];
      return;
    }
    records := [InsertDocument(InsertingMessage)];
    match svc.documentInsert {
      case Rejected(m) =>
        records := records + [Error("Document insert failed: " + m)];
      case Threw(m) =>
        records := records + [Error(FaultText(m))];
      case Ok =>
        var rest := EmbedChunks(config, svc, id, rawText);
        records := records + rest;
    }
  }

  /** `POST`: each step appends its record to the stream; the first failure
      appends an error record and closes it. Returns the records written:
      the body is always well formed. */
  method Post(config: Config, svc: Services, id: string) returns (records: seq<Record>)
    ensures records == Body(config, svc, id)
    ensures WellFormed(records)
  {
    BodyWellFormed(config, svc, id);
    records := [Start(UploadingMessage)];
    if svc.form.Failure? {
      records := records + [Error(FaultText(svc.form.error))];
      return;
    }
    if svc.form.value.None? {
      records := records + [Error(NoFileMessage)];
      return;
    }
    var file := svc.form.value.value;
    var ext := Ext(file.name);
    var path := StoragePath(id, ext);
    match svc.storage {
      case Rejected(m) =>
        records := records + [Error("Upload failed: " + m)];
      case Threw(m) =>
        records := records + [Error(FaultText(m))];
      case Ok =>
        records := records + [Uploaded(path)];
        records := records + [Extracting(ExtractingMessage)];
        var rest := ExtractText(config, svc, id, file);
        records := records + rest;
    }
  }
}
