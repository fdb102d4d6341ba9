/** The upload client of components/Dropzone.tsx (`startUpload`): it registers
    a job, reads the streamed response as newline-delimited records, and maps
    each recognised stage to a job-registry transition. JSON parsing is the
    abstract partial function `parse`; network chunks arrive already decoded
    to text. */
module ProgressDecoder {
  import opened Wrappers
  import opened Text
  import opened UploadStore

  /** A parsed record as the client reads it: its `stage` and `message`. */
  datatype Event = Event(stage: string, message: Option<string>)

  /** What one event does to the job. */
  datatype Transition = FailWith(message: string) | Update(patch: Job) | Complete | Ignore

  /** The stages that only move the progress bar, in the order the server
      emits them, and the progress each one sets. */
  const UpdateStages: seq<string> :=
    ["uploaded", "extracting", "insert_document", "splitting", "embedding", "inserting_chunks"]
  const UpdateProgress: seq<int> := [20, 40, 55, 65, 80, 90]

  /** The patch for the update stage at position `k` of UpdateStages:
      "uploaded" also moves the status to processing. */
  function StagePatch(k: nat): Job
    requires k < |UpdateProgress|
  {
    Job(None, None, Some(UpdateProgress[k]), if k == 0 then Some(Processing) else None, None)
  }

  /** `evt.message || "Error"`. */
  function ErrorMessage(message: Option<string>): (r: string)
    ensures r != ""
    ensures message.Some? && message.value != "" ==> r == message.value
    ensures message.None? || message.value == "" ==> r == "Error"
  {
    OrElse(message.GetOr(""), "Error")
  }

  /** The `if` chain over `evt.stage`. */
  function TransitionOf(e: Event): (t: Transition)
    ensures t.FailWith? <==> e.stage == "error"
    ensures t.FailWith? ==> t.message == ErrorMessage(e.message)
    ensures t.Complete? <==> e.stage == "done"
    ensures t.Update? <==> e.stage in UpdateStages
    ensures forall k :: 0 <= k < |UpdateStages| && e.stage == UpdateStages[k] ==> t == Update(StagePatch(k))
    ensures t.Ignore? <==> e.stage != "error" && e.stage != "done" && e.stage !in UpdateStages
  {
    if e.stage == "error" then FailWith(ErrorMessage(e.message))
    else if e.stage == "uploaded" then Update(Job(None, None, Some(20), Some(Processing), None))
    else if e.stage == "extracting" then Update(Job(None, None, Some(40), None, None))
    else if e.stage == "insert_document" then Update(Job(None, None, Some(55), None, None))
    else if e.stage == "splitting" then Update(Job(None, None, Some(65), None, None))
    else if e.stage == "embedding" then Update(Job(None, None, Some(80), None, None))
    else if e.stage == "inserting_chunks" then Update(Job(None, None, Some(90), None, None))
    else if e.stage == "done" then Complete
    else Ignore
  }

  function ApplyTransition(jobs: map<string, Job>, id: string, t: Transition): map<string, Job>
  {
    match t
    case FailWith(m) => Failed(jobs, id, m)
    case Update(p) => Patched(jobs, id, p)
    case Complete => Completed(jobs, id)
    case Ignore => jobs
  }

  /** The effect of one complete line: blank lines and lines that do not
      parse are skipped. */
  function ApplyLine(jobs: map<string, Job>, id: string, line: string, parse: string -> Option<Event>): map<string, Job>
  {
    if IsBlank(line) then jobs
    else match parse(line)
      case None => jobs
      case Some(e) => ApplyTransition(jobs, id, TransitionOf(e))
  }

  /** The effect of a sequence of lines, applied in order: only the job
      being uploaded changes, and no key is removed. */
  function ApplyLines(jobs: map<string, Job>, id: string, lines: seq<string>, parse: string -> Option<Event>): (r: map<string, Job>)
    ensures jobs.Keys <= r.Keys <= jobs.Keys + {id}
    ensures forall k :: k in jobs && k != id ==> r[k] == jobs[k]
  {
    if lines == [] then jobs
    else ApplyLine(ApplyLines(jobs, id, DropLast(lines), parse), id, Last(lines), parse)
  }

  /** Applying `a + b` is applying `a`, then `b`. */
  lemma {:induction false} ApplyLinesAppend(jobs: map<string, Job>, id: string, a: seq<string>, b: seq<string>, parse: string -> Option<Event>)
    ensures ApplyLines(jobs, id, a + b, parse) == ApplyLines(ApplyLines(jobs, id, a, parse), id, b, parse)
  {
    if b == [] {
      assert a + b == a;
    } else {
      assert DropLast(a + b) == a + DropLast(b);
      assert Last(a + b) == Last(b);
      ApplyLinesAppend(jobs, id, a, DropLast(b), parse);
    }
  }

  /** A line that the decoder skips. */
  predicate Skipped(line: string, parse: string -> Option<Event>)
  {
    IsBlank(line) || parse(line).None? || TransitionOf(parse(line).value).Ignore?
  }

  /** Skipped lines leave the registry unchanged. */
  lemma {:induction false} SkippedLinesChangeNothing(jobs: map<string, Job>, id: string, lines: seq<string>, parse: string -> Option<Event>)
    requires forall i :: 0 <= i < |lines| ==> Skipped(lines[i], parse)
    ensures ApplyLines(jobs, id, lines, parse) == jobs
  {
    if lines != [] {
      SkippedLinesChangeNothing(jobs, id, DropLast(lines), parse);
      assert Skipped(lines[|lines| - 1], parse);
    }
  }

  /** A line carrying a "done" record completes the job whatever came
      before; one carrying an "error" record fails it with its message. */
  lemma TerminalLine(jobs: map<string, Job>, id: string, lines: seq<string>, line: string, e: Event, parse: string -> Option<Event>)
    requires !IsBlank(line) && parse(line) == Some(e)
    ensures e.stage == "done" ==>
      ApplyLines(jobs, id, lines + [line], parse)[id].status == Some(Done) &&
      ApplyLines(jobs, id, lines + [line], parse)[id].progress == Some(100)
    ensures e.stage == "error" ==>
      ApplyLines(jobs, id, lines + [line], parse)[id].status == Some(Error) &&
      ApplyLines(jobs, id, lines + [line], parse)[id].error == Some(ErrorMessage(e.message))
  {
    assert DropLast(lines + [line]) == lines;
    assert Last(lines + [line]) == line;
  }

  /** Nothing guards a terminal job: an "uploaded" record after "done" moves
      the job back to processing at 20%. */
  lemma NoTerminalGuard(jobs: map<string, Job>, id: string)
    ensures Patched(Completed(jobs, id), id, StagePatch(0))[id].status == Some(Processing)
    ensures Patched(Completed(jobs, id), id, StagePatch(0))[id].progress == Some(20)
  {
  }

  /** The decoder's state after a sequence of chunks: the lines handed to
      the `for` loop so far, and the buffer. Each chunk is appended to the
      buffer, the buffer is split on newlines, and the last piece is kept. */
  datatype Decoded = Decoded(lines: seq<string>, buffer: string)

  function Decode(chunks: seq<string>): Decoded
  {
    if chunks == [] then Decoded([], "")
    else
      var d := Decode(DropLast(chunks));
      var text := d.buffer + Last(chunks);
      Decoded(d.lines + CompleteLines(text), Remainder(text))
  }

  /** The lines processed are the complete lines of everything received, in
      order, each once; the buffer is the text after the last newline. */
  lemma {:induction false} DecodeFramesConcatenation(chunks: seq<string>)
    ensures Decode(chunks) == Decoded(CompleteLines(Concat(chunks)), Remainder(Concat(chunks)))
  {
    if chunks == [] {
      assert Split("", '\n') == [""];
    } else {
      DecodeFramesConcatenation(DropLast(chunks));
      FeedAfterRemainder(Concat(DropLast(chunks)), Last(chunks));
    }
  }

  /** Split invariance: where the network cuts the stream does not matter. */
  lemma SplitInvariance(c1: seq<string>, c2: seq<string>)
    requires Concat(c1) == Concat(c2)
    ensures Decode(c1) == Decode(c2)
  {
    DecodeFramesConcatenation(c1);
    DecodeFramesConcatenation(c2);
  }

  /** A last chunk without a newline adds no line: it only joins the
      buffer, and a partial line still in the buffer when the reader
      reports `done` is never processed. */
  lemma PartialLineAtEndIgnored(chunks: seq<string>, partial: string)
    requires '\n' !in partial
    ensures Decode(chunks + [partial]).lines == Decode(chunks).lines
    ensures Decode(chunks + [partial]).buffer == Remainder(Concat(chunks)) + partial
  {
    DecodeFramesConcatenation(chunks);
    assert DropLast(chunks + [partial]) == chunks;
    assert Last(chunks + [partial]) == partial;
    var text := Remainder(Concat(chunks)) + partial;
    RemainderHasNoNewline(Concat(chunks));
    assert '\n' !in text;
    SplitWithoutSeparator(text, '\n');
    assert Decode(chunks).lines + [] == Decode(chunks).lines;
  }

  /** The body of the `for` loop over complete lines. */
  method HandleLine(store: Store, jobId: string, line: string, parse: string -> Option<Event>)
    modifies store
    ensures store.jobs == ApplyLine(old(store.jobs), jobId, line, parse)
  {
    if !IsBlank(line) {
      match parse(line)
      case None =>
      case Some(evt) =>
        if evt.stage == "error" {
          store.FailJob(jobId, ErrorMessage(evt.message));
        } else if evt.stage == "uploaded" {
          store.UpdateJob(jobId, StagePatch(0));
        } else if evt.stage == "extracting" {
          store.UpdateJob(jobId, StagePatch(1));
        } else if evt.stage == "insert_document" {
          store.UpdateJob(jobId, StagePatch(2));
        } else if evt.stage == "splitting" {
          store.UpdateJob(jobId, StagePatch(3));
        } else if evt.stage == "embedding" {
          store.UpdateJob(jobId, StagePatch(4));
        } else if evt.stage == "inserting_chunks" {
          store.UpdateJob(jobId, StagePatch(5));
        } else if evt.stage == "done" {
          store.CompleteJob(jobId);
        }
    }
  }

  /** One chunk read: append it to the buffer, handle every complete line in
      order, and keep the text after the last newline as the new buffer. */
  method FeedChunk(store: Store, jobId: string, buffer: string, chunk: string,
                   parse: string -> Option<Event>)
    returns (rest: string)
    modifies store
    ensures rest == Remainder(buffer + chunk)
    ensures store.jobs == ApplyLines(old(store.jobs), jobId, CompleteLines(buffer + chunk), parse)
  {
    ghost var initial := store.jobs;
    var lines := Split(buffer + chunk, '\n');
    rest := lines[|lines| - 1];
    lines := lines[..|lines| - 1];
    var j := 0;
    assert lines[..j] == [];
    while j < |lines|
      invariant 0 <= j <= |lines|
      invariant store.jobs == ApplyLines(initial, jobId, lines[..j], parse)
    {
      assert DropLast(lines[..j + 1]) == lines[..j];
      HandleLine(store, jobId, lines[j], parse);
      j := j + 1;
    }
    assert lines[..j] == lines;
  }

  /** The read loop of `startUpload`: `chunks` are the decoded values
      `reader.read()` yields before it reports `done`. The lines handled are
      the complete lines of the whole body, and the buffer left at the end
      holds its unterminated tail. */
  method ReadStream(store: Store, jobId: string, chunks: seq<string>, parse: string -> Option<Event>)
    returns (buffer: string)
    modifies store
    ensures buffer == Remainder(Concat(chunks))
    ensures store.jobs == ApplyLines(old(store.jobs), jobId, CompleteLines(Concat(chunks)), parse)
  {
    ghost var initial := store.jobs;
    buffer := "";
    var n := 0;
    while n < |chunks|
      invariant 0 <= n <= |chunks|
      invariant buffer == Decode(chunks[..n]).buffer
      invariant store.jobs == ApplyLines(initial, jobId, Decode(chunks[..n]).lines, parse)
    {
      ghost var done := Decode(chunks[..n]).lines;
      assert DropLast(chunks[..n + 1]) == chunks[..n];
      assert Last(chunks[..n + 1]) == chunks[n];
      ghost var fed := CompleteLines(buffer + chunks[n]);
      buffer := FeedChunk(store, jobId, buffer, chunks[n], parse);
      ApplyLinesAppend(initial, jobId, done, fed, parse);
      n := n + 1;
    }
    assert chunks[..n] == chunks;
    DecodeFramesConcatenation(chunks);
  }

  /** What the `fetch` of `startUpload` yields: a thrown fault, or a response
      with its `ok` flag, whether it has a body, its status, the chunks read
      from the body and, if reading threw before `done`, that fault's
      message. An empty message stands for a fault without one. */
  datatype Response =
    | FetchFailed(message: string)
    | Replied(ok: bool, hasBody: bool, status: nat, chunks: seq<string>, readFault: Option<string>)

  /** The message the `catch` of `startUpload` records: `e?.message || "Upload failed"`. */
  function FaultMessage(message: string): string
  {
    OrElse(message, "Upload failed")
  }

  /** The registry after `startUpload` has run to its end. */
  function UploadOutcome(jobs: map<string, Job>, jobId: string, filename: string,
                         response: Response, parse: string -> Option<Event>): (r: map<string, Job>)
    ensures r.Keys == jobs.Keys + {jobId}
    ensures forall k :: k in jobs && k != jobId ==> r[k] == jobs[k]
  {
    var registered := Added(jobs, NewJob(jobId, filename));
    match response
    case FetchFailed(m) => Failed(registered, jobId, FaultMessage(m))
    case Replied(ok, hasBody, status, chunks, readFault) =>
      if !ok || !hasBody then Failed(registered, jobId, FaultMessage("Upload failed: " + NatToString(status)))
      else
        var decoded := ApplyLines(registered, jobId, CompleteLines(Concat(chunks)), parse);
        match readFault
        case None => decoded
        case Some(m) => Failed(decoded, jobId, FaultMessage(m))
  }

  /** `startUpload(file)` with the fresh id `jobId` that `crypto.randomUUID`
      supplies. */
  method StartUpload(store: Store, jobId: string, filename: string,
                     response: Response, parse: string -> Option<Event>)
    modifies store
    ensures store.jobs == UploadOutcome(old(store.jobs), jobId, filename, response, parse)
  {
    store.AddJob(Job(Some(jobId), Some(filename), Some(0), Some(Uploading), None));
    match response
    case FetchFailed(m) =>
      store.FailJob(jobId, FaultMessage(m));
    case Replied(ok, hasBody, status, chunks, readFault) =>
      if !ok || !hasBody {
        store.FailJob(jobId, FaultMessage("Upload failed: " + NatToString(status)));
      } else {
        var _ := ReadStream(store, jobId, chunks, parse);
        match readFault
        case None =>
        case Some(m) =>
          store.FailJob(jobId, FaultMessage(m));
      }
  }

  /** A non-OK response or one without a body fails the new job with
      "Upload failed: <status>" at progress 0. */
  lemma RejectedUploadFails(jobs: map<string, Job>, jobId: string, filename: string,
                            response: Response, parse: string -> Option<Event>)
    requires response.Replied? && (!response.ok || !response.hasBody)
    ensures UploadOutcome(jobs, jobId, filename, response, parse)[jobId]
         == Job(Some(jobId), Some(filename), Some(0), Some(Error), Some("Upload failed: " + NatToString(response.status)))
  {
  }

  /** A fault while fetching fails the new job with the fault's message, or
      "Upload failed" when it has none. */
  lemma FetchFaultFails(jobs: map<string, Job>, jobId: string, filename: string,
                        response: Response, parse: string -> Option<Event>)
    requires response.FetchFailed?
    ensures UploadOutcome(jobs, jobId, filename, response, parse)[jobId]
         == Job(Some(jobId), Some(filename), Some(0), Some(Error),
                Some(if response.message == "" then "Upload failed" else response.message))
  {
  }

  /** A fault while reading the body fails the job with the fault's
      message, or "Upload failed" when it has none, whatever records came
      before it. */
  lemma ReadFaultFails(jobs: map<string, Job>, jobId: string, filename: string,
                       response: Response, parse: string -> Option<Event>)
    requires response.Replied? && response.ok && response.hasBody && response.readFault.Some?
    ensures var job := UploadOutcome(jobs, jobId, filename, response, parse)[jobId];
      && job.status == Some(Error)
      && job.error == Some(if response.readFault.value == "" then "Upload failed" else response.readFault.value)
  {
  }

  /** A stream that carries no recognised record leaves the new job as
      registered: uploading at 0%. */
  lemma SilentStreamKeepsNewJob(jobs: map<string, Job>, jobId: string, filename: string,
                                response: Response, parse: string -> Option<Event>)
    requires response.Replied? && response.ok && response.hasBody && response.readFault.None?
    requires forall i :: 0 <= i < |CompleteLines(Concat(response.chunks))| ==>
               Skipped(CompleteLines(Concat(response.chunks))[i], parse)
    ensures UploadOutcome(jobs, jobId, filename, response, parse)[jobId] == NewJob(jobId, filename)
  {
    SkippedLinesChangeNothing(Added(jobs, NewJob(jobId, filename)), jobId, CompleteLines(Concat(response.chunks)), parse);
  }
}
