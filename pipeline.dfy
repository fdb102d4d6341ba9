/** The server's record stream read by the client: what the job registry
    shows once the body that `POST` writes has gone through the decoder of
    `startUpload`. `stringify` stands for `JSON.stringify` on a record and
    `parse` for `JSON.parse` read back as an event; `Faithful` states what
    the two are assumed to satisfy. */
module Pipeline {
  import opened Wrappers
  import opened Text
  import opened UploadStore
  import opened ProgressDecoder
  import Route = UploadRoute

  /** What the client reads from a record: its `stage`, and its `message`
      where the record has one. */
  function EventOf(r: Route.Record): Event
  {
    match r
    case Start(m) => Event("start", Some(m))
    case Uploaded(_) => Event("uploaded", None)
    case Extracting(m) => Event("extracting", Some(m))
    case InsertDocument(m) => Event("insert_document", Some(m))
    case Splitting(m) => Event("splitting", Some(m))
    case Embedding(m) => Event("embedding", Some(m))
    case InsertingChunks(m) => Event("inserting_chunks", Some(m))
    case Done(_) => Event("done", None)
    case Error(m) => Event("error", Some(m))
  }

  /** A serialised record is one non-blank line without a raw newline, and
      parsing it gives back its stage and message. */
  ghost predicate Faithful(stringify: Route.Record -> string, parse: string -> Option<Event>)
  {
    forall r :: '\n' !in stringify(r) && !IsBlank(stringify(r)) && parse(stringify(r)) == Some(EventOf(r))
  }

  /** The registry after the client has handled the records in order. */
  function Replay(jobs: map<string, Job>, id: string, rs: seq<Route.Record>): map<string, Job>
  {
    if rs == [] then jobs
    else ApplyTransition(Replay(jobs, id, DropLast(rs)), id, TransitionOf(EventOf(Last(rs))))
  }

  /** Reading the serialised lines is replaying the records. */
  lemma {:induction false} LinesReplay(jobs: map<string, Job>, id: string, rs: seq<Route.Record>,
                                       stringify: Route.Record -> string, parse: string -> Option<Event>)
    requires Faithful(stringify, parse)
    ensures ApplyLines(jobs, id, Route.Lines(stringify, rs), parse) == Replay(jobs, id, rs)
  {
    if rs != [] {
      var lines := Route.Lines(stringify, rs);
      assert DropLast(lines) == Route.Lines(stringify, DropLast(rs));
      LinesReplay(jobs, id, DropLast(rs), stringify, parse);
      assert Last(lines) == stringify(Last(rs));
    }
  }

  /** However the network cuts the body, the client ends up where replaying
      the records leads. */
  lemma ClientSeesRecords(jobs: map<string, Job>, id: string, rs: seq<Route.Record>, chunks: seq<string>,
                          stringify: Route.Record -> string, parse: string -> Option<Event>)
    requires Faithful(stringify, parse)
    requires Concat(chunks) == Route.Frame(stringify, rs)
    ensures ApplyLines(jobs, id, CompleteLines(Concat(chunks)), parse) == Replay(jobs, id, rs)
    ensures Remainder(Concat(chunks)) == ""
  {
    Route.FramedRecords(stringify, rs);
    LinesReplay(jobs, id, rs, stringify, parse);
  }

  /** Progress after the first `k` records of a well-formed body, while no
      terminal record has been read: `start` leaves it at 0, and each later
      stage sets its own value. */
  function Level(k: nat): (p: int)
    ensures 0 <= p <= 90
  {
    if k < 8 then [0, 0, 20, 40, 55, 65, 80, 90][k] else 90
  }

  lemma LevelMonotone(i: nat, j: nat)
    requires i <= j
    ensures Level(i) <= Level(j)
  {
  }

  /** The transition each record causes on the client. */
  lemma RecordTransition(r: Route.Record)
    ensures r.Start? ==> TransitionOf(EventOf(r)) == Ignore
    ensures !r.Start? && !Route.IsTerminal(r) ==> TransitionOf(EventOf(r)) == Update(StagePatch(Route.Rank(r) - 1))
    ensures r.Done? ==> TransitionOf(EventOf(r)) == Complete
    ensures r.Error? ==> TransitionOf(EventOf(r)) == FailWith(ErrorMessage(Some(r.message)))
  {
    var e := EventOf(r);
    if !r.Start? && !Route.IsTerminal(r) {
      assert e.stage == UpdateStages[Route.Rank(r) - 1];
    }
  }

  /** The job a new upload registers, before any record arrives. */
  function Registered(jobs: map<string, Job>, id: string, filename: string): map<string, Job>
  {
    Added(jobs, NewJob(id, filename))
  }

  /** What the client shows for the job at a stage `k` of a body that has
      not ended: its id and file name, `Level(k)`, and the status. */
  function Showing(id: string, filename: string, k: nat): Job
  {
    Job(Some(id), Some(filename), Some(Level(k)), Some(if k <= 1 then Uploading else Processing), None)
  }

  /** Replaying one more record. */
  lemma ReplaySnoc(jobs: map<string, Job>, id: string, rs: seq<Route.Record>, k: nat)
    requires 0 < k <= |rs|
    ensures Replay(jobs, id, rs[..k]) ==
      ApplyTransition(Replay(jobs, id, rs[..k - 1]), id, TransitionOf(EventOf(rs[k - 1])))
  {
    assert DropLast(rs[..k]) == rs[..k - 1];
    assert Last(rs[..k]) == rs[k - 1];
  }

  /** The progress record of rank `k - 1` moves the job from stage `k - 1`
      to stage `k`. */
  lemma StageAdvance(jobs: map<string, Job>, id: string, filename: string, r: Route.Record, k: nat)
    requires 0 < k
    requires !Route.IsTerminal(r) && Route.Rank(r) == k - 1
    requires id in jobs && jobs[id] == Showing(id, filename, k - 1)
    ensures var after := ApplyTransition(jobs, id, TransitionOf(EventOf(r)));
      id in after && after[id] == Showing(id, filename, k)
  {
    RecordTransition(r);
  }

  /** Along a well-formed body the job carries its id and file name, and
      its progress is `Level(k)` after `k` progress records: 0, 0, 20, 40,
      55, 65, 80, 90. The status is uploading until `uploaded` arrives and
      processing after it. */
  lemma {:induction false} ProgressAlongStream(jobs: map<string, Job>, id: string, filename: string,
                                               rs: seq<Route.Record>, k: nat)
    requires Route.WellFormed(rs)
    requires k < |rs|
    ensures id in Replay(Registered(jobs, id, filename), id, rs[..k])
    ensures Replay(Registered(jobs, id, filename), id, rs[..k])[id] == Showing(id, filename, k)
  {
    if k == 0 {
      assert rs[..0] == [];
    } else {
      ProgressAlongStream(jobs, id, filename, rs, k - 1);
      ReplaySnoc(Registered(jobs, id, filename), id, rs, k);
      StageAdvance(Replay(Registered(jobs, id, filename), id, rs[..k - 1]), id, filename, rs[k - 1], k);
    }
  }

  /** The end of a well-formed body: `done` completes the job at 100%, and
      `error` fails it with the record's message and keeps the progress the
      last stage reached. */
  lemma {:induction false} StreamOutcome(jobs: map<string, Job>, id: string, filename: string, rs: seq<Route.Record>)
    requires Route.WellFormed(rs)
    ensures var job := Replay(Registered(jobs, id, filename), id, rs)[id];
      && job.id == Some(id) && job.filename == Some(filename)
      && (rs[|rs| - 1].Done? ==> job.status == Some(Done) && job.progress == Some(100) && job.error == None)
      && (rs[|rs| - 1].Error? ==>
            job.status == Some(Error) && job.error == Some(rs[|rs| - 1].message) &&
            job.progress == Some(Level(|rs| - 1)))
  {
    var n := |rs| - 1;
    ProgressAlongStream(jobs, id, filename, rs, n);
    assert DropLast(rs) == rs[..n];
    assert Last(rs) == rs[n];
    RecordTransition(rs[n]);
  }

  /** The job as the client shows it after the first `k` records. */
  function ShownAfter(jobs: map<string, Job>, id: string, filename: string, rs: seq<Route.Record>, k: nat): Job
    requires k <= |rs|
  {
    Lookup(Replay(Registered(jobs, id, filename), id, rs[..k]), id)
  }

  /** The progress after each prefix of a well-formed body: `Level(k)`
      before the terminal record, then 100 after `done` or the last level
      after `error`. */
  lemma ProgressAt(jobs: map<string, Job>, id: string, filename: string, rs: seq<Route.Record>, k: nat)
    requires Route.WellFormed(rs)
    requires k <= |rs|
    ensures ShownAfter(jobs, id, filename, rs, k).progress ==
      Some(if k < |rs| then Level(k) else if rs[|rs| - 1].Done? then 100 else Level(|rs| - 1))
  {
    if k < |rs| {
      ProgressAlongStream(jobs, id, filename, rs, k);
    } else {
      assert rs[..k] == rs;
      StreamOutcome(jobs, id, filename, rs);
    }
  }

  /** The progress the client shows never goes back along a well-formed
      body, from the job's registration to the terminal record. */
  lemma ProgressNonDecreasing(jobs: map<string, Job>, id: string, filename: string,
                              rs: seq<Route.Record>, i: nat, j: nat)
    requires Route.WellFormed(rs)
    requires i <= j <= |rs|
    ensures ShownAfter(jobs, id, filename, rs, i).progress.Some?
    ensures ShownAfter(jobs, id, filename, rs, j).progress.Some?
    ensures ShownAfter(jobs, id, filename, rs, i).progress.value
         <= ShownAfter(jobs, id, filename, rs, j).progress.value
  {
    ProgressAt(jobs, id, filename, rs, i);
    ProgressAt(jobs, id, filename, rs, j);
    if j < |rs| {
      LevelMonotone(i, j);
    } else if i < |rs| {
      LevelMonotone(i, |rs| - 1);
    }
  }

  /** A well-formed body, however the network cuts it: the client ends with
      the job done at 100% after `done`, and failed with the message after
      `error`. */
  lemma ReadWellFormedBody(jobs: map<string, Job>, jobId: string, filename: string, status: nat,
                           rs: seq<Route.Record>, chunks: seq<string>,
                           stringify: Route.Record -> string, parse: string -> Option<Event>)
    requires Faithful(stringify, parse)
    requires Route.WellFormed(rs)
    requires Concat(chunks) == Route.Frame(stringify, rs)
    ensures var job := UploadOutcome(jobs, jobId, filename, Replied(true, true, status, chunks, None), parse)[jobId];
      && (rs[|rs| - 1].Done? ==> job.status == Some(Done) && job.progress == Some(100))
      && (rs[|rs| - 1].Error? ==> job.status == Some(Error) && job.error == Some(rs[|rs| - 1].message))
  {
    ClientSeesRecords(Registered(jobs, jobId, filename), jobId, rs, chunks, stringify, parse);
    StreamOutcome(jobs, jobId, filename, rs);
  }

  /** For every outcome of the route's external steps: the client ends with
      the job done at 100% when the body ends in `done`, and failed with the
      error's message when it ends in `error`. */
  lemma EndToEnd(jobs: map<string, Job>, jobId: string, filename: string, status: nat,
                 config: Route.Config, svc: Route.Services, docId: string, chunks: seq<string>,
                 stringify: Route.Record -> string, parse: string -> Option<Event>)
    requires Faithful(stringify, parse)
    requires Concat(chunks) == Route.Frame(stringify, Route.Body(config, svc, docId))
    ensures var rs := Route.Body(config, svc, docId);
      var job := UploadOutcome(jobs, jobId, filename, Replied(true, true, status, chunks, None), parse)[jobId];
      && (rs[|rs| - 1].Done? ==> job.status == Some(Done) && job.progress == Some(100))
      && (rs[|rs| - 1].Error? ==> job.status == Some(Error) && job.error == Some(rs[|rs| - 1].message))
  {
    Route.BodyWellFormed(config, svc, docId);
    ReadWellFormedBody(jobs, jobId, filename, status, Route.Body(config, svc, docId), chunks, stringify, parse);
  }
}
