/** `POST /blogpost` (`blogpost_handler.rs`): walks the multipart fields of one request,
    saves the images, and either persists one post or answers an error, deleting the
    images it still holds on most failure exits. */
module BlogpostHandler {
  import opened Common
  import opened Models
  import opened ImageService
  import BlogpostService

  /** One multipart part; `name` is `None` when the part has no content disposition or
      no name in it. `chunks` are the results of reading the part's body. */
  datatype Field = Field(name: Option<string>, chunks: seq<ChunkResult>)

  /** One result of `payload.try_next()`: a part, or an error of the multipart stream. */
  datatype Event = Part(field: Field) | StreamError

  /** How the persistence stage goes: `pool.get()` fails, `web::block` fails, the insert
      fails, or the row is inserted. */
  datatype DbOutcome = PoolError | BlockingError | InsertError | Inserted

  /** The HTTP answer: status code, and whether the connection is force-closed. */
  datatype Response = Response(status: int, forceClose: bool)

  /** Every `return` of the handler. */
  datatype Exit =
    | NoFieldName       // part without content disposition or name
    | DataReadError     // reading the `data` part failed
    | DataEmpty         // the `data` part has no chunk
    | DataTooLarge      // the `data` chunk exceeds MAX_DATA_SIZE
    | DataMalformed     // the `data` chunk is not a valid payload
    | SaveError         // `save_image` returned an error
    | ImageTooLarge     // `save_image` reported an oversized image
    | UnknownField      // a part with any other name
    | DataMissing       // the stream ended without a `data` part
    | PoolUnavailable   // no database connection
    | BlockingFailed    // the blocking task failed
    | InsertFailed      // the insert failed
    | Created           // the post was persisted
    | ImageWrongFormat  // never produced by the handler above: only the corrected image arm
                        // (`IntendedImageStep`) returns it; it answers 400 with force-close and
                        // clears the held files, like the other in-loop returns
  {
    /** Returns from inside the field loop. */
    predicate InFieldLoop()
    {
      !(DataMissing? || PoolUnavailable? || BlockingFailed? || InsertFailed? || Created?)
    }

    /** Exits that call `clear_files` before answering. */
    predicate ClearsFiles()
    {
      !(DataTooLarge? || UnknownField? || Created?)
    }

    function Status(): int
    {
      match this
      case Created => 201
      case DataTooLarge | ImageTooLarge => 413
      case DataReadError | SaveError | PoolUnavailable | BlockingFailed | InsertFailed => 500
      case _ => 400
    }
  }

  /** The response of an exit: every return inside the loop force-closes the connection,
      the returns after it do not. */
  function Respond(exit: Exit): (r: Response)
    ensures r.forceClose <==> exit.InFieldLoop()
    ensures r.status == 201 <==> exit.Created?
    ensures r.status == 413 <==> exit.DataTooLarge? || exit.ImageTooLarge?
    ensures r.status == 500 <==> exit.DataReadError? || exit.SaveError? || exit.PoolUnavailable?
                                 || exit.BlockingFailed? || exit.InsertFailed?
    ensures r.status == 201 || r.status == 400 || r.status == 413 || r.status == 500
  {
    Response(exit.Status(), exit.InFieldLoop())
  }

  // ---- The handler as a function of its inputs ----

  /** `data_payload`, `avatar_uuid`, `post_image_uuid`. */
  datatype Ingestion = Ingestion(data: Option<BlogPostDto>, avatar: Option<string>, image: Option<string>)

  /** The loop's state: held values, the image store, and how many ids were drawn. */
  datatype Progress = Progress(held: Ingestion, files: map<string, seq<byte>>, used: nat)

  /** The environment of one request: the JSON decoder, the disk's failing calls and the
      ids `Uuid::new_v4` hands out, in order. */
  datatype Env = Env(parse: seq<byte> -> Option<BlogPostDto>, faults: set<IoStep>, uuids: seq<string>)

  datatype Step = Continue(p: Progress) | Stop(exit: Exit, p: Progress)

  datatype LoopEnd = Stopped(exit: Exit, p: Progress) | Ended(p: Progress)

  /** The handler's result: response, exit, the handles held at the exit, the store and the table. */
  datatype Handled = Handled(response: Response, exit: Exit, held: Ingestion,
                             filesAtExit: map<string, seq<byte>>,
                             files: map<string, seq<byte>>, rows: seq<BlogPost>)

  function Initial(files: map<string, seq<byte>>): Progress
  {
    Progress(Ingestion(None, None, None), files, 0)
  }

  function NewId(env: Env, used: nat): string
  {
    if used < |env.uuids| then env.uuids[used] else ""
  }

  /** Whether the handler keeps a saved image's handle: it reads only `too_large`. */
  predicate KeepsImage(v: SaveVerdict)
  {
    v.Finished? && !v.tooLarge
  }

  /** The `data` arm: only the first chunk is read. */
  function DataStep(chunks: seq<ChunkResult>, p: Progress, env: Env): Step
  {
    if chunks == [] then Stop(DataEmpty, p)
    else match chunks[0]
      case ChunkError => Stop(DataReadError, p)
      case Chunk(b) =>
        if |b| > MAX_DATA_SIZE then Stop(DataTooLarge, p)
        else match env.parse(b)
          case None => Stop(DataMalformed, p)
          case Some(dto) => Continue(p.(held := p.held.(data := Some(dto))))
  }

  /** The `avatar` and `image` arms. */
  function ImageStep(isAvatar: bool, chunks: seq<ChunkResult>, p: Progress, env: Env): Step
  {
    var id := NewId(env, p.used);
    var e := SaveSpec(chunks, env.faults);
    var q := p.(files := Placed(p.files, id, e.file), used := p.used + 1);
    if e.verdict.Failed? then Stop(SaveError, q)
    else if !KeepsImage(e.verdict) then Stop(ImageTooLarge, q)
    else if isAvatar then Continue(q.(held := q.held.(avatar := Some(id))))
    else Continue(q.(held := q.held.(image := Some(id))))
  }

  /** The body of the field loop: dispatch on the part's name. */
  function FieldStep(f: Field, p: Progress, env: Env): Step
  {
    match f.name
    case None => Stop(NoFieldName, p)
    case Some(n) =>
      if n == "data" then DataStep(f.chunks, p, env)
      else if n == "avatar" then ImageStep(true, f.chunks, p, env)
      else if n == "image" then ImageStep(false, f.chunks, p, env)
      else Stop(UnknownField, p)
  }

  /** `while let Ok(Some(field)) = payload.try_next()`: a stream error ends the loop as the
      end of the stream does. */
  function Run(events: seq<Event>, p: Progress, env: Env): LoopEnd
    decreases |events|
  {
    if events == [] then Ended(p)
    else match events[0]
      case StreamError => Ended(p)
      case Part(f) =>
        match FieldStep(f, p, env)
        case Stop(x, q) => Stopped(x, q)
        case Continue(q) => Run(events[1..], q, env)
  }

  /** `clear_files`: deletes the avatar's file if held, then the image's; failures are dropped. */
  function Cleared(files: map<string, seq<byte>>, avatar: Option<string>, image: Option<string>, faults: set<IoStep>): map<string, seq<byte>>
  {
    var afterAvatar := if avatar.Some? then Deleted(files, avatar.value, faults) else files;
    if image.Some? then Deleted(afterAvatar, image.value, faults) else afterAvatar
  }

  function HandleSet(avatar: Option<string>, image: Option<string>): set<string>
  {
    (if avatar.Some? then {avatar.value} else {}) + (if image.Some? then {image.value} else {})
  }

  /** The store once a step is over: a stopping step clears the held files when its exit does. */
  function StepFiles(s: Step, faults: set<IoStep>): map<string, seq<byte>>
  {
    match s
    case Continue(q) => q.files
    case Stop(x, q) => if x.ClearsFiles() then Cleared(q.files, q.held.avatar, q.held.image, faults) else q.files
  }

  /** Answers `x` from state `p`, clearing files where the source does. */
  function Finish(x: Exit, p: Progress, rows: seq<BlogPost>, faults: set<IoStep>): Handled
  {
    Handled(Respond(x), x, p.held, p.files, StepFiles(Stop(x, p), faults), rows)
  }

  /** The whole handler. */
  function Handle(request: seq<Event>, files: map<string, seq<byte>>, rows: seq<BlogPost>, env: Env, db: DbOutcome): Handled
  {
    match Run(request, Initial(files), env)
    case Stopped(x, q) => Finish(x, q, rows, env.faults)
    case Ended(q) =>
      if q.held.data.None? then Finish(DataMissing, q, rows, env.faults)
      else match db
        case PoolError => Finish(PoolUnavailable, q, rows, env.faults)
        case BlockingError => Finish(BlockingFailed, q, rows, env.faults)
        case InsertError => Finish(InsertFailed, q, rows, env.faults)
        case Inserted =>
          Handled(Respond(Created), Created, q.held, q.files, q.files,
                  rows + [Record(q.held.data.value, q.held.avatar, q.held.image)])
  }

  /** `Uuid::new_v4` never repeats an id and never returns one already in the store. */
  predicate FreshIds(uuids: seq<string>, files: map<string, seq<byte>>)
  {
    && (forall j :: 0 <= j < |uuids| ==> uuids[j] !in files)
    && (forall j, k :: 0 <= j < k < |uuids| ==> uuids[j] != uuids[k])
  }

  /** One turn of the field loop. */
  lemma RunStep(events: seq<Event>, i: nat, p: Progress, env: Env)
    requires i < |events| && events[i].Part?
    ensures Run(events[i..], p, env) == match FieldStep(events[i].field, p, env)
      case Stop(x, q) => Stopped(x, q)
      case Continue(q) => Run(events[i + 1..], q, env)
  {
    assert events[i..][0] == events[i] && events[i..][1..] == events[i + 1..];
  }

  /** The handler's result when the loop stopped at `x` in state `q`. */
  lemma HandleStopped(request: seq<Event>, files: map<string, seq<byte>>, rows: seq<BlogPost>, env: Env, db: DbOutcome, x: Exit, q: Progress)
    requires Run(request, Initial(files), env) == Stopped(x, q)
    ensures Handle(request, files, rows, env, db) == Finish(x, q, rows, env.faults)
  {
  }

  // ---- The handler as the source writes it ----

  /** `clear_files`. */
  method ClearFiles(store: ImageStore, avatar: Option<string>, image: Option<string>)
    modifies store
    ensures store.files == Cleared(old(store.files), avatar, image, store.faults)
  {
    if avatar.Some? {
      var res := store.Delete(avatar.value);
    }
    if image.Some? {
      var res := store.Delete(image.value);
    }
  }

  /** The connection between a step function and the arm that runs it. */
  ghost predicate ArmDid(s: Step, stop: Option<Exit>, held: Ingestion, files: map<string, seq<byte>>, used: nat, faults: set<IoStep>)
  {
    && (stop.Some? <==> s.Stop?)
    && (s.Stop? ==> stop.value == s.exit)
    && files == StepFiles(s, faults)
    && (s.Continue? ==> s.p == Progress(held, files, used))
  }

  /** The `data` arm (only its first chunk is read). */
  method DataArm(chunks: seq<ChunkResult>, parse: seq<byte> -> Option<BlogPostDto>, store: ImageStore,
                 held: Ingestion, ghost used: nat, ghost uuids: seq<string>)
    returns (stop: Option<Exit>, next: Ingestion)
    modifies store
    ensures ArmDid(DataStep(chunks, Progress(held, old(store.files), used), Env(parse, store.faults, uuids)),
                   stop, next, store.files, used, store.faults)
  {
    next := held;
    if |chunks| == 0 {
      ClearFiles(store, held.avatar, held.image);
      return Some(DataEmpty), next;
    }
    if chunks[0].ChunkError? {
      ClearFiles(store, held.avatar, held.image);
      return Some(DataReadError), next;
    }
    var bytes := chunks[0].bytes;
    if |bytes| > MAX_DATA_SIZE {
      return Some(DataTooLarge), next;
    }
    var decoded := parse(bytes);
    if decoded.None? {
      ClearFiles(store, held.avatar, held.image);
      return Some(DataMalformed), next;
    }
    next := held.(data := decoded);
    return None, next;
  }

  /** The `avatar` and `image` arms. */
  method ImageArm(isAvatar: bool, chunks: seq<ChunkResult>, store: ImageStore,
                  held: Ingestion, used: nat, uuids: seq<string>, ghost parse: seq<byte> -> Option<BlogPostDto>)
    returns (stop: Option<Exit>, next: Ingestion)
    requires used < |uuids| && uuids[used] !in store.files
    modifies store
    ensures ArmDid(ImageStep(isAvatar, chunks, Progress(held, old(store.files), used), Env(parse, store.faults, uuids)),
                   stop, next, store.files, used + 1, store.faults)
  {
    next := held;
    var saved := store.Save(uuids[used], chunks);
    if saved.Err? {
      ClearFiles(store, held.avatar, held.image);
      return Some(SaveError), next;
    }
    if saved.value.tooLarge {
      ClearFiles(store, held.avatar, held.image);
      return Some(ImageTooLarge), next;
    }
    if isAvatar {
      next := held.(avatar := Some(saved.value.id));
    } else {
      next := held.(image := Some(saved.value.id));
    }
    return None, next;
  }

  /** The body of the field loop: dispatch on the part's name. */
  method FieldArm(field: Field, parse: seq<byte> -> Option<BlogPostDto>, store: ImageStore,
                  held: Ingestion, used: nat, uuids: seq<string>)
    returns (stop: Option<Exit>, next: Ingestion, nextUsed: nat)
    requires used < |uuids| && uuids[used] !in store.files
    modifies store
    ensures nextUsed == used || nextUsed == used + 1
    ensures ArmDid(FieldStep(field, Progress(held, old(store.files), used), Env(parse, store.faults, uuids)),
                   stop, next, store.files, nextUsed, store.faults)
    ensures store.files.Keys <= old(store.files).Keys + {uuids[used]}
    ensures nextUsed == used ==> store.files.Keys <= old(store.files).Keys
  {
    nextUsed := used;
    if field.name.None? {
      ClearFiles(store, held.avatar, held.image);
      return Some(NoFieldName), held, nextUsed;
    }
    var name := field.name.value;
    if name == "data" {
      stop, next := DataArm(field.chunks, parse, store, held, used, uuids);
    } else if name == "avatar" || name == "image" {
      stop, next := ImageArm(name == "avatar", field.chunks, store, held, used, uuids, parse);
      nextUsed := used + 1;
    } else {
      return Some(UnknownField), held, nextUsed;
    }
  }

  /** `create_blogpost`. */
  method CreateBlogpost(request: seq<Event>, store: ImageStore, table: BlogpostService.PostTable,
                        parse: seq<byte> -> Option<BlogPostDto>, uuids: seq<string>, db: DbOutcome)
    returns (resp: Response, ghost exit: Exit)
    requires FreshIds(uuids, store.files) && |uuids| >= |request|
    modifies store, table
    ensures var h := Handle(request, old(store.files), old(table.rows), Env(parse, store.faults, uuids), db);
      resp == h.response && exit == h.exit && store.files == h.files && table.rows == h.rows
  {
    ghost var env := Env(parse, store.faults, uuids);
    ghost var start := Initial(store.files);
    ghost var rows0 := table.rows;
    var held := Ingestion(None, None, None);
    var used := 0;
    var i := 0;
    while i < |request| && request[i].Part?
      invariant 0 <= used <= i <= |request|
      invariant forall j :: used <= j < |uuids| ==> uuids[j] !in store.files
      invariant table.rows == rows0 && store.faults == env.faults
      invariant Run(request, start, env) == Run(request[i..], Progress(held, store.files, used), env)
    {
      ghost var cur := Progress(held, store.files, used);
      RunStep(request, i, cur, env);
      var stop, next, nextUsed := FieldArm(request[i].field, parse, store, held, used, uuids);
      if stop.Some? {
        ghost var s := FieldStep(request[i].field, cur, env);
        HandleStopped(request, old(store.files), rows0, env, db, stop.value, s.p);
        return Respond(stop.value), stop.value;
      }
      held, used := next, nextUsed;
      i := i + 1;
    }
    ghost var last := Progress(held, store.files, used);
    assert Run(request[i..], last, env) == Ended(last);
    assert Run(request, start, env) == Ended(last);

    // post data cannot be missing
    if held.data.None? {
      ClearFiles(store, held.avatar, held.image);
      return Respond(DataMissing), DataMissing;
    }
    match db {
      case PoolError =>
        ClearFiles(store, held.avatar, held.image);
        return Respond(PoolUnavailable), PoolUnavailable;
      case BlockingError =>
        ClearFiles(store, held.avatar, held.image);
        return Respond(BlockingFailed), BlockingFailed;
      case InsertError =>
        ClearFiles(store, held.avatar, held.image);
        return Respond(InsertFailed), InsertFailed;
      case Inserted =>
        var inserted := table.CreateBlogpost(Record(held.data.value, held.avatar, held.image));
        return Respond(Created), Created;
    }
  }
}

/** What the ingestion handler guarantees, and where it falls short of its own comment. */
module BlogpostHandlerProperties {
  import opened Common
  import opened Models
  import opened ImageService
  import opened BlogpostHandler
  import Png

  // ---- The field loop ----

  /** A stream-level read error ends the loop exactly as the end of the stream does:
      nothing after it is looked at. */
  lemma {:induction false} StreamErrorEndsLoop(prefix: seq<Event>, rest: seq<Event>, p: Progress, env: Env)
    ensures Run(prefix + [StreamError] + rest, p, env) == Run(prefix, p, env)
    decreases |prefix|
  {
    var events := prefix + [StreamError] + rest;
    if prefix == [] {
      assert events[0] == StreamError;
    } else {
      assert events[0] == prefix[0];
      assert events[1..] == prefix[1..] + [StreamError] + rest;
      if prefix[0].Part? {
        match FieldStep(prefix[0].field, p, env)
        case Stop(x, q) =>
        case Continue(q) => StreamErrorEndsLoop(prefix[1..], rest, q, env);
      }
    }
  }

  /** So the whole request is answered as if the stream had ended before the error. */
  lemma StreamErrorActsAsEnd(prefix: seq<Event>, rest: seq<Event>, files: map<string, seq<byte>>,
                             rows: seq<BlogPost>, env: Env, db: DbOutcome)
    ensures Handle(prefix + [StreamError] + rest, files, rows, env, db) == Handle(prefix, files, rows, env, db)
  {
    StreamErrorEndsLoop(prefix, rest, Initial(files), env);
  }

  lemma {:induction false} StoppedInsideLoop(events: seq<Event>, p: Progress, env: Env)
    requires Run(events, p, env).Stopped?
    ensures Run(events, p, env).exit.InFieldLoop()
    decreases |events|
  {
    if events[0].Part? && FieldStep(events[0].field, p, env).Continue? {
      StoppedInsideLoop(events[1..], FieldStep(events[0].field, p, env).p, env);
    }
  }

  /** Exactly the returns from inside the field loop force-close the connection;
      the returns after the loop (missing data, database failures, success) do not. */
  lemma ForceCloseExactlyInLoop(request: seq<Event>, files: map<string, seq<byte>>,
                                rows: seq<BlogPost>, env: Env, db: DbOutcome)
    ensures Handle(request, files, rows, env, db).response.forceClose
            <==> Run(request, Initial(files), env).Stopped?
  {
    if Run(request, Initial(files), env).Stopped? {
      StoppedInsideLoop(request, Initial(files), env);
    }
  }

  // ---- The data part ----

  /** Only the first chunk of a `data` part is read: whatever follows it changes nothing. */
  lemma OnlyFirstDataChunkMatters(chunks: seq<ChunkResult>, p: Progress, env: Env)
    requires chunks != []
    ensures DataStep(chunks, p, env) == DataStep([chunks[0]], p, env)
  {
  }

  /** A `data` part is accepted exactly when its first chunk was read, is at most
      `MAX_DATA_SIZE` bytes long (a longer one gets 413) and decodes; then the payload
      is held and nothing else changes. A part without chunks stops with `DataEmpty` (400),
      a failed first read with `DataReadError` (500) and a payload that does not decode with
      `DataMalformed` (400); no stop changes the state. */
  lemma DataPartRules(chunks: seq<ChunkResult>, p: Progress, env: Env)
    ensures DataStep(chunks, p, env).Continue? <==>
      chunks != [] && chunks[0].Chunk? && |chunks[0].bytes| <= MAX_DATA_SIZE && env.parse(chunks[0].bytes).Some?
    ensures DataStep(chunks, p, env).Continue? ==>
      DataStep(chunks, p, env).p == p.(held := p.held.(data := env.parse(chunks[0].bytes)))
    ensures DataStep(chunks, p, env) == Stop(DataTooLarge, p) <==>
      chunks != [] && chunks[0].Chunk? && |chunks[0].bytes| > MAX_DATA_SIZE
    ensures chunks == [] ==> DataStep(chunks, p, env) == Stop(DataEmpty, p)
    ensures chunks != [] && chunks[0].ChunkError? ==> DataStep(chunks, p, env) == Stop(DataReadError, p)
    ensures chunks != [] && chunks[0].Chunk? && |chunks[0].bytes| <= MAX_DATA_SIZE && env.parse(chunks[0].bytes).None?
            ==> DataStep(chunks, p, env) == Stop(DataMalformed, p)
    ensures DataStep(chunks, p, env).Stop? ==> DataStep(chunks, p, env).p == p
  {
  }

  // ---- The image parts ----

  /** An `avatar` or `image` part draws the next id and saves under it. A save error stops
      with `SaveError` (500); a "too large" report stops with `ImageTooLarge` (413) and no
      file under the drawn id. Both leave the held handles as they were; otherwise
      the drawn id becomes the avatar's (or the image's) handle — replacing any earlier one,
      whatever the format check said. */
  lemma ImagePartRules(isAvatar: bool, chunks: seq<ChunkResult>, p: Progress, env: Env)
    ensures var s := ImageStep(isAvatar, chunks, p, env);
      var e := SaveSpec(chunks, env.faults);
      && s.p.used == p.used + 1
      && s.p.files == Placed(p.files, NewId(env, p.used), e.file)
      && (s.Stop? <==> e.verdict.Failed? || e.verdict.tooLarge)
      && (s.Stop? ==> s.p.held == p.held)
      && (e.verdict.Failed? ==> s.exit == SaveError)
      && (e.verdict.Finished? && e.verdict.tooLarge ==> s.exit == ImageTooLarge && NewId(env, p.used) !in s.p.files)
      && (s.Continue? && isAvatar ==> s.p.held == p.held.(avatar := Some(NewId(env, p.used))))
      && (s.Continue? && !isAvatar ==> s.p.held == p.held.(image := Some(NewId(env, p.used))))
  {
    LoopLeavesFileUnlessOversized(chunks, [], 0, false, env.faults);
  }

  /** A prefix of parts the loop ran through without stopping can be cut off: the loop
      goes on with the rest from the state the prefix left. */
  lemma {:induction false} RunAppend(prefix: seq<Event>, tail: seq<Event>, p: Progress, env: Env)
    requires forall k :: 0 <= k < |prefix| ==> prefix[k].Part?
    requires Run(prefix, p, env).Ended?
    ensures Run(prefix + tail, p, env) == Run(tail, Run(prefix, p, env).p, env)
    decreases |prefix|
  {
    if prefix == [] {
      assert prefix + tail == tail;
    } else {
      var events := prefix + tail;
      assert events[0] == prefix[0] && events[1..] == prefix[1..] + tail;
      var s := FieldStep(prefix[0].field, p, env);
      forall k | 0 <= k < |prefix[1..]| ensures prefix[1..][k].Part? {
        assert prefix[1..][k] == prefix[k + 1];
      }
      RunAppend(prefix[1..], tail, s.p, env);
    }
  }

  /** An image over the size limit (whose first chunk is itself over the limit or carries
      the signature, so that the size check decides), reached after any parts that did not
      stop the loop, is answered 413 with force-close on a healthy disk: the upload's file
      is gone, the held handles are cleared and no post is created. */
  lemma OversizedImageRejected(prefix: seq<Event>, f: Field, rest: seq<Event>, files: map<string, seq<byte>>,
                               rows: seq<BlogPost>, env: Env, db: DbOutcome)
    requires env.faults == {}
    requires forall k :: 0 <= k < |prefix| ==> prefix[k].Part?
    requires Run(prefix, Initial(files), env).Ended?
    requires f.name == Some("avatar") || f.name == Some("image")
    requires AllRead(f.chunks) && f.chunks != [] && |Payload(f.chunks)| > MAX_IMAGE_SIZE
    requires |f.chunks[0].bytes| > MAX_IMAGE_SIZE || Png.HasSignature(f.chunks[0].bytes)
    ensures var h := Handle(prefix + [Part(f)] + rest, files, rows, env, db);
      var q := Run(prefix, Initial(files), env).p;
      && h.exit == ImageTooLarge && h.response == Response(413, true)
      && NewId(env, q.used) !in h.files
      && h.files == q.files - {NewId(env, q.used)} - HandleSet(q.held.avatar, q.held.image)
      && (q.held.avatar.Some? ==> q.held.avatar.value !in h.files)
      && (q.held.image.Some? ==> q.held.image.value !in h.files)
      && h.rows == rows
  {
    var q := Run(prefix, Initial(files), env).p;
    var tail := [Part(f)] + rest;
    assert prefix + [Part(f)] + rest == prefix + tail;
    RunAppend(prefix, tail, Initial(files), env);
    assert tail[0] == Part(f);
    SaveOutcomes(f.chunks);
    var id := NewId(env, q.used);
    var q2 := q.(files := q.files - {id}, used := q.used + 1);
    assert FieldStep(f, q, env) == Stop(ImageTooLarge, q2);
    assert Run(prefix + [Part(f)] + rest, Initial(files), env) == Stopped(ImageTooLarge, q2);
    FinishClears(ImageTooLarge, q2, rows, env.faults);
  }

  // ---- Which files survive ----

  /** `clear_files` removes the avatar's file exactly when an avatar handle is held and the
      image's exactly when an image handle is held (and removal works); every other entry
      stays as it was, and a failed removal only leaves the file in place. */
  lemma ClearedRemovesExactlyHandles(files: map<string, seq<byte>>, avatar: Option<string>, image: Option<string>,
                                     faults: set<IoStep>, k: string)
    ensures k in Cleared(files, avatar, image, faults)
        <==> k in files && !(k in HandleSet(avatar, image) && RemoveFile !in faults)
    ensures k in Cleared(files, avatar, image, faults) ==> Cleared(files, avatar, image, faults)[k] == files[k]
  {
  }

  predicate HeldIn(h: Option<string>, p: Progress, files0: map<string, seq<byte>>)
  {
    h.Some? ==> h.value in p.files && h.value !in files0
  }

  /** The loop's bookkeeping: files that existed before the request are untouched, ids not
      yet drawn are absent, and each held handle names a file the request created. */
  ghost predicate Sound(p: Progress, files0: map<string, seq<byte>>, env: Env)
  {
    && (forall k :: k in files0 ==> k in p.files && p.files[k] == files0[k])
    && (forall j :: p.used <= j < |env.uuids| ==> env.uuids[j] !in p.files)
    && HeldIn(p.held.avatar, p, files0) && HeldIn(p.held.image, p, files0)
  }

  lemma FieldStepSound(f: Field, p: Progress, files0: map<string, seq<byte>>, env: Env)
    requires Sound(p, files0, env) && FreshIds(env.uuids, files0) && p.used < |env.uuids|
    ensures Sound(FieldStep(f, p, env).p, files0, env)
    ensures FieldStep(f, p, env).p.used <= p.used + 1
  {
    if f.name.Some? && (f.name.value == "avatar" || f.name.value == "image") {
      var e := SaveSpec(f.chunks, env.faults);
      if e.verdict.Finished? && !e.verdict.tooLarge {
        KeptSaveLeavesFile(f.chunks, env.faults);
      }
    }
  }

  lemma {:induction false} RunSound(events: seq<Event>, p: Progress, files0: map<string, seq<byte>>, env: Env)
    requires Sound(p, files0, env) && FreshIds(env.uuids, files0) && p.used + |events| <= |env.uuids|
    ensures Sound(Run(events, p, env).p, files0, env)
    decreases |events|
  {
    if events != [] && events[0].Part? {
      FieldStepSound(events[0].field, p, files0, env);
      var s := FieldStep(events[0].field, p, env);
      if s.Continue? {
        RunSound(events[1..], s.p, files0, env);
      }
    }
  }

  /** The event is a part named `name`. */
  predicate IsUpload(e: Event, name: string)
  {
    e.Part? && e.field.name == Some(name)
  }

  /** A held handle names a file whose bytes are the stored form of some part named
      `name` among `seen`. */
  ghost predicate HoldsUpload(h: Option<string>, name: string, files: map<string, seq<byte>>, seen: seq<Event>, faults: set<IoStep>)
  {
    h.Some? ==>
      && h.value in files
      && exists i :: 0 <= i < |seen| && IsUpload(seen[i], name) && files[h.value] == StoredUpload(seen[i].field.chunks, faults)
  }

  lemma HoldsUploadGrows(h: Option<string>, name: string, files: map<string, seq<byte>>, seen: seq<Event>, more: seq<Event>, faults: set<IoStep>)
    requires HoldsUpload(h, name, files, seen, faults)
    ensures HoldsUpload(h, name, files, seen + more, faults)
  {
    if h.Some? {
      var i :| 0 <= i < |seen| && IsUpload(seen[i], name) && files[h.value] == StoredUpload(seen[i].field.chunks, faults);
      assert (seen + more)[i] == seen[i];
    }
  }

  /** Both handles of a state hold uploads from `seen`. */
  ghost predicate Uploads(p: Progress, seen: seq<Event>, faults: set<IoStep>)
  {
    HoldsUpload(p.held.avatar, "avatar", p.files, seen, faults) && HoldsUpload(p.held.image, "image", p.files, seen, faults)
  }

  lemma UploadsGrow(p: Progress, seen: seq<Event>, more: seq<Event>, faults: set<IoStep>)
    requires Uploads(p, seen, faults)
    ensures Uploads(p, seen + more, faults)
  {
    HoldsUploadGrows(p.held.avatar, "avatar", p.files, seen, more, faults);
    HoldsUploadGrows(p.held.image, "image", p.files, seen, more, faults);
  }

  /** A handle a step keeps holds the same file afterwards: the step only writes or removes
      the id it draws, which is not the held one. */
  lemma HeldFileSurvivesStep(h: Option<string>, name: string, f: Field, p: Progress, files0: map<string, seq<byte>>,
                             seen: seq<Event>, env: Env)
    requires Sound(p, files0, env) && p.used < |env.uuids|
    requires h == p.held.avatar || h == p.held.image
    requires HoldsUpload(h, name, p.files, seen, env.faults)
    ensures HoldsUpload(h, name, FieldStep(f, p, env).p.files, seen + [Part(f)], env.faults)
  {
    if h.Some? {
      var q := FieldStep(f, p, env).p;
      assert h.value != NewId(env, p.used);
      assert h.value in q.files && q.files[h.value] == p.files[h.value];
      HoldsUploadGrows(h, name, p.files, seen, [Part(f)], env.faults);
    }
  }

  /** One step keeps `Uploads`, the part just handled joining `seen`. */
  lemma FieldStepUploads(f: Field, p: Progress, files0: map<string, seq<byte>>, seen: seq<Event>, env: Env)
    requires Sound(p, files0, env) && p.used < |env.uuids|
    requires Uploads(p, seen, env.faults)
    ensures Uploads(FieldStep(f, p, env).p, seen + [Part(f)], env.faults)
  {
    var q := FieldStep(f, p, env).p;
    var seen' := seen + [Part(f)];
    HeldFileSurvivesStep(p.held.avatar, "avatar", f, p, files0, seen, env);
    HeldFileSurvivesStep(p.held.image, "image", f, p, files0, seen, env);
    if f.name == Some("avatar") || f.name == Some("image") {
      var e := SaveSpec(f.chunks, env.faults);
      if KeepsImage(e.verdict) {
        KeptSaveStoresUpload(f.chunks, env.faults);
        assert seen'[|seen|] == Part(f);
        assert IsUpload(seen'[|seen|], f.name.value);
      }
    }
  }

  lemma {:induction false} RunUploads(events: seq<Event>, p: Progress, files0: map<string, seq<byte>>, seen: seq<Event>, env: Env)
    requires Sound(p, files0, env) && FreshIds(env.uuids, files0) && p.used + |events| <= |env.uuids|
    requires Uploads(p, seen, env.faults)
    ensures Uploads(Run(events, p, env).p, seen + events, env.faults)
    decreases |events|
  {
    if events == [] || events[0].StreamError? {
      UploadsGrow(p, seen, events, env.faults);
    } else {
      var f := events[0].field;
      assert seen + events == (seen + [Part(f)]) + events[1..];
      FieldStepSound(f, p, files0, env);
      FieldStepUploads(f, p, files0, seen, env);
      var s := FieldStep(f, p, env);
      if s.Continue? {
        RunUploads(events[1..], s.p, files0, seen + [Part(f)], env);
      } else {
        UploadsGrow(s.p, seen + [Part(f)], events[1..], env.faults);
      }
    }
  }

  /** The bookkeeping holds wherever the loop ends, and the handler reports that state. */
  lemma HandleSound(request: seq<Event>, files: map<string, seq<byte>>, rows: seq<BlogPost>, env: Env, db: DbOutcome)
    requires FreshIds(env.uuids, files) && |env.uuids| >= |request|
    ensures var h := Handle(request, files, rows, env, db);
      var end := Run(request, Initial(files), env);
      && Sound(end.p, files, env)
      && h.held == end.p.held && h.filesAtExit == end.p.files
  {
    RunSound(request, Initial(files), files, env);
  }

  /** No request changes or removes a file that was in the store before it: deletions only
      ever hit ids this request drew. */
  lemma PreexistingFilesUntouched(request: seq<Event>, files: map<string, seq<byte>>, rows: seq<BlogPost>, env: Env, db: DbOutcome)
    requires FreshIds(env.uuids, files) && |env.uuids| >= |request|
    ensures var h := Handle(request, files, rows, env, db);
      forall k :: k in files ==> k in h.files && h.files[k] == files[k]
  {
    HandleSound(request, files, rows, env, db);
  }

  /** On every exit that calls `clear_files`, and on a disk where removal works, the files
      of both handles held at that moment are gone and nothing else was removed. */
  lemma FailureClearsHeldHandles(request: seq<Event>, files: map<string, seq<byte>>, rows: seq<BlogPost>, env: Env, db: DbOutcome)
    requires RemoveFile !in env.faults
    ensures var h := Handle(request, files, rows, env, db);
      h.exit.ClearsFiles() ==>
        && h.files == h.filesAtExit - HandleSet(h.held.avatar, h.held.image)
        && (h.held.avatar.Some? ==> h.held.avatar.value !in h.files)
        && (h.held.image.Some? ==> h.held.image.value !in h.files)
  {
    var end := Run(request, Initial(files), env);
    var h := Handle(request, files, rows, env, db);
    if h.exit.ClearsFiles() {
      assert h == Finish(h.exit, end.p, rows, env.faults);
      FinishClears(h.exit, end.p, rows, env.faults);
    }
  }

  /** One exit's cleanup on a disk where removal works. */
  lemma FinishClears(x: Exit, p: Progress, rows: seq<BlogPost>, faults: set<IoStep>)
    requires RemoveFile !in faults && x.ClearsFiles()
    ensures Finish(x, p, rows, faults).files == p.files - HandleSet(p.held.avatar, p.held.image)
  {
  }

  /** The two exits that skip `clear_files` (an oversized `data` part and an unknown part
      name) leave every saved file in place. */
  lemma SkippedCleanupKeepsFiles(request: seq<Event>, files: map<string, seq<byte>>, rows: seq<BlogPost>, env: Env, db: DbOutcome)
    ensures var h := Handle(request, files, rows, env, db);
      (h.exit == DataTooLarge || h.exit == UnknownField) ==> h.files == h.filesAtExit
  {
  }

  /** A post is created (201) exactly when the stream ended with a payload held and the
      insert went through; it is the payload with exactly the handles held then, and their
      files are in the store holding the bytes of an `avatar` (respectively `image`) part
      of the request: all of its chunks, or nothing when its first chunk failed the
      signature test. Every other outcome leaves the table as it was. */
  lemma CreatedExactlyWhenComplete(request: seq<Event>, files: map<string, seq<byte>>, rows: seq<BlogPost>, env: Env, db: DbOutcome)
    requires FreshIds(env.uuids, files) && |env.uuids| >= |request|
    ensures var h := Handle(request, files, rows, env, db);
      var end := Run(request, Initial(files), env);
      && (h.exit == Created <==> end.Ended? && end.p.held.data.Some? && db == Inserted)
      && (h.exit == Created ==>
            && h.response == Response(201, false)
            && h.rows == rows + [Record(h.held.data.value, h.held.avatar, h.held.image)]
            && (h.held.avatar.Some? ==> h.held.avatar.value in h.files)
            && (h.held.image.Some? ==> h.held.image.value in h.files)
            && HoldsUpload(h.held.avatar, "avatar", h.files, request, env.faults)
            && HoldsUpload(h.held.image, "image", h.files, request, env.faults))
      && (h.exit != Created ==> h.rows == rows)
  {
    HandleSound(request, files, rows, env, db);
    RunUploads(request, Initial(files), files, [], env);
    assert [] + request == request;
    var end := Run(request, Initial(files), env);
    if end.Stopped? {
      StoppedInsideLoop(request, Initial(files), env);
      assert Handle(request, files, rows, env, db) == Finish(end.exit, end.p, rows, env.faults);
    }
  }

  /** A request whose stream ends without a `data` part is answered 400, without
      force-closing, after clearing the saved images. */
  lemma MissingDataIsRejected(request: seq<Event>, files: map<string, seq<byte>>, rows: seq<BlogPost>, env: Env, db: DbOutcome)
    requires Run(request, Initial(files), env).Ended? && Run(request, Initial(files), env).p.held.data.None?
    ensures var h := Handle(request, files, rows, env, db);
      && h.exit == DataMissing && h.response == Response(400, false)
      && h.files == Cleared(h.filesAtExit, h.held.avatar, h.held.image, env.faults)
  {
  }
}

/** Concrete requests, and the two places where the handler departs from its own comment. */
module BlogpostHandlerScenarios {
  import opened Common
  import opened Models
  import opened ImageService
  import opened BlogpostHandler
  import BlogpostService
  import Png

  /** A part with the given name and one chunk. */
  function PartOf(name: string, bytes: seq<byte>): Event
  {
    Part(Field(Some(name), [Chunk(bytes)]))
  }

  const Ids: seq<string> := ["u0", "u1", "u2"]

  lemma SignatureSaves()
    ensures SaveSpec([Chunk(Png.Signature)], {}) == SaveEffect(Finished(false, true), Some(Png.Signature))
  {
    var c := [Chunk(Png.Signature)];
    assert c[1..] == [];
    assert FirstEight(Png.Signature) == Png.Signature;
    assert [] + Png.Signature == Png.Signature;
    assert SaveLoop(c[1..], Png.Signature, 8, true, {}) == SaveEffect(Finished(false, true), Some(Png.Signature));
  }

  /** Two-part requests: the loop runs the first part, then the second. */
  lemma RunTwo(a: Event, b: Event, p: Progress, env: Env)
    requires a.Part? && FieldStep(a.field, p, env).Continue?
    ensures Run([a, b], p, env) == Run([b], FieldStep(a.field, p, env).p, env)
  {
    assert [a, b][1..] == [b];
  }

  lemma RunLast(a: Event, p: Progress, env: Env)
    requires a.Part?
    ensures Run([a], p, env) == match FieldStep(a.field, p, env)
      case Stop(x, q) => Stopped(x, q)
      case Continue(q) => Ended(q)
  {
    assert [a][1..] == [];
  }

  /** A post with a valid image: 201, the post records the image's handle and no avatar,
      the file holds the uploaded bytes, and page 1 of the feed is exactly that post. */
  lemma ValidPostWithImage(dto: BlogPostDto, json: seq<byte>)
    requires |json| <= MAX_DATA_SIZE
    ensures var h := Handle([PartOf("data", json), PartOf("image", Png.Signature)], map[], [],
                            Env(_ => Some(dto), {}, Ids), Inserted);
      && h.response == Response(201, false)
      && h.rows == [Record(dto, None, Some("u0"))]
      && h.files == map["u0" := Png.Signature]
      && BlogpostService.Page(BlogpostService.SortByDate(h.rows), 1) == h.rows
  {
    var env := Env(_ => Some(dto), {}, Ids);
    var p0 := Initial(map[]);
    var p1 := p0.(held := Ingestion(Some(dto), None, None));
    assert FieldStep(PartOf("data", json).field, p0, env) == Continue(p1);
    SignatureSaves();
    var p2 := Progress(Ingestion(Some(dto), None, Some("u0")), map["u0" := Png.Signature], 1);
    assert FieldStep(PartOf("image", Png.Signature).field, p1, env) == Continue(p2);
    RunTwo(PartOf("data", json), PartOf("image", Png.Signature), p0, env);
    RunLast(PartOf("image", Png.Signature), p1, env);
    var rows := [Record(dto, None, Some("u0"))];
    var sorted := BlogpostService.SortByDate(rows);
    assert multiset(sorted) == multiset(rows);
    assert |sorted| == 1 && sorted[0] in multiset(rows);
    assert sorted == rows;
  }

  /** Non-JSON data is refused with 400 and no post is created. */
  lemma MalformedDataCreatesNothing(bytes: seq<byte>, rows: seq<BlogPost>)
    requires |bytes| <= MAX_DATA_SIZE
    ensures var h := Handle([PartOf("data", bytes), PartOf("image", Png.Signature)], map[], rows,
                            Env(_ => None, {}, Ids), Inserted);
      h.response == Response(400, true) && h.rows == rows && h.files == map[]
  {
    var env: Env := Env(_ => None, {}, Ids);
    assert FieldStep(PartOf("data", bytes).field, Initial(map[]), env) == Stop(DataMalformed, Initial(map[]));
  }

  /** An image without a `data` part: 400, and the saved image is removed. */
  lemma ImageWithoutDataIsRemoved(parse: seq<byte> -> Option<BlogPostDto>)
    ensures var h := Handle([PartOf("image", Png.Signature)], map[], [], Env(parse, {}, Ids), Inserted);
      h.exit == DataMissing && h.response == Response(400, false) && h.files == map[]
  {
    var env := Env(parse, {}, Ids);
    SignatureSaves();
    var p1 := Progress(Ingestion(None, None, Some("u0")), map["u0" := Png.Signature], 1);
    assert FieldStep(PartOf("image", Png.Signature).field, Initial(map[]), env) == Continue(p1);
    RunLast(PartOf("image", Png.Signature), Initial(map[]), env);
    assert map["u0" := Png.Signature] - {"u0"} == map[];
  }

  /** A second `avatar` part replaces the held handle, so a later failure clears only the
      second file: the first one is left behind. */
  lemma RepeatedAvatarOrphansFirst(parse: seq<byte> -> Option<BlogPostDto>)
    ensures var h := Handle([PartOf("avatar", Png.Signature), PartOf("avatar", Png.Signature), Part(Field(None, []))],
                            map[], [], Env(parse, {}, Ids), Inserted);
      h.exit == NoFieldName && h.response == Response(400, true) && h.files == map["u0" := Png.Signature]
  {
    var env := Env(parse, {}, Ids);
    var avatar := PartOf("avatar", Png.Signature);
    var bad := Part(Field(None, []));
    SignatureSaves();
    var p1 := Progress(Ingestion(None, Some("u0"), None), map["u0" := Png.Signature], 1);
    var p2 := Progress(Ingestion(None, Some("u1"), None), map["u0" := Png.Signature, "u1" := Png.Signature], 2);
    assert FieldStep(avatar.field, Initial(map[]), env) == Continue(p1);
    assert FieldStep(avatar.field, p1, env) == Continue(p2);
    assert [avatar, avatar, bad][1..] == [avatar, bad];
    RunTwo(avatar, bad, p1, env);
    RunLast(bad, p2, env);
    assert map["u0" := Png.Signature, "u1" := Png.Signature] - {"u1"} == map["u0" := Png.Signature];
  }

  /** As written: an unknown part name after a saved image answers 400 but keeps the image. */
  lemma UnknownFieldKeepsSavedImage(parse: seq<byte> -> Option<BlogPostDto>)
    ensures var h := Handle([PartOf("image", Png.Signature), Part(Field(Some("title"), []))], map[], [],
                            Env(parse, {}, Ids), Inserted);
      h.exit == UnknownField && h.response == Response(400, true) && h.files == map["u0" := Png.Signature]
  {
    var env := Env(parse, {}, Ids);
    SignatureSaves();
    var p1 := Progress(Ingestion(None, None, Some("u0")), map["u0" := Png.Signature], 1);
    assert FieldStep(PartOf("image", Png.Signature).field, Initial(map[]), env) == Continue(p1);
    RunTwo(PartOf("image", Png.Signature), Part(Field(Some("title"), [])), Initial(map[]), env);
    RunLast(Part(Field(Some("title"), [])), p1, env);
  }

  /** As written: an oversized `data` part after a saved avatar answers 413 but keeps the avatar. */
  lemma OversizedDataKeepsSavedImage(parse: seq<byte> -> Option<BlogPostDto>)
    ensures var h := Handle([PartOf("avatar", Png.Signature), PartOf("data", seq(MAX_DATA_SIZE + 1, _ => 0))], map[], [],
                            Env(parse, {}, Ids), Inserted);
      h.exit == DataTooLarge && h.response == Response(413, true) && h.files == map["u0" := Png.Signature]
  {
    var env := Env(parse, {}, Ids);
    var data := PartOf("data", seq(MAX_DATA_SIZE + 1, _ => 0));
    SignatureSaves();
    var p1 := Progress(Ingestion(None, Some("u0"), None), map["u0" := Png.Signature], 1);
    assert FieldStep(PartOf("avatar", Png.Signature).field, Initial(map[]), env) == Continue(p1);
    assert FieldStep(data.field, p1, env) == Stop(DataTooLarge, p1);
    RunTwo(PartOf("avatar", Png.Signature), data, Initial(map[]), env);
    RunLast(data, p1, env);
  }

  /** As written: an image part whose second chunk cannot be read answers 500, but the file
      already holding the first chunk stays: the handler never held its id, so nothing
      deletes it. */
  lemma ReadErrorOrphansPartialFile(parse: seq<byte> -> Option<BlogPostDto>)
    ensures var h := Handle([Part(Field(Some("image"), [Chunk(Png.Signature), ChunkError]))], map[], [],
                            Env(parse, {}, Ids), Inserted);
      h.exit == SaveError && h.response == Response(500, true) && h.files == map["u0" := Png.Signature]
  {
    var env := Env(parse, {}, Ids);
    var c := [Chunk(Png.Signature), ChunkError];
    assert c[1..] == [ChunkError];
    assert FirstEight(Png.Signature) == Png.Signature;
    assert [] + Png.Signature == Png.Signature;
    assert SaveLoop(c[1..], Png.Signature, 8, true, {}) == SaveEffect(Failed(ReceivingChunk), Some(Png.Signature));
    assert SaveSpec(c, {}) == SaveEffect(Failed(ReceivingChunk), Some(Png.Signature));
    var p1 := Progress(Ingestion(None, None, None), map["u0" := Png.Signature], 1);
    assert FieldStep(Field(Some("image"), c), Initial(map[]), env) == Stop(SaveError, p1);
    RunLast(Part(Field(Some("image"), c)), Initial(map[]), env);
  }

  /** A file of a different format (a GIF header here). */
  const Gif: seq<byte> := [0x47, 0x49, 0x46, 0x38, 0x39, 0x61, 0, 0]

  lemma GifSavesEmpty()
    ensures SaveSpec([Chunk(Gif)], {}) == SaveEffect(Finished(false, false), Some([]))
  {
    assert FirstEight(Gif) == Gif != Png.Signature;
  }

  /** As written: an image without the PNG signature is not rejected; the post is created
      and records the handle of an empty file. */
  lemma WrongFormatImageIsRecorded(dto: BlogPostDto, json: seq<byte>)
    requires |json| <= MAX_DATA_SIZE
    ensures var h := Handle([PartOf("data", json), PartOf("image", Gif)], map[], [],
                            Env(_ => Some(dto), {}, Ids), Inserted);
      && h.response == Response(201, false)
      && h.rows == [Record(dto, None, Some("u0"))]
      && h.files == map["u0" := []]
  {
    var env := Env(_ => Some(dto), {}, Ids);
    var p0 := Initial(map[]);
    var p1 := p0.(held := Ingestion(Some(dto), None, None));
    assert FieldStep(PartOf("data", json).field, p0, env) == Continue(p1);
    GifSavesEmpty();
    var p2 := Progress(Ingestion(Some(dto), None, Some("u0")), map["u0" := []], 1);
    assert FieldStep(PartOf("image", Gif).field, p1, env) == Continue(p2);
    RunTwo(PartOf("data", json), PartOf("image", Gif), p0, env);
    RunLast(PartOf("image", Gif), p1, env);
  }

  /** The corrected image arm refuses that same upload and removes its file. */
  lemma IntendedRefusesWrongFormat(p: Progress)
    requires p.used == 0 && "u0" !in p.files
    ensures IntendedImageStep(false, [Chunk(Gif)], p, Env(_ => None, {}, Ids)) == Stop(ImageWrongFormat, p.(used := 1))
  {
    GifSavesEmpty();
    assert p.files["u0" := []] - {"u0"} == p.files;
  }

  // ---- Corrected definitions ----

  /** The store once a handle being replaced has let go of its file. */
  function Released(files: map<string, seq<byte>>, replaced: Option<string>, faults: set<IoStep>): map<string, seq<byte>>
  {
    if replaced.Some? then Deleted(files, replaced.value, faults) else files
  }

  /** The evidently intended image arm: a save reporting a wrong format is refused with 400
      and its empty file deleted instead of being kept as a handle, a failed save deletes
      whatever part of its file was written, and a second part of the same name lets go of
      the file of the handle it replaces. */
  function IntendedImageStep(isAvatar: bool, chunks: seq<ChunkResult>, p: Progress, env: Env): Step
  {
    var id := NewId(env, p.used);
    var e := SaveSpec(chunks, env.faults);
    var q := p.(files := Placed(p.files, id, e.file), used := p.used + 1);
    if e.verdict.Failed? then Stop(SaveError, q.(files := Deleted(q.files, id, env.faults)))
    else if e.verdict == Finished(false, false) then Stop(ImageWrongFormat, q.(files := Deleted(q.files, id, env.faults)))
    else if e.verdict.tooLarge then Stop(ImageTooLarge, q)
    else
      var replaced := if isAvatar then p.held.avatar else p.held.image;
      var kept := p.(files := Placed(Released(p.files, replaced, env.faults), id, e.file), used := p.used + 1);
      if isAvatar then Continue(kept.(held := kept.held.(avatar := Some(id))))
      else Continue(kept.(held := kept.held.(image := Some(id))))
  }

  /** Under the intended arm a kept handle always names the verbatim upload, within the
      size limit and carrying the PNG signature (unless the part had no chunk at all),
      and a wrong-format upload leaves no file on a disk where removal works. */
  lemma IntendedImageStepKeepsOnlyPng(isAvatar: bool, chunks: seq<ChunkResult>, p: Progress, env: Env)
    requires NewId(env, p.used) !in p.files
    ensures var s := IntendedImageStep(isAvatar, chunks, p, env);
      var id := NewId(env, p.used);
      && (s.Continue? ==>
            && id in s.p.files && s.p.files[id] == Payload(chunks)
            && |Payload(chunks)| <= MAX_IMAGE_SIZE
            && (chunks != [] ==> Png.HasSignature(Payload(chunks))))
      && (s == Stop(ImageWrongFormat, s.p) && RemoveFile !in env.faults ==> id !in s.p.files)
  {
    var e := SaveSpec(chunks, env.faults);
    if e.verdict == Finished(false, true) {
      AcceptedIsVerbatim(chunks, env.faults);
    }
  }

  /** The cleanup the comment at the top of the field loop asks for: every exit except
      success clears the held files. */
  function IntendedFinish(x: Exit, p: Progress, rows: seq<BlogPost>, faults: set<IoStep>): Handled
  {
    var files := if !x.Created? then Cleared(p.files, p.held.avatar, p.held.image, faults) else p.files;
    Handled(Respond(x), x, p.held, p.files, files, rows)
  }

  /** Under the intended cleanup, no failure exit — the oversized `data` part and the
      unknown part name included — leaves a held handle's file behind. */
  lemma IntendedCleanupOnEveryFailure(x: Exit, p: Progress, rows: seq<BlogPost>, faults: set<IoStep>)
    requires !x.Created? && RemoveFile !in faults
    ensures var h := IntendedFinish(x, p, rows, faults);
      && (p.held.avatar.Some? ==> p.held.avatar.value !in h.files)
      && (p.held.image.Some? ==> p.held.image.value !in h.files)
      && h.files == p.files - HandleSet(p.held.avatar, p.held.image)
  {
  }

  /** The field loop's body with the intended image arm. */
  function IntendedFieldStep(f: Field, p: Progress, env: Env): Step
  {
    match f.name
    case None => Stop(NoFieldName, p)
    case Some(n) =>
      if n == "data" then DataStep(f.chunks, p, env)
      else if n == "avatar" then IntendedImageStep(true, f.chunks, p, env)
      else if n == "image" then IntendedImageStep(false, f.chunks, p, env)
      else Stop(UnknownField, p)
  }

  function IntendedRun(events: seq<Event>, p: Progress, env: Env): LoopEnd
    decreases |events|
  {
    if events == [] then Ended(p)
    else match events[0]
      case StreamError => Ended(p)
      case Part(f) =>
        match IntendedFieldStep(f, p, env)
        case Stop(x, q) => Stopped(x, q)
        case Continue(q) => IntendedRun(events[1..], q, env)
  }

  /** The whole handler with the intended image arm and the intended cleanup. */
  function IntendedHandle(request: seq<Event>, files: map<string, seq<byte>>, rows: seq<BlogPost>, env: Env, db: DbOutcome): Handled
  {
    match IntendedRun(request, Initial(files), env)
    case Stopped(x, q) => IntendedFinish(x, q, rows, env.faults)
    case Ended(q) =>
      if q.held.data.None? then IntendedFinish(DataMissing, q, rows, env.faults)
      else match db
        case PoolError => IntendedFinish(PoolUnavailable, q, rows, env.faults)
        case BlockingError => IntendedFinish(BlockingFailed, q, rows, env.faults)
        case InsertError => IntendedFinish(InsertFailed, q, rows, env.faults)
        case Inserted => IntendedFinish(Created, q, rows + [Record(q.held.data.value, q.held.avatar, q.held.image)], env.faults)
  }

  /** The intended loop's bookkeeping: the store is the original one plus exactly the files
      of the (distinct) held handles, and ids not yet drawn are absent. */
  ghost predicate Tidy(p: Progress, files0: map<string, seq<byte>>, env: Env)
  {
    && (forall k :: k in files0 ==> k in p.files && p.files[k] == files0[k])
    && (forall k :: k in p.files ==> k in files0 || k in HandleSet(p.held.avatar, p.held.image))
    && (forall j :: p.used <= j < |env.uuids| ==> env.uuids[j] !in p.files)
    && (p.held.avatar.Some? ==> p.held.avatar.value in p.files && p.held.avatar.value !in files0)
    && (p.held.image.Some? ==> p.held.image.value in p.files && p.held.image.value !in files0)
    && (p.held.avatar.Some? && p.held.image.Some? ==> p.held.avatar.value != p.held.image.value)
  }

  lemma IntendedImageStepTidy(isAvatar: bool, chunks: seq<ChunkResult>, p: Progress, files0: map<string, seq<byte>>, env: Env)
    requires Tidy(p, files0, env) && FreshIds(env.uuids, files0) && p.used < |env.uuids| && RemoveFile !in env.faults
    ensures Tidy(IntendedImageStep(isAvatar, chunks, p, env).p, files0, env)
    ensures IntendedImageStep(isAvatar, chunks, p, env).p.used == p.used + 1
  {
    var e := SaveSpec(chunks, env.faults);
    if KeepsImage(e.verdict) && e.verdict != Finished(false, false) {
      KeptSaveLeavesFile(chunks, env.faults);
    }
    if e.verdict.Finished? && e.verdict.tooLarge {
      LoopLeavesFileUnlessOversized(chunks, [], 0, false, env.faults);
    }
  }

  lemma IntendedStepTidy(f: Field, p: Progress, files0: map<string, seq<byte>>, env: Env)
    requires Tidy(p, files0, env) && FreshIds(env.uuids, files0) && p.used < |env.uuids| && RemoveFile !in env.faults
    ensures Tidy(IntendedFieldStep(f, p, env).p, files0, env)
    ensures IntendedFieldStep(f, p, env).p.used <= p.used + 1
  {
    if f.name.Some? && (f.name.value == "avatar" || f.name.value == "image") {
      IntendedImageStepTidy(f.name.value == "avatar", f.chunks, p, files0, env);
    }
  }

  lemma {:induction false} IntendedRunTidy(events: seq<Event>, p: Progress, files0: map<string, seq<byte>>, env: Env)
    requires Tidy(p, files0, env) && FreshIds(env.uuids, files0) && p.used + |events| <= |env.uuids| && RemoveFile !in env.faults
    ensures Tidy(IntendedRun(events, p, env).p, files0, env)
    decreases |events|
  {
    if events != [] && events[0].Part? {
      IntendedStepTidy(events[0].field, p, files0, env);
      var s := IntendedFieldStep(events[0].field, p, env);
      if s.Continue? {
        IntendedRunTidy(events[1..], s.p, files0, env);
      }
    }
  }

  /** The intended loop, too, stops only with an exit from inside the loop. */
  lemma {:induction false} IntendedStopsInsideLoop(events: seq<Event>, p: Progress, env: Env)
    ensures IntendedRun(events, p, env).Stopped? ==> IntendedRun(events, p, env).exit.InFieldLoop()
    decreases |events|
  {
    if events != [] && events[0].Part? && IntendedFieldStep(events[0].field, p, env).Continue? {
      IntendedStopsInsideLoop(events[1..], IntendedFieldStep(events[0].field, p, env).p, env);
    }
  }

  /** A failure exit of the corrected handler, cleaning up on a disk where removal works,
      restores the original store. */
  lemma TidyFailureRestores(x: Exit, q: Progress, rows: seq<BlogPost>, files0: map<string, seq<byte>>, env: Env)
    requires Tidy(q, files0, env) && RemoveFile !in env.faults && !x.Created?
    ensures IntendedFinish(x, q, rows, env.faults).files == files0
  {
    var files := IntendedFinish(x, q, rows, env.faults).files;
    assert files == q.files - HandleSet(q.held.avatar, q.held.image);
    assert files.Keys == files0.Keys;
  }

  /** The store of a tidy state is the original one plus exactly the held handles' files. */
  lemma TidyKeepsHeldFiles(q: Progress, files0: map<string, seq<byte>>, env: Env)
    requires Tidy(q, files0, env)
    ensures q.files.Keys == files0.Keys + HandleSet(q.held.avatar, q.held.image)
    ensures forall k :: k in files0 ==> q.files[k] == files0[k]
  {
  }

  /** With the corrections, on a disk where removal works, a failed request leaves the store
      exactly as it found it, whatever failed and wherever; a created post leaves the store
      with exactly the files its record points to added. */
  lemma IntendedHandleLeavesNoStrayFile(request: seq<Event>, files: map<string, seq<byte>>, rows: seq<BlogPost>, env: Env, db: DbOutcome)
    requires RemoveFile !in env.faults && FreshIds(env.uuids, files) && |env.uuids| >= |request|
    ensures var h := IntendedHandle(request, files, rows, env, db);
      && (h.exit != Created ==> h.files == files && h.rows == rows)
      && (h.exit == Created ==>
            && h.files.Keys == files.Keys + HandleSet(h.held.avatar, h.held.image)
            && (forall k :: k in files ==> h.files[k] == files[k])
            && h.held.data.Some?
            && h.rows == rows + [Record(h.held.data.value, h.held.avatar, h.held.image)])
  {
    IntendedRunTidy(request, Initial(files), files, env);
    IntendedStopsInsideLoop(request, Initial(files), env);
    var end := IntendedRun(request, Initial(files), env);
    var q := end.p;
    var h := IntendedHandle(request, files, rows, env, db);
    if h.exit != Created {
      TidyFailureRestores(h.exit, q, h.rows, files, env);
      assert h == IntendedFinish(h.exit, q, h.rows, env.faults);
    } else {
      TidyKeepsHeldFiles(q, files, env);
    }
  }

}
