/** What one store's serial I/O queue does: the job `store` submits for each
    category, what running a job does to the file system, and what running
    a queue of jobs in submission order does. The store class in module
    Cache is proved against these functions. */
module IoQueue {
  import opened Wrappers
  import opened Paths

  type Byte = bv8
  type Bytes = seq<Byte>

  /** The payload a job captured: an archivable value (`Any?`), an image
      of type I, or raw audio bytes (`Data`). */
  datatype Payload<V, I> =
    | ObjectPayload(value: Option<V>)
    | ImagePayload(image: I)
    | VoicePayload(data: Bytes)

  function CategoryOf<V, I>(p: Payload<V, I>): CacheFor
  {
    match p
    case ObjectPayload(_) => Object
    case ImagePayload(_) => Image
    case VoicePayload(_) => Voice
  }

  /** A closure on `ioQueue`: the key, the path resolved when it was
      submitted, the payload and the optional completion handler, which the
      model identifies by a number. */
  datatype Job<V, I> = Job(key: string, path: string, payload: Payload<V, I>, handler: Option<nat>)

  /** The collaborators the cache calls but does not define: the key digest,
      the keyed archiver (value and key to bytes, or None when the value
      cannot be archived, which raises an exception the cache does not
      catch) and the JPEG encoder of a normalised image, which may yield no
      bytes. */
  datatype Env<!V, !I> = Env(digest: Hasher,
                           archive: (Option<V>, string) -> Option<Bytes>,
                           jpeg: I -> Option<Bytes>)

  /** The jobs one call of `store` submits: none, or one job whose payload
      is the argument matching the store's category. */
  function Enqueued<V, I>(t: CacheFor, key: string, path: string,
                          value: Option<V>, image: Option<I>, data: Option<Bytes>,
                          handler: Option<nat>): (r: seq<Job<V, I>>)
    ensures |r| <= 1
    ensures r == [] <==> (t == Image && image.None?) || (t == Voice && data.None?)
    ensures forall j :: j in r ==>
              && j.key == key && j.path == path && j.handler == handler
              && CategoryOf(j.payload) == t
              && (j.payload.ObjectPayload? ==> j.payload.value == value)
              && (j.payload.ImagePayload? ==> image == Some(j.payload.image))
              && (j.payload.VoicePayload? ==> data == Some(j.payload.data))
  {
    match t
    case Image =>
      if image.Some? then [Job(key, path, ImagePayload(image.value), handler)] else []
    case Object =>
      [Job(key, path, ObjectPayload(value), handler)]
    case Voice =>
      if data.Some? then [Job(key, path, VoicePayload(data.value), handler)] else []
  }

  /** Arguments that do not match the store's category are ignored. */
  lemma EnqueuedIgnoresOtherPayloads<V, I>(t: CacheFor, key: string, path: string,
                                           v1: Option<V>, i1: Option<I>, d1: Option<Bytes>,
                                           v2: Option<V>, i2: Option<I>, d2: Option<Bytes>,
                                           handler: Option<nat>)
    requires t == Object ==> v1 == v2
    requires t == Image ==> i1 == i2
    requires t == Voice ==> d1 == d2
    ensures Enqueued(t, key, path, v1, i1, d1, handler) == Enqueued(t, key, path, v2, i2, d2, handler)
  {
  }

  /** The bytes a job would write: None when the value cannot be archived
      or the image encoder yields nothing; voice data is written as given. */
  function Encode<V, I>(env: Env<V, I>, job: Job<V, I>): (r: Option<Bytes>)
    ensures r.None? ==> !job.payload.VoicePayload?
    ensures job.payload.VoicePayload? ==> r == Some(job.payload.data)
    ensures job.payload.ObjectPayload? ==> r == env.archive(job.payload.value, job.key)
    ensures job.payload.ImagePayload? ==> r == env.jpeg(job.payload.image)
  {
    match job.payload
    case ObjectPayload(value) => env.archive(value, job.key)
    case ImagePayload(image) => env.jpeg(image)
    case VoicePayload(data) => Some(data)
  }

  /** How a job ends: its file written and its handler called, dropped
      without effect, or the process terminated. */
  datatype Outcome = Completed | Dropped | Fatal

  /** The outcome of a job, given whether the file system accepts the write.
      A job completes exactly when its payload encodes and the write
      succeeds. It is fatal exactly when an object cannot be archived, or
      when an encoded image or voice job fails to write. A failed object
      write is logged and dropped, and so is an image without bytes. */
  function OutcomeOf<V, I>(env: Env<V, I>, job: Job<V, I>, writeOk: bool): (r: Outcome)
    ensures r == Completed <==> Encode(env, job).Some? && writeOk
    ensures r == Fatal <==>
              || (job.payload.ObjectPayload? && Encode(env, job).None?)
              || (job.payload.ImagePayload? && Encode(env, job).Some? && !writeOk)
              || (job.payload.VoicePayload? && !writeOk)
  {
    match Encode(env, job)
    case None => if job.payload.ObjectPayload? then Fatal else Dropped
    case Some(_) =>
      if writeOk then Completed
      else if job.payload.ObjectPayload? then Dropped
      else Fatal
  }

  /** The observable world the jobs act on: the files by path, the
      completion handlers called so far in order, and whether the process
      has been terminated by `fatalError`. */
  datatype World = World(files: map<string, Bytes>, fired: seq<nat>, crashed: bool)

  /** The handler calls a job makes when it completes. */
  function HandlerCalls(h: Option<nat>): seq<nat>
  {
    if h.Some? then [h.value] else []
  }

  /** The contents of the file at a path, if there is one. */
  function FileAt(w: World, path: string): Option<Bytes>
  {
    if path in w.files then Some(w.files[path]) else None
  }

  /** What running one job does. A terminated process runs nothing.
      Otherwise only the job's own file can change, and only when the job
      completes, in which case it holds the encoded bytes and the handler
      is called afterwards; the process terminates exactly on a fatal
      outcome. */
  function Run<V, I>(env: Env<V, I>, job: Job<V, I>, writeOk: bool, w: World): (r: World)
    ensures w.crashed ==> r == w
    ensures forall p :: p != job.path ==> FileAt(r, p) == FileAt(w, p)
    ensures !w.crashed ==> (r.crashed <==> OutcomeOf(env, job, writeOk) == Fatal)
    ensures !w.crashed && OutcomeOf(env, job, writeOk) == Completed ==>
              FileAt(r, job.path) == Encode(env, job) && r.fired == w.fired + HandlerCalls(job.handler)
    ensures OutcomeOf(env, job, writeOk) != Completed ==> r.files == w.files && r.fired == w.fired
  {
    if w.crashed then w
    else
      match OutcomeOf(env, job, writeOk)
      case Completed =>
        World(w.files[job.path := Encode(env, job).value], w.fired + HandlerCalls(job.handler), false)
      case Dropped => w
      case Fatal => w.(crashed := true)
  }

  /** What running the jobs one at a time in submission order does, with
      one write outcome per job. Handler calls are only ever appended, and
      termination persists. */
  function RunAll<V, I>(env: Env<V, I>, jobs: seq<Job<V, I>>, oks: seq<bool>, w: World): (r: World)
    requires |oks| == |jobs|
    ensures w.fired <= r.fired
    ensures w.crashed ==> r.crashed
  {
    if jobs == [] then w
    else RunAll(env, jobs[1..], oks[1..], Run(env, jobs[0], oks[0], w))
  }

  /** Running a job changes the file at its own path and no other. */
  lemma RunFrame<V, I>(env: Env<V, I>, job: Job<V, I>, writeOk: bool, w: World, path: string)
    requires path != job.path
    ensures FileAt(Run(env, job, writeOk, w), path) == FileAt(w, path)
  {
  }

  /** The handler is called only after the job's bytes were written to its
      path; and a write that succeeds always writes the file and calls the
      handler. */
  lemma HandlerOnlyAfterWrite<V, I>(env: Env<V, I>, job: Job<V, I>, writeOk: bool, w: World)
    requires !w.crashed
    ensures Run(env, job, writeOk, w).fired != w.fired ==>
              writeOk && Encode(env, job).Some? && FileAt(Run(env, job, writeOk, w), job.path) == Encode(env, job)
    ensures writeOk && Encode(env, job).Some? ==>
              && FileAt(Run(env, job, writeOk, w), job.path) == Encode(env, job)
              && Run(env, job, writeOk, w).fired == w.fired + HandlerCalls(job.handler)
              && !Run(env, job, writeOk, w).crashed
  {
  }

  /** A failed write of an archived object is dropped: no file change, no
      handler call, no termination. */
  lemma ObjectWriteFailureDropped<V, I>(env: Env<V, I>, job: Job<V, I>, w: World)
    requires job.payload.ObjectPayload? && env.archive(job.payload.value, job.key).Some?
    ensures OutcomeOf(env, job, false) == Dropped
    ensures Run(env, job, false, w) == w
  {
  }

  /** An image whose encoder yields no bytes writes nothing and calls no
      handler, whether or not the file system would accept a write. */
  lemma ImageWithoutBytesDropped<V, I>(env: Env<V, I>, job: Job<V, I>, writeOk: bool, w: World)
    requires job.payload.ImagePayload? && env.jpeg(job.payload.image).None?
    ensures OutcomeOf(env, job, writeOk) == Dropped
    ensures Run(env, job, writeOk, w) == w
  {
  }

  /** A fatal job terminates the process and does nothing else: nothing is
      written and no handler runs. */
  lemma FatalOnlyTerminates<V, I>(env: Env<V, I>, job: Job<V, I>, writeOk: bool, w: World)
    requires !w.crashed && OutcomeOf(env, job, writeOk) == Fatal
    ensures Run(env, job, writeOk, w) == w.(crashed := true)
  {
  }

  /** A value the archiver cannot encode terminates the process whether or
      not the file system would accept the write; an object write that
      fails after archiving never does. */
  lemma ObjectFatalOnlyWhenUnarchivable<V, I>(env: Env<V, I>, job: Job<V, I>, writeOk: bool, w: World)
    requires !w.crashed && job.payload.ObjectPayload?
    ensures Run(env, job, writeOk, w).crashed <==> env.archive(job.payload.value, job.key).None?
  {
  }

  /** Termination is final: no later job changes anything. */
  lemma {:induction false} CrashIsTerminal<V, I>(env: Env<V, I>, jobs: seq<Job<V, I>>, oks: seq<bool>, w: World)
    requires |oks| == |jobs| && w.crashed
    ensures RunAll(env, jobs, oks, w) == w
  {
    if jobs != [] {
      CrashIsTerminal(env, jobs[1..], oks[1..], Run(env, jobs[0], oks[0], w));
    }
  }

  /** Running a queue in two parts is running it whole. */
  lemma {:induction false} RunAllAppend<V, I>(env: Env<V, I>, a: seq<Job<V, I>>, oa: seq<bool>,
                                              b: seq<Job<V, I>>, ob: seq<bool>, w: World)
    requires |oa| == |a| && |ob| == |b|
    ensures RunAll(env, a + b, oa + ob, w) == RunAll(env, b, ob, RunAll(env, a, oa, w))
  {
    if a == [] {
      assert a + b == b && oa + ob == ob;
    } else {
      var w' := Run(env, a[0], oa[0], w);
      assert (a + b)[0] == a[0] && (oa + ob)[0] == oa[0];
      assert (a + b)[1..] == a[1..] + b;
      assert (oa + ob)[1..] == oa[1..] + ob;
      assert RunAll(env, a + b, oa + ob, w) == RunAll(env, a[1..] + b, oa[1..] + ob, w');
      RunAllAppend(env, a[1..], oa[1..], b, ob, w');
    }
  }

  /** Only the paths the jobs resolve to can change. */
  lemma {:induction false} RunAllFrame<V, I>(env: Env<V, I>, jobs: seq<Job<V, I>>, oks: seq<bool>, w: World, path: string)
    requires |oks| == |jobs|
    requires forall j :: j in jobs ==> j.path != path
    ensures FileAt(RunAll(env, jobs, oks, w), path) == FileAt(w, path)
  {
    if jobs != [] {
      var w' := Run(env, jobs[0], oks[0], w);
      assert jobs[0] in jobs;
      RunFrame(env, jobs[0], oks[0], w, path);
      RunAllFrame(env, jobs[1..], oks[1..], w', path);
    }
  }

  /** Last writer wins: once a job to `path` completes, the file holds its
      bytes until a later job to the same path runs. */
  lemma LastWriterWins<V, I>(env: Env<V, I>, pre: seq<Job<V, I>>, opre: seq<bool>,
                             job: Job<V, I>, ok: bool,
                             post: seq<Job<V, I>>, opost: seq<bool>, w: World)
    requires |opre| == |pre| && |opost| == |post|
    requires !RunAll(env, pre, opre, w).crashed
    requires OutcomeOf(env, job, ok) == Completed
    requires forall j :: j in post ==> j.path != job.path
    ensures FileAt(RunAll(env, pre + [job] + post, opre + [ok] + opost, w), job.path) == Encode(env, job)
  {
    var w1 := RunAll(env, pre, opre, w);
    RunAllAppend(env, pre, opre, [job], [ok], w);
    RunAllAppend(env, pre + [job], opre + [ok], post, opost, w);
    assert RunAll(env, [job], [ok], w1) == Run(env, job, ok, w1);
    RunAllFrame(env, post, opost, Run(env, job, ok, w1), job.path);
  }

  /** Two stores to the same path, run in order: the second one's bytes are
      what the file holds afterwards, never the first one's. */
  lemma SecondWriteWins<V, I>(env: Env<V, I>, first: Job<V, I>, ok1: bool,
                              second: Job<V, I>, ok2: bool, w: World)
    requires !w.crashed && first.path == second.path
    requires OutcomeOf(env, first, ok1) != Fatal
    requires OutcomeOf(env, second, ok2) == Completed
    ensures FileAt(RunAll(env, [first, second], [ok1, ok2], w), second.path) == Encode(env, second)
  {
    assert [first, second] == [first] + [second] + [];
    assert [ok1, ok2] == [ok1] + [ok2] + [];
    assert RunAll(env, [first], [ok1], w) == Run(env, first, ok1, w);
    LastWriterWins(env, [first], [ok1], second, ok2, [], [], w);
  }

  /** The handlers of the jobs that have one, in submission order. */
  function Handlers<V, I>(jobs: seq<Job<V, I>>): seq<nat>
  {
    if jobs == [] then [] else HandlerCalls(jobs[0].handler) + Handlers(jobs[1..])
  }

  /** The handlers of a two-job queue: the first job's, then the second's. */
  lemma HandlersOfPair<V, I>(a: Job<V, I>, b: Job<V, I>)
    ensures Handlers([a, b]) == HandlerCalls(a.handler) + HandlerCalls(b.handler)
    ensures a.handler.Some? && b.handler.Some? ==> Handlers([a, b]) == [a.handler.value, b.handler.value]
  {
    assert [a, b][1..] == [b];
    assert Handlers([a, b]) == HandlerCalls(a.handler) + Handlers([b]);
    assert [b][1..] == [];
    assert Handlers([b]) == HandlerCalls(b.handler) + Handlers<V, I>([]);
    assert HandlerCalls(b.handler) + [] == HandlerCalls(b.handler);
  }

  /** When every write succeeds and every payload encodes, each job
      completes: every handler is called once, in submission order, and the
      process survives. */
  lemma {:induction false} AllComplete<V, I>(env: Env<V, I>, jobs: seq<Job<V, I>>, oks: seq<bool>, w: World)
    requires |oks| == |jobs| && !w.crashed
    requires false !in oks
    requires forall j :: j in jobs ==> Encode(env, j).Some?
    ensures !RunAll(env, jobs, oks, w).crashed
    ensures RunAll(env, jobs, oks, w).fired == w.fired + Handlers(jobs)
  {
    if jobs != [] {
      var job, rest, orest := jobs[0], jobs[1..], oks[1..];
      var w' := Run(env, job, oks[0], w);
      assert !w'.crashed && w'.fired == w.fired + HandlerCalls(job.handler) by {
        assert job in jobs && oks[0];
        HandlerOnlyAfterWrite(env, job, oks[0], w);
      }
      assert false !in orest by {
        assert oks == [oks[0]] + orest;
      }
      assert forall j :: j in rest ==> Encode(env, j).Some? by {
        forall j | j in rest ensures Encode(env, j).Some? { assert j in jobs; }
      }
      AllComplete(env, rest, orest, w');
      assert RunAll(env, jobs, oks, w) == RunAll(env, rest, orest, w');
      assert Handlers(jobs) == HandlerCalls(job.handler) + Handlers(rest);
      AppendAssoc(w.fired, HandlerCalls(job.handler), Handlers(rest));
    }
  }

  /** Two successful writes to one path, both payloads encoding: the file
      holds the second job's bytes, and both handlers are called in order. */
  lemma TwoCompletedWrites<V, I>(env: Env<V, I>, first: Job<V, I>, second: Job<V, I>, w: World)
    requires !w.crashed && first.path == second.path
    requires Encode(env, first).Some? && Encode(env, second).Some?
    ensures FileAt(RunAll(env, [first, second], [true, true], w), second.path) == Encode(env, second)
    ensures RunAll(env, [first, second], [true, true], w).fired == w.fired + Handlers([first, second])
  {
    SecondWriteWins(env, first, true, second, true, w);
    assert forall j :: j in [first, second] ==> Encode(env, j).Some? by {
      forall j | j in [first, second] ensures Encode(env, j).Some? {
        assert j == first || j == second;
      }
    }
    AllComplete(env, [first, second], [true, true], w);
  }

  lemma AppendAssoc<T>(a: seq<T>, b: seq<T>, c: seq<T>)
    ensures a + (b + c) == (a + b) + c
  {
  }

  /** Jobs of a store whose paths all lie under its own category directory
      leave every file of another category's store untouched. */
  lemma CategoriesIsolated<V, I>(env: Env<V, I>, cachesDir: string, t: CacheFor,
                                 jobs: seq<Job<V, I>>, oks: seq<bool>, w: World,
                                 other: CacheFor, key: string)
    requires |oks| == |jobs| && t != other
    requires forall j :: j in jobs ==> j.path == ResolvePath(RootPath(cachesDir, t), t, env.digest, j.key)
    ensures var p := ResolvePath(RootPath(cachesDir, other), other, env.digest, key);
            FileAt(RunAll(env, jobs, oks, w), p) == FileAt(w, p)
  {
    var p := ResolvePath(RootPath(cachesDir, other), other, env.digest, key);
    forall j | j in jobs ensures j.path != p {
      DistinctCategoriesDistinctPaths(cachesDir, t, env.digest, j.key, other, env.digest, key);
    }
    RunAllFrame(env, jobs, oks, w, p);
  }

  /** Storing the same key and payload again writes a byte-identical file. */
  lemma RewriteIdempotent<V, I>(env: Env<V, I>, job: Job<V, I>, w: World)
    requires OutcomeOf(env, job, true) == Completed && !w.crashed
    ensures Run(env, job, true, Run(env, job, true, w)).files == Run(env, job, true, w).files
  {
  }
}
