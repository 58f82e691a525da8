/** The cache objects themselves: the process and file system the stores
    write into, one store per category with its serial I/O queue, and the
    three shared instances. */
module Cache {
  import opened Wrappers
  import opened Paths
  import opened IoQueue

  /** The process the cache runs in: its file system (files by path, and
      the directories created), the completion handlers called so far, and
      whether `fatalError` has terminated it. Shared by all stores. */
  class Host {
    var files: map<string, Bytes>
    var dirs: set<string>
    var fired: seq<nat>
    var crashed: bool

    /** The part of the host the queued jobs act on. */
    function Snapshot(): World
      reads this
    {
      World(files, fired, crashed)
    }

    constructor (files: map<string, Bytes>, dirs: set<string>)
      ensures this.files == files && this.dirs == dirs
      ensures fired == [] && !crashed
    {
      this.files := files;
      this.dirs := dirs;
      fired := [];
      crashed := false;
    }

    /** `createDirectory(atPath:withIntermediateDirectories:)`; `ok` is
        whether the file system accepted it. A failure has no effect. */
    method CreateDirectory(path: string, ok: bool)
      modifies this`dirs
      ensures dirs == if ok then old(dirs) + {path} else old(dirs)
    {
      if ok {
        dirs := dirs + {path};
      }
    }

    /** A whole-file write that replaces the old contents; `ok` is whether
        the file system accepts it. */
    method WriteFile(path: string, contents: Bytes, ok: bool) returns (written: bool)
      modifies this`files
      ensures written == ok
      ensures files == if ok then old(files)[path := contents] else old(files)
    {
      written := ok;
      if ok {
        files := files[path := contents];
      }
    }

    /** Calls the optional completion handler. */
    method CallHandler(h: Option<nat>)
      modifies this`fired
      ensures fired == old(fired) + HandlerCalls(h)
    {
      if h.Some? {
        fired := fired + [h.value];
      }
    }

    /** `fatalError`: the process stops. */
    method FatalError()
      modifies this`crashed
      ensures crashed
    {
      crashed := true;
    }
  }

  /** `ELDiskCache`: one category's store, its root directory and its serial
      queue of pending jobs. */
  class DiskCache<V, I> {
    const storeType: CacheFor
    const diskCachePath: string
    const env: Env<V, I>
    const host: Host
    var queue: seq<Job<V, I>>

    /** Every pending job is of this store's category and writes to the
        path its key resolves to in this store. */
    ghost predicate Valid()
      reads this
    {
      forall j :: j in queue ==> Belongs(j)
    }

    /** A job of this store's category, writing to the path its key
        resolves to in this store. */
    ghost predicate Belongs(j: Job<V, I>)
    {
      j.path == CachePathForKey(j.key) && CategoryOf(j.payload) == storeType
    }

    /** `init(type:)`: derive the root under the caches directory and try
        to create it, ignoring a failure. */
    constructor (t: CacheFor, cachesDir: string, env: Env<V, I>, host: Host, mkdirOk: bool)
      modifies host
      ensures storeType == t && diskCachePath == RootPath(cachesDir, t)
      ensures this.env == env && this.host == host
      ensures queue == [] && Valid()
      ensures host.dirs == if mkdirOk then old(host.dirs) + {diskCachePath} else old(host.dirs)
      ensures host.Snapshot() == old(host.Snapshot())
    {
      storeType := t;
      diskCachePath := RootPath(cachesDir, t);
      this.env := env;
      this.host := host;
      queue := [];
      new;
      host.CreateDirectory(diskCachePath, mkdirOk);
    }

    /** `cachePathForKey`: the file of a key in this store, directly in its
        root and named by the file name of the key's digest. */
    function CachePathForKey(key: string): (r: string)
      ensures LastComponent(r) == FileName(storeType, env.digest(key))
      ensures |r| == |diskCachePath| + 1 + |LastComponent(r)|
      ensures r[..|diskCachePath| + 1] == diskCachePath + "/"
    {
      ResolvePath(diskCachePath, storeType, env.digest, key)
    }

    /** The path depends on the key and the store's constant root and
        category alone; the file lies directly in the root directory and is
        named by the key's digest, with `.wav` appended for voice only. */
    lemma CachePathForKeyShape(key: string)
      ensures |CachePathForKey(key)| > |diskCachePath|
      ensures CachePathForKey(key)[..|diskCachePath| + 1] == diskCachePath + "/"
      ensures storeType == Voice ==> LastComponent(CachePathForKey(key)) == env.digest(key) + VoiceSuffix
      ensures storeType != Voice ==> LastComponent(CachePathForKey(key)) == env.digest(key)
      ensures |CachePathForKey(key)| == |diskCachePath| + 1 + |LastComponent(CachePathForKey(key))|
    {
      ResolvedFileName(diskCachePath, storeType, env.digest, key);
    }

    /** `store(for:with:image:data:completeHandler:)`: resolve the path and
        submit the job of this store's category; an image store without an
        image and a voice store without data submit nothing. Returns at
        once: nothing is written until the queue runs. */
    method Store(key: string, value: Option<V>, image: Option<I>, data: Option<Bytes>, handler: Option<nat>)
      requires Valid()
      modifies this
      ensures Valid()
      ensures queue == old(queue) + Enqueued(storeType, key, CachePathForKey(key), value, image, data, handler)
    {
      var path := CachePathForKey(key);
      match storeType
      case Image =>
        if image.Some? {
          Append(Job(key, path, ImagePayload(image.value), handler));
        }
      case Object =>
        Append(Job(key, path, ObjectPayload(value), handler));
      case Voice =>
        if data.Some? {
          Append(Job(key, path, VoicePayload(data.value), handler));
        }
    }

    /** `ioQueue.async`: submit one job of this store behind the pending
        ones. */
    method Append(job: Job<V, I>)
      requires Valid() && Belongs(job)
      modifies this
      ensures Valid()
      ensures queue == old(queue) + [job]
    {
      queue := queue + [job];
      forall j | j in queue ensures Belongs(j) {
        if j !in old(queue) {
          assert j == job;
        }
      }
    }

    /** One `ioQueue.async` block: encode the payload, write the whole file,
        then call the handler. A value the archiver rejects terminates the
        process; a failed object write is printed and dropped;
        an image that encodes to nothing is dropped silently; a failed image
        or voice write is fatal. `writeOk` is whether the file system
        accepts the write. */
    method RunJob(job: Job<V, I>, writeOk: bool)
      requires !host.crashed
      modifies host
      ensures host.Snapshot() == Run(env, job, writeOk, old(host.Snapshot()))
      ensures host.dirs == old(host.dirs)
    {
      match job.payload
      case ObjectPayload(value) =>
        var data := env.archive(value, job.key);
        if data.None? {
          host.FatalError();
        } else {
          var written := host.WriteFile(job.path, data.value, writeOk);
          if written {
            host.CallHandler(job.handler);
          }
        }
      case ImagePayload(image) =>
        var data := env.jpeg(image);
        if data.Some? {
          var written := host.WriteFile(job.path, data.value, writeOk);
          if !written {
            host.FatalError();
          } else {
            host.CallHandler(job.handler);
          }
        }
      case VoicePayload(data) =>
        var written := host.WriteFile(job.path, data, writeOk);
        if !written {
          host.FatalError();
        } else {
          host.CallHandler(job.handler);
        }
    }

    /** The serial queue runs its oldest job: `ioQueue.async` blocks run one
        at a time in submission order. A terminated process runs nothing. */
    method Step(writeOk: bool) returns (ran: bool)
      requires Valid()
      modifies this, host
      ensures Valid()
      ensures ran == (old(queue) != [] && !old(host.crashed))
      ensures ran ==> (queue == old(queue)[1..] &&
                       host.Snapshot() == Run(env, old(queue)[0], writeOk, old(host.Snapshot())))
      ensures !ran ==> queue == old(queue) && host.Snapshot() == old(host.Snapshot())
      ensures host.dirs == old(host.dirs)
    {
      if queue == [] || host.crashed {
        return false;
      }
      var job := queue[0];
      queue := queue[1..];
      assert forall j :: j in queue ==> j in old(queue) by {
        forall j | j in queue ensures j in old(queue) {
          var k :| 0 <= k < |queue| && queue[k] == j;
          assert old(queue)[k + 1] == j;
        }
      }
      RunJob(job, writeOk);
      ran := true;
    }

    /** Runs the queue until it is empty or the process has terminated,
        with one write outcome per pending job. */
    method Drain(oks: seq<bool>)
      requires Valid() && |oks| == |queue|
      modifies this, host
      ensures Valid()
      ensures host.Snapshot() == RunAll(env, old(queue), oks, old(host.Snapshot()))
      ensures queue == [] || host.crashed
      ensures host.dirs == old(host.dirs)
    {
      ghost var q0, w0 := queue, host.Snapshot();
      var i := 0;
      while queue != [] && !host.crashed
        invariant Valid()
        invariant 0 <= i <= |q0| && queue == q0[i..]
        invariant RunAll(env, q0, oks, w0) == RunAll(env, queue, oks[i..], host.Snapshot())
        invariant host.dirs == old(host.dirs)
        decreases |queue|
      {
        var _ := Step(oks[i]);
        i := i + 1;
      }
      if queue != [] {
        CrashIsTerminal(env, queue, oks[i..], host.Snapshot());
      }
    }
  }

  /** The three shared instances (`sharedCacheObj`, `sharedCacheImage`,
      `sharedCacheVoice`): one store per category, all under one caches
      directory, writing into one host. */
  class Registry<V, I> {
    const cachesDir: string
    const sharedCacheObj: DiskCache<V, I>
    const sharedCacheImage: DiskCache<V, I>
    const sharedCacheVoice: DiskCache<V, I>

    ghost predicate Valid()
    {
      && sharedCacheObj.storeType == Object
      && sharedCacheImage.storeType == Image
      && sharedCacheVoice.storeType == Voice
      && sharedCacheObj.diskCachePath == RootPath(cachesDir, Object)
      && sharedCacheImage.diskCachePath == RootPath(cachesDir, Image)
      && sharedCacheVoice.diskCachePath == RootPath(cachesDir, Voice)
    }

    constructor (cachesDir: string, env: Env<V, I>, host: Host, mkdirObj: bool, mkdirImage: bool, mkdirVoice: bool)
      modifies host
      ensures Valid() && this.cachesDir == cachesDir
      ensures sharedCacheObj.host == sharedCacheImage.host == sharedCacheVoice.host == host
      ensures sharedCacheObj.env == env && sharedCacheImage.env == env && sharedCacheVoice.env == env
      ensures sharedCacheObj.queue == sharedCacheImage.queue == sharedCacheVoice.queue == []
      ensures sharedCacheObj.Valid() && sharedCacheImage.Valid() && sharedCacheVoice.Valid()
      ensures fresh(sharedCacheObj) && fresh(sharedCacheImage) && fresh(sharedCacheVoice)
      ensures host.Snapshot() == old(host.Snapshot())
      ensures host.dirs == old(host.dirs) + (if mkdirObj then {RootPath(cachesDir, Object)} else {})
                                          + (if mkdirImage then {RootPath(cachesDir, Image)} else {})
                                          + (if mkdirVoice then {RootPath(cachesDir, Voice)} else {})
    {
      this.cachesDir := cachesDir;
      ghost var d0 := host.dirs;
      var o := new DiskCache(Object, cachesDir, env, host, mkdirObj);
      ghost var d1 := host.dirs;
      var i := new DiskCache(Image, cachesDir, env, host, mkdirImage);
      ghost var d2 := host.dirs;
      var v := new DiskCache(Voice, cachesDir, env, host, mkdirVoice);
      assert host.dirs == d0 + (if mkdirObj then {o.diskCachePath} else {})
                             + (if mkdirImage then {i.diskCachePath} else {})
                             + (if mkdirVoice then {v.diskCachePath} else {});
      sharedCacheObj, sharedCacheImage, sharedCacheVoice := o, i, v;
    }

    /** The same key resolves to three different files in the three shared
        stores. */
    lemma SharedPathsDistinct(key: string)
      requires Valid()
      ensures sharedCacheObj.CachePathForKey(key) != sharedCacheImage.CachePathForKey(key)
      ensures sharedCacheObj.CachePathForKey(key) != sharedCacheVoice.CachePathForKey(key)
      ensures sharedCacheImage.CachePathForKey(key) != sharedCacheVoice.CachePathForKey(key)
    {
      var o, i, v := sharedCacheObj, sharedCacheImage, sharedCacheVoice;
      RootPathsDistinct(cachesDir, Object, Image);
      RootPathsDistinct(cachesDir, Object, Voice);
      RootPathsDistinct(cachesDir, Image, Voice);
      DistinctRootsDistinctPaths(o.diskCachePath, Object, o.env.digest, key, i.diskCachePath, Image, i.env.digest, key);
      DistinctRootsDistinctPaths(o.diskCachePath, Object, o.env.digest, key, v.diskCachePath, Voice, v.env.digest, key);
      DistinctRootsDistinctPaths(i.diskCachePath, Image, i.env.digest, key, v.diskCachePath, Voice, v.env.digest, key);
    }
  }

  /** Two stores of the same key on one voice store, drained with both
      writes succeeding: the file holds the second payload. */
  method StoreTwiceSameKey<V, I>(c: DiskCache<V, I>, key: string, first: Bytes, second: Bytes)
    requires c.Valid() && c.storeType == Voice && c.queue == [] && !c.host.crashed
    modifies c, c.host
    ensures FileAt(c.host.Snapshot(), c.CachePathForKey(key)) == Some(second)
    ensures c.host.fired == old(c.host.fired) + [0, 1]
  {
    var path := c.CachePathForKey(key);
    var j1 := Job(key, path, VoicePayload(first), Some(0));
    var j2 := Job(key, path, VoicePayload(second), Some(1));
    assert Enqueued(Voice, key, path, None, None, Some(first), Some(0)) == [j1];
    c.Store(key, None, None, Some(first), Some(0));
    assert Enqueued(Voice, key, path, None, None, Some(second), Some(1)) == [j2];
    c.Store(key, None, None, Some(second), Some(1));
    assert c.queue == [j1] + [j2];
    ghost var w0 := c.host.Snapshot();
    c.Drain([true, true]);
    TwoCompletedWrites(c.env, j1, j2, w0);
    HandlersOfPair(j1, j2);
  }
}
