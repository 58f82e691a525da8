# ELDiskCache in Dafny

A model of `ELDiskCache`, the on-disk cache of ELCache. The cache keeps three
content categories (`CacheFor`: object, image, voice). Each category has its
own store, and each store has its own directory and its own serial I/O queue.

- `Paths.dfy` covers path derivation. The category directory is the caches
  directory joined with `com.el.eldisk.cache.` plus the category's raw value
  (`ELObject`, `ELImage`, `ELVoice`). A key's file is that directory joined
  with the key's digest. Voice files get `.wav` appended.
- `IoQueue.dfy` covers the jobs and what they do:
  - `Enqueued` gives the job that `store` submits for each category.
  - `Run` runs one job; `RunAll` runs a queue one job at a time, in
    submission order.
  - A job ends as `Completed` (file written, handler called), `Dropped` or
    `Fatal`.
  - Lemmas prove ordering (last writer wins), the frame of a job (only its
    own path changes), isolation between categories, handler timing and the
    failure rules.
- `DiskCache.dfy` is the imperative side:
  - `Host` holds the file map, the directories created, the handlers called
    and the terminated flag.
  - `DiskCache` is a store. Its fields are the category, the root and a
    `seq` of pending jobs. `Store` appends to the queue. `Step` and `Drain`
    run the queue, and each is proved equal to `Run` and `RunAll`.
  - `Registry` holds the three shared instances.
- `Wrappers.dfy` holds `Option`.

The collaborators the cache calls but does not define are inputs, grouped in
`IoQueue.Env`:
- The key digest (`zz_MD5`) is a `Hasher`, an uninterpreted function whose
  output contains no `/`. It is not assumed injective.
- The keyed archiver is an opaque function of the value and the key. It
  yields no bytes for a value it cannot archive.
- The JPEG encoder of the normalised image is an opaque function that may
  yield no bytes.

Whether the file system accepts a write, or a directory creation, is a
boolean given to each operation. `fatalError` sets `Host.crashed`. A
terminated process runs no further job.

Three behaviours of the code shape the model:
- An object store submits a job even when `value` is nil
  (ELCache/ELDiskCache.swift:134-135). Only an image store without an image,
  or a voice store without data, does nothing.
- A failed object write is printed and dropped
  (ELCache/ELDiskCache.swift:84-89). A failed image or voice write calls
  `fatalError` (ELCache/ELDiskCache.swift:104-106 and :121-123).
- The archiver's `encode` is not a throwing call
  (ELCache/ELDiskCache.swift:81). A value it cannot archive raises an
  exception that the `do`/`catch` does not catch, so the process
  terminates.

## Model

| member | source | states |
|---|---|---|
| `Paths.LastComponent` | ELCache/ELDiskCache.swift:158 | the last path component never contains a separator |
| `Paths.Join` | ELCache/ELDiskCache.swift:158 | `appendingPathComponent`: the result starts with the directory and a separator; a separator-free name becomes the last component, directly below the directory |
| `Paths.LastComponentOfJoin` | ELCache/ELDiskCache.swift:158 | appending a separator-free component makes it the last component of the path |
| `Paths.JoinInjective` | ELCache/ELDiskCache.swift:158 | two appended paths are equal iff their directories and their components are equal |
| `Paths.RootName` | ELCache/ELDiskCache.swift:35 | `cacheName` is a single path component: it contains no separator |
| `Paths.RootPath` | ELCache/ELDiskCache.swift:37-38 | `diskCachePath` lies directly below the caches directory, and its last component is `cacheName` |
| `Paths.FileName` | ELCache/ELDiskCache.swift:151-156 | the file name starts with the digest; it is the bare digest iff the category is not voice; it adds no separator to a separator-free digest |
| `Paths.ResolvePath` | ELCache/ELDiskCache.swift:147-158 | a key's path lies directly in the root: the root, a separator, then exactly the file name of the key's digest as the last component |
| `Paths.RootLastComponent` | ELCache/ELDiskCache.swift:35-38 | the last component of a store's directory is `com.el.eldisk.cache.` followed by the category's raw value |
| `Paths.RootNamesDistinct` | ELCache/ELDiskCache.swift:16-19 | the three directory names are equal iff the categories are |
| `Paths.RootPathsDistinct` | ELCache/ELDiskCache.swift:35-38 | under one caches directory, two category directories are equal iff the categories are |
| `Paths.ResolvedFileName` | ELCache/ELDiskCache.swift:147-158 | a key's path is the root, a separator and its last component, with nothing in between; that component is the digest plus `.wav` for voice, and the bare digest for object and image |
| `Paths.SameStorePathsIff` | ELCache/ELDiskCache.swift:147-158 | within one store, two keys resolve to the same path iff their digests are equal |
| `Paths.DistinctRootsDistinctPaths` | ELCache/ELDiskCache.swift:158 | files resolved in two different directories are different paths |
| `Paths.DistinctCategoriesDistinctPaths` | ELCache/ELDiskCache.swift:147-158 | stores of different categories never resolve any two keys to the same path |
| `IoQueue.Enqueued` | ELCache/ELDiskCache.swift:128-140 | `store` submits at most one job. It submits none iff the image store gets no image or the voice store gets no data. The job has the key, the resolved path, the handler and the payload argument of the store's category |
| `IoQueue.EnqueuedIgnoresOtherPayloads` | ELCache/ELDiskCache.swift:129-140 | the payload arguments that do not match the store's category do not affect what is submitted |
| `IoQueue.Encode` | ELCache/ELDiskCache.swift:79-82 | the bytes a job writes: the archive of the value and key, the JPEG of the image, or the voice data as given; only voice always has bytes |
| `IoQueue.OutcomeOf` | ELCache/ELDiskCache.swift:84-89 | a job completes iff its payload encodes and the write succeeds; it is fatal iff an object cannot be archived, an encoded image fails to write, or a voice write fails |
| `IoQueue.Run` | ELCache/ELDiskCache.swift:77-126 | a terminated process runs nothing; no file but the job's own changes; the process terminates iff the outcome is fatal; a completed job leaves its encoded bytes at its path and then calls its handler; any other outcome changes no file and calls no handler |
| `IoQueue.RunAll` | ELCache/ELDiskCache.swift:78 | running the serial queue only appends handler calls, and termination persists |
| `IoQueue.RunFrame` | ELCache/ELDiskCache.swift:77-126 | running a job leaves the file at every other path unchanged |
| `IoQueue.HandlerOnlyAfterWrite` | ELCache/ELDiskCache.swift:84-89 | the handler runs only after the job's bytes are at its path; a successful write always stores the bytes and calls the handler |
| `IoQueue.ObjectWriteFailureDropped` | ELCache/ELDiskCache.swift:84-89 | a failed write of an archived object is dropped: no file change, no handler, no termination |
| `IoQueue.ImageWithoutBytesDropped` | ELCache/ELDiskCache.swift:101-109 | an image whose encoder yields no bytes changes nothing and calls no handler |
| `IoQueue.FatalOnlyTerminates` | ELCache/ELDiskCache.swift:104-106 | a fatal job only terminates the process: no file is written and no handler is called |
| `IoQueue.ObjectFatalOnlyWhenUnarchivable` | ELCache/ELDiskCache.swift:79-89 | an object job terminates the process iff its value cannot be archived, whatever the write would do |
| `IoQueue.CrashIsTerminal` | ELCache/ELDiskCache.swift:104-106 | after termination no queued job changes anything |
| `IoQueue.RunAllAppend` | ELCache/ELDiskCache.swift:36 | running a queue in two parts equals running it whole, in submission order |
| `IoQueue.RunAllFrame` | ELCache/ELDiskCache.swift:128 | a file no queued job resolves to is unchanged by running the queue |
| `IoQueue.LastWriterWins` | ELCache/ELDiskCache.swift:77-126 | once a job to a path completes, the file holds its bytes until a later job to the same path runs |
| `IoQueue.SecondWriteWins` | ELCache/ELDiskCache.swift:119-126 | two jobs to one path, the second completing: the file holds the second job's bytes |
| `IoQueue.AllComplete` | ELCache/ELDiskCache.swift:77-126 | when every write succeeds and every payload encodes, the process survives and every handler is called once, in submission order |
| `IoQueue.TwoCompletedWrites` | ELCache/ELDiskCache.swift:119-126 | two successful writes to one path: the file holds the second job's bytes, and both handlers are called in order |
| `IoQueue.CategoriesIsolated` | ELCache/ELDiskCache.swift:33-38 | running one store's jobs leaves every file of another category's store unchanged |
| `IoQueue.RewriteIdempotent` | ELCache/ELDiskCache.swift:119-126 | storing the same job again leaves the files byte-identical |
| `Cache.Host.CreateDirectory` | ELCache/ELDiskCache.swift:42-46 | a successful creation records the directory; a failure has no effect |
| `Cache.Host.WriteFile` | ELCache/ELDiskCache.swift:85 | a successful write replaces the whole file at the path; a failed one changes nothing |
| `Cache.Host.CallHandler` | ELCache/ELDiskCache.swift:86 | `completeHandler?()` appends the handler when there is one and does nothing otherwise |
| `Cache.Host.FatalError` | ELCache/ELDiskCache.swift:105 | `fatalError` terminates the process |
| `Cache.DiskCache.constructor` | ELCache/ELDiskCache.swift:33-48 | the root is the caches directory joined with prefix and raw value; the queue is empty; the directory is recorded only if its creation succeeds; no file changes |
| `Cache.DiskCache.CachePathForKey` | ELCache/ELDiskCache.swift:147-158 | a key's file lies directly in the store's root, and its name is the file name of the key's digest |
| `Cache.DiskCache.CachePathForKeyShape` | ELCache/ELDiskCache.swift:147-158 | a key's path is the store's root, a separator and one component; the component is the digest, with `.wav` for the voice store only |
| `Cache.DiskCache.Store` | ELCache/ELDiskCache.swift:68-141 | the queue grows by exactly the jobs of `Enqueued`; no file or handler changes before the queue runs |
| `Cache.DiskCache.Append` | ELCache/ELDiskCache.swift:78 | `ioQueue.async` puts the job behind every pending one and keeps every pending job resolved in this store |
| `Cache.DiskCache.RunJob` | ELCache/ELDiskCache.swift:77-126 | executing one queued block changes the host exactly as `Run` says |
| `Cache.DiskCache.Step` | ELCache/ELDiskCache.swift:78 | the oldest pending job runs and leaves the queue; an empty queue or terminated process changes nothing; the queue keeps every job resolved in this store |
| `Cache.DiskCache.Drain` | ELCache/ELDiskCache.swift:36 | the host ends as `RunAll` of the pending jobs in submission order; the queue is empty unless the process terminated |
| `Cache.Registry.constructor` | ELCache/ELDiskCache.swift:12-14 | three fresh stores, one per category, under one caches directory, with one host and one set of collaborators (digest, archiver, encoder), and empty queues |
| `Cache.Registry.SharedPathsDistinct` | ELCache/ELDiskCache.swift:50-58 | the same key resolves to three different paths in the three shared stores |
| `Cache.StoreTwiceSameKey` | ELCache/ELDiskCache.swift:119-126 | storing two payloads under one key on the voice store and then draining leaves the second payload in the file, after calling both handlers in order |

## Left out

- The image normalisation (`el_normalizedImage`) and the JPEG encoding at quality 0.9. Both are UIKit and floating point. Their combined result is the opaque `Env.jpeg`, which may yield no bytes.
- `NSKeyedArchiver`, a foreign archive format. It is the opaque `Env.archive` of the value and the key, with no bytes for a value it cannot archive. The archive and its decoding are opaque, so reading a stored object back is not modelled. The cache has no read operation anyway.
- Env.archive: archives the value as it was when `store` was called. The source archives inside the queued block (ELCache/ELDiskCache.swift:78-82), so a reference-type value that is changed after `store` returns is archived in its later state. The model keeps no mutable values.
- `zz_MD5` is not part of this model. It is the uninterpreted `Hasher`; only "no `/` in the output" is assumed.
- `NSSearchPathForDirectoriesInDomains`: the caches directory is a parameter.
- `Paths.Join`: models `appendingPathComponent` for a directory without a trailing `/`. NSString's other normalisations are not modelled.
- `Cache.Host.CreateDirectory`: records only the store's own directory, not the intermediate directories it may also create. A write does not check that its directory exists; write success is an input.
- Real threads. `DispatchQueue` is modelled only as its FIFO discipline: one store's queue is run one job at a time by `Step`/`Drain`. Interleavings between the three queues and the calling threads are not modelled. The `sync` block in `init` is the constructor's last step.
- `print` of a failed object write. It leaves no trace in the model.
- Process termination itself. It is the `crashed` flag, after which nothing runs.
- Completion handlers are numbers. Calling one appends it to `Host.fired`.
- Lazy creation of the three globals. `Registry` builds them eagerly.
- `ioQueueName` is only the queue's label, and `defaultCacheName` is never used; neither affects behaviour.
