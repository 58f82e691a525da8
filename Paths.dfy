/** Where the disk cache keeps things: the three categories, the root
    directory of each category and the file a key resolves to. */
module Paths {

  /** The content category a store is created for (`CacheFor`). */
  datatype CacheFor = Object | Image | Voice

  /** The enum's raw value, which tags the category's directory. */
  function RawValue(t: CacheFor): string
  {
    match t
    case Object => "ELObject"
    case Image => "ELImage"
    case Voice => "ELVoice"
  }

  /** `cachePrex`: the fixed prefix of every category directory. */
  const CachePrefix: string := "com.el.eldisk.cache."

  /** The suffix that voice files get, so that audio players accept them. */
  const VoiceSuffix: string := ".wav"

  /** The key digest (`zz_MD5`), kept uninterpreted: all the model knows is
      that it is a function of the key and that it never yields a path
      separator. It is NOT assumed injective. */
  type Hasher = h: string -> string | forall k :: '/' !in h(k)
    witness (k: string) => ""

  /** The last path component: everything after the last separator. */
  function LastComponent(p: string): (r: string)
    ensures '/' !in r
  {
    if p == [] || p[|p| - 1] == '/' then []
    else LastComponent(p[..|p| - 1]) + [p[|p| - 1]]
  }

  /** `appendingPathComponent` for a directory given without a trailing
      separator: the result lies in `dir`, and a separator-free name is its
      last component, directly below `dir`. */
  function Join(dir: string, name: string): (r: string)
    ensures |r| > |dir| && r[..|dir| + 1] == dir + "/"
    ensures '/' !in name ==> LastComponent(r) == name && |r| == |dir| + 1 + |name|
  {
    if '/' in name then dir + "/" + name
    else LastComponentOfJoin(dir, name); dir + "/" + name
  }

  /** `cacheName` in `init(type:)`: a single path component that starts
      with the prefix. */
  function RootName(t: CacheFor): (r: string)
    ensures '/' !in r
  {
    var r := CachePrefix + RawValue(t);
    assert '/' !in r by {
      forall i | 0 <= i < |r| ensures r[i] != '/' {
        if i < |CachePrefix| {
          assert r[i] == CachePrefix[i];
        } else {
          assert r[i] == RawValue(t)[i - |CachePrefix|];
        }
      }
    }
    r
  }

  /** `diskCachePath`: the category directory, directly below the caches
      directory and named by `RootName`. */
  function RootPath(cachesDir: string, t: CacheFor): (r: string)
    ensures LastComponent(r) == RootName(t) && |r| == |cachesDir| + 1 + |RootName(t)|
    ensures r[..|cachesDir| + 1] == cachesDir + "/"
  {
    Join(cachesDir, RootName(t))
  }

  /** The file name of a key's digest: it starts with the digest, it is the
      bare digest for every category but voice, and it adds no separator. */
  function FileName(t: CacheFor, digest: string): (r: string)
    ensures |digest| <= |r| && r[..|digest|] == digest
    ensures r == digest <==> t != Voice
    ensures '/' !in digest ==> '/' !in r
  {
    if t == Voice then
      assert |digest + VoiceSuffix| > |digest|;
      assert digest + VoiceSuffix == digest + ['.', 'w', 'a', 'v'];
      digest + VoiceSuffix
    else digest
  }

  /** `cachePathForKey`: the file lies directly in the root, and its name
      is the file name of the key's digest. */
  function ResolvePath(root: string, t: CacheFor, h: Hasher, key: string): (r: string)
    ensures LastComponent(r) == FileName(t, h(key))
    ensures |r| == |root| + 1 + |LastComponent(r)|
    ensures r[..|root| + 1] == root + "/"
  {
    Join(root, FileName(t, h(key)))
  }

  /** Appending a separator-free name makes that name the last component. */
  lemma {:induction false} LastComponentOfJoin(dir: string, name: string)
    requires '/' !in name
    ensures LastComponent(dir + "/" + name) == name
  {
    if name != [] {
      var init := name[..|name| - 1];
      assert (dir + "/" + name)[..|dir + "/" + name| - 1] == dir + "/" + init;
      LastComponentOfJoin(dir, init);
      assert name == init + [name[|name| - 1]];
    }
  }

  /** Two joins onto separator-free names agree exactly when both the
      directories and the names agree. */
  lemma JoinInjective(d1: string, n1: string, d2: string, n2: string)
    requires '/' !in n1 && '/' !in n2
    ensures Join(d1, n1) == Join(d2, n2) <==> d1 == d2 && n1 == n2
  {
    if Join(d1, n1) == Join(d2, n2) {
      assert |d1| == |d2|;
      assert d1 == Join(d1, n1)[..|d1|];
      assert d2 == Join(d2, n2)[..|d2|];
    }
  }

  /** The directory's last component is `com.el.eldisk.cache.` followed by
      the category's raw value. */
  lemma RootLastComponent(cachesDir: string, t: CacheFor)
    ensures LastComponent(RootPath(cachesDir, t)) == CachePrefix + RawValue(t)
  {
  }

  /** The three categories get three different directory names. */
  lemma RootNamesDistinct(t1: CacheFor, t2: CacheFor)
    ensures RootName(t1) == RootName(t2) <==> t1 == t2
  {
    if RootName(t1) == RootName(t2) {
      assert RawValue(t1) == RootName(t1)[|CachePrefix|..];
      assert RawValue(t2) == RootName(t2)[|CachePrefix|..];
      assert RawValue(t1)[2] == RawValue(t2)[2];
    }
  }

  /** A resolved path lies directly in the root directory, and its file name
      is the digest, with `.wav` appended for voice only. */
  lemma ResolvedFileName(root: string, t: CacheFor, h: Hasher, key: string)
    ensures ResolvePath(root, t, h, key)[..|root| + 1] == root + "/"
    ensures t == Voice ==> LastComponent(ResolvePath(root, t, h, key)) == h(key) + VoiceSuffix
    ensures t != Voice ==> LastComponent(ResolvePath(root, t, h, key)) == h(key)
    ensures |ResolvePath(root, t, h, key)| == |root| + 1 + |LastComponent(ResolvePath(root, t, h, key))|
  {
  }

  /** Within one store, two keys share a file exactly when their digests
      agree: the path depends on the key only through its digest. */
  lemma SameStorePathsIff(root: string, t: CacheFor, h: Hasher, k1: string, k2: string)
    ensures ResolvePath(root, t, h, k1) == ResolvePath(root, t, h, k2) <==> h(k1) == h(k2)
  {
    JoinInjective(root, FileName(t, h(k1)), root, FileName(t, h(k2)));
    if t == Voice && FileName(t, h(k1)) == FileName(t, h(k2)) {
      assert h(k1) == FileName(t, h(k1))[..|h(k1)|];
      assert h(k2) == FileName(t, h(k2))[..|h(k2)|];
    }
  }

  /** Files in two different directories are different files. */
  lemma DistinctRootsDistinctPaths(r1: string, t1: CacheFor, h1: Hasher, k1: string,
                                   r2: string, t2: CacheFor, h2: Hasher, k2: string)
    requires r1 != r2
    ensures ResolvePath(r1, t1, h1, k1) != ResolvePath(r2, t2, h2, k2)
  {
    JoinInjective(r1, FileName(t1, h1(k1)), r2, FileName(t2, h2(k2)));
  }

  /** Under one caches directory, the categories' directories differ. */
  lemma RootPathsDistinct(cachesDir: string, t1: CacheFor, t2: CacheFor)
    ensures RootPath(cachesDir, t1) == RootPath(cachesDir, t2) <==> t1 == t2
  {
    RootLastComponent(cachesDir, t1);
    RootLastComponent(cachesDir, t2);
    RootNamesDistinct(t1, t2);
  }

  /** Stores of different categories under one caches directory never share
      a file, whatever the keys and even were their digests to differ. */
  lemma DistinctCategoriesDistinctPaths(cachesDir: string,
                                        t1: CacheFor, h1: Hasher, k1: string,
                                        t2: CacheFor, h2: Hasher, k2: string)
    requires t1 != t2
    ensures ResolvePath(RootPath(cachesDir, t1), t1, h1, k1)
         != ResolvePath(RootPath(cachesDir, t2), t2, h2, k2)
  {
    RootPathsDistinct(cachesDir, t1, t2);
    DistinctRootsDistinctPaths(RootPath(cachesDir, t1), t1, h1, k1, RootPath(cachesDir, t2), t2, h2, k2);
  }
}
