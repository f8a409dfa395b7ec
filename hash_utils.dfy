/**
 * `hash_files`: one SHA-256 digest over the contents of a list of files,
 * read in sorted path order so that the order of the list does not matter.
 * SHA-256 is a parameter: `sha256(bytes)` stands for the hex digest of the
 * bytes. A file system is a map from path to contents; a path missing from
 * it cannot be opened.
 */
module HashUtils {
  import opened Wrappers
  import opened Text

  // -----------------------------------------------------------------------
  // Path order
  // -----------------------------------------------------------------------

  /** Python's `<=` on strings: lexicographic by code point. */
  predicate StrLe(a: string, b: string)
    decreases |a|
  {
    a == [] || (b != [] && (a[0] < b[0] || (a[0] == b[0] && StrLe(a[1..], b[1..]))))
  }

  lemma {:induction false} StrLeTotal(a: string, b: string)
    ensures StrLe(a, b) || StrLe(b, a)
    decreases |a|
  {
    if a != [] && b != [] && a[0] == b[0] {
      StrLeTotal(a[1..], b[1..]);
    }
  }

  lemma {:induction false} StrLeAntisymmetric(a: string, b: string)
    requires StrLe(a, b) && StrLe(b, a)
    ensures a == b
    decreases |a|
  {
    if a != [] {
      StrLeAntisymmetric(a[1..], b[1..]);
      assert a == [a[0]] + a[1..] && b == [b[0]] + b[1..];
    }
  }

  lemma {:induction false} StrLeTransitive(a: string, b: string, c: string)
    requires StrLe(a, b) && StrLe(b, c)
    ensures StrLe(a, c)
    decreases |a|
  {
    if a != [] && a[0] == b[0] && b[0] == c[0] {
      StrLeTransitive(a[1..], b[1..], c[1..]);
    }
  }

  predicate Sorted(s: seq<string>) {
    forall i, j :: 0 <= i < j < |s| ==> StrLe(s[i], s[j])
  }

  /** Insert `x` into a sorted sequence after every path not above it. */
  function Insert(x: string, s: seq<string>): (r: seq<string>)
    requires Sorted(s)
    ensures Sorted(r)
    ensures multiset(r) == multiset(s) + multiset{x}
    decreases |s|
  {
    if s == [] then [x]
    else if StrLe(x, s[0]) then
      InsertFront(x, s);
      [x] + s
    else
      var rest := Insert(x, s[1..]);
      StrLeTotal(x, s[0]);
      InsertBehind(x, s, rest);
      assert s == [s[0]] + s[1..];
      [s[0]] + rest
  }

  lemma InsertFront(x: string, s: seq<string>)
    requires Sorted(s) && s != [] && StrLe(x, s[0])
    ensures Sorted([x] + s)
  {
    forall j | 0 <= j < |s|
      ensures StrLe(x, s[j])
    {
      if j > 0 {
        StrLeTransitive(x, s[0], s[j]);
      }
    }
    var r := [x] + s;
    forall i, j | 0 <= i < j < |r|
      ensures StrLe(r[i], r[j])
    {
      assert r[j] == s[j - 1];
      if i > 0 {
        assert r[i] == s[i - 1];
      }
    }
  }

  lemma InsertBehind(x: string, s: seq<string>, rest: seq<string>)
    requires Sorted(s) && s != [] && StrLe(s[0], x)
    requires Sorted(rest) && multiset(rest) == multiset(s[1..]) + multiset{x}
    ensures Sorted([s[0]] + rest)
  {
    forall j | 0 <= j < |rest|
      ensures StrLe(s[0], rest[j])
    {
      assert rest[j] in multiset(rest);
      if rest[j] != x {
        assert rest[j] in multiset(s[1..]);
        var k :| 0 <= k < |s[1..]| && s[1..][k] == rest[j];
        assert s[k + 1] == rest[j];
      }
    }
  }

  /** `sorted(files)`: the same paths, duplicates kept, in ascending order. */
  function SortedPaths(files: seq<string>): (r: seq<string>)
    ensures Sorted(r)
    ensures multiset(r) == multiset(files)
    decreases |files|
  {
    if files == [] then []
    else
      assert files == [files[0]] + files[1..];
      Insert(files[0], SortedPaths(files[1..]))
  }

  /** There is only one sorted arrangement of a multiset of paths. */
  lemma {:induction false} SortedUnique(a: seq<string>, b: seq<string>)
    requires Sorted(a) && Sorted(b) && multiset(a) == multiset(b)
    ensures a == b
    decreases |a|
  {
    if a == [] {
      assert |b| == |multiset(b)| == 0;
    } else {
      assert |b| == |multiset(b)| == |a|;
      SameLeast(a, b);
      SameRest(a, b);
      assert Sorted(a[1..]) && Sorted(b[1..]);
      SortedUnique(a[1..], b[1..]);
      assert a == [a[0]] + a[1..] && b == [b[0]] + b[1..];
    }
  }

  /** Two sorted arrangements of one multiset start with the same path. */
  lemma SameLeast(a: seq<string>, b: seq<string>)
    requires Sorted(a) && Sorted(b) && multiset(a) == multiset(b) && a != [] && b != []
    ensures a[0] == b[0]
  {
    assert a[0] in multiset(b) && b[0] in multiset(a);
    var i :| 0 <= i < |b| && b[i] == a[0];
    var j :| 0 <= j < |a| && a[j] == b[0];
    if i == 0 {
      return;
    }
    assert StrLe(b[0], a[0]);
    assert StrLe(a[0], b[0]) by {
      if j > 0 { assert StrLe(a[0], a[j]); } else { StrLeTotal(a[0], a[0]); }
    }
    StrLeAntisymmetric(a[0], b[0]);
  }

  /** Removing an equal first path leaves equal multisets. */
  lemma SameRest(a: seq<string>, b: seq<string>)
    requires multiset(a) == multiset(b) && a != [] && b != [] && a[0] == b[0]
    ensures multiset(a[1..]) == multiset(b[1..])
  {
    assert a == [a[0]] + a[1..] && b == [b[0]] + b[1..];
    assert multiset(a[1..]) == multiset(a) - multiset{a[0]};
    assert multiset(b[1..]) == multiset(b) - multiset{b[0]};
  }

  /** Sorting depends only on which paths are listed, not on their order. */
  lemma SortedPathsOrderIndependent(a: seq<string>, b: seq<string>)
    requires multiset(a) == multiset(b)
    ensures SortedPaths(a) == SortedPaths(b)
  {
    SortedUnique(SortedPaths(a), SortedPaths(b));
  }

  // -----------------------------------------------------------------------
  // The incremental hasher
  // -----------------------------------------------------------------------

  /** A `hashlib.sha256()` object: the digest depends on all the bytes fed so far, in order. */
  class Hasher {
    var fed: seq<Byte>

    constructor ()
      ensures fed == []
    {
      fed := [];
    }

    /** `hasher.update(data)`. */
    method Update(data: seq<Byte>)
      modifies this
      ensures fed == old(fed) + data
    {
      fed := fed + data;
    }

    /** `hasher.hexdigest()`. */
    function HexDigest(sha256: seq<Byte> -> string): (d: string)
      reads this
      ensures d == sha256(fed)
    {
      sha256(fed)
    }
  }

  // -----------------------------------------------------------------------
  // hash_files
  // -----------------------------------------------------------------------

  /** The first of `paths` the file system has no file for. */
  function FirstMissing(paths: seq<string>, fs: map<string, seq<Byte>>): (m: Option<string>)
    ensures m.None? <==> forall p :: p in paths ==> p in fs
    ensures m.Some? ==> m.value in paths && m.value !in fs
    decreases |paths|
  {
    if paths == [] then None
    else if paths[0] !in fs then Some(paths[0])
    else
      assert forall p :: p in paths <==> p == paths[0] || p in paths[1..];
      FirstMissing(paths[1..], fs)
  }

  /** The contents of `paths`, one file after another, with nothing between them. */
  function Concatenated(paths: seq<string>, fs: map<string, seq<Byte>>): seq<Byte>
    requires forall p :: p in paths ==> p in fs
    decreases |paths|
  {
    if paths == [] then [] else fs[paths[0]] + Concatenated(paths[1..], fs)
  }

  /** The result of `hash_files`: the digest, or the first path in sorted order that cannot be opened. */
  function HashOf(files: seq<string>, fs: map<string, seq<Byte>>, sha256: seq<Byte> -> string): Result<string, string> {
    var paths := SortedPaths(files);
    match FirstMissing(paths, fs)
    case Some(p) => Failure(p)
    case None => Success(sha256(Concatenated(paths, fs)))
  }

  /** Concatenating one path more appends that file's contents. */
  lemma {:induction false} ConcatenatedSnoc(paths: seq<string>, fs: map<string, seq<Byte>>, i: nat)
    requires i < |paths| && forall p :: p in paths[..i + 1] ==> p in fs
    ensures forall p :: p in paths[..i] ==> p in fs
    ensures Concatenated(paths[..i + 1], fs) == Concatenated(paths[..i], fs) + fs[paths[i]]
    decreases i
  {
    assert forall p :: p in paths[..i] ==> p in paths[..i + 1];
    if i > 0 {
      var tail := paths[1..];
      assert paths[..i + 1][1..] == tail[..i] && paths[..i][1..] == tail[..i - 1];
      ConcatenatedSnoc(tail, fs, i - 1);
      assert paths[..i][0] == paths[0];
    } else {
      assert paths[..1][1..] == [];
    }
  }

  /** `hash_files(files)`. */
  method HashFiles(files: seq<string>, fs: map<string, seq<Byte>>, sha256: seq<Byte> -> string)
    returns (r: Result<string, string>)
    ensures r == HashOf(files, fs, sha256)
  {
    var hasher := new Hasher();
    var paths := SortedPaths(files);
    for i := 0 to |paths|
      invariant forall p :: p in paths[..i] ==> p in fs
      invariant FirstMissing(paths, fs) == FirstMissing(paths[i..], fs)
      invariant hasher.fed == Concatenated(paths[..i], fs)
    {
      var file := paths[i];
      if file !in fs {
        return Failure(file);
      }
      assert paths[i..][1..] == paths[i + 1..];
      assert forall p :: p in paths[..i + 1] ==> p in paths[..i] || p == file;
      ConcatenatedSnoc(paths, fs, i);
      hasher.Update(fs[file]);
    }
    assert paths[..|paths|] == paths;
    return Success(hasher.HexDigest(sha256));
  }

  // -----------------------------------------------------------------------
  // Properties of hash_files
  // -----------------------------------------------------------------------

  /** Listing the same files in another order, or with duplicates elsewhere, gives the same result. */
  lemma HashOrderIndependent(a: seq<string>, b: seq<string>, fs: map<string, seq<Byte>>, sha256: seq<Byte> -> string)
    requires multiset(a) == multiset(b)
    ensures HashOf(a, fs, sha256) == HashOf(b, fs, sha256)
  {
    SortedPathsOrderIndependent(a, b);
  }

  /** The result is an error exactly when some listed path has no file, and the error names such a path. */
  lemma HashFailsIff(files: seq<string>, fs: map<string, seq<Byte>>, sha256: seq<Byte> -> string)
    ensures HashOf(files, fs, sha256).Failure? <==> exists p :: p in files && p !in fs
    ensures HashOf(files, fs, sha256).Failure? ==>
      HashOf(files, fs, sha256).error in files && HashOf(files, fs, sha256).error !in fs
  {
    var paths := SortedPaths(files);
    assert forall p :: p in paths <==> p in files by {
      forall p ensures p in paths <==> p in files {
        assert p in paths <==> p in multiset(paths);
        assert p in files <==> p in multiset(files);
      }
    }
  }

  /** No files: the digest of empty input. */
  lemma HashNoFiles(fs: map<string, seq<Byte>>, sha256: seq<Byte> -> string)
    ensures HashOf([], fs, sha256) == Success(sha256([]))
  {
  }

  /** A path listed twice is read twice: its contents are hashed two times over. */
  lemma HashDuplicate(p: string, fs: map<string, seq<Byte>>, sha256: seq<Byte> -> string)
    requires p in fs
    ensures HashOf([p, p], fs, sha256) == Success(sha256(fs[p] + fs[p]))
  {
    assert StrLe(p, p) by { StrLeTotal(p, p); }
    assert SortedPaths([p]) == [p];
    assert SortedPaths([p, p]) == [p, p];
    assert Concatenated([p], fs) == fs[p];
  }

  /** Two files are hashed in path order: `["b", "a"]` hashes the contents of "a" then of "b". */
  lemma HashTwoFiles(fs: map<string, seq<Byte>>, sha256: seq<Byte> -> string)
    requires "a" in fs && "b" in fs
    ensures HashOf(["b", "a"], fs, sha256) == Success(sha256(fs["a"] + fs["b"]))
  {
    assert StrLe("a", "b") && !StrLe("b", "a");
    assert SortedPaths(["a"]) == ["a"];
    assert SortedPaths(["b", "a"]) == ["a", "b"];
    assert Concatenated(["b"], fs) == fs["b"];
  }
}
