/**
 * The embedding cache: a persist directory holding a FAISS index and a
 * `doc_hash.json` record of the fingerprint it was built from. Building is
 * skipped when the saved fingerprint equals the fingerprint of the new chunks.
 * MD5 and the embedding backend are parameters: `md5(t)` stands for the hex
 * MD5 digest of the UTF-8 bytes of `t`, and a `BuildOutcome` says how the
 * embedding and the save went.
 */
module Embeddings {
  import opened Wrappers
  import opened Documents

  /** A hex digest string. */
  type Digest = string

  /** The text a batch is fingerprinted by: the page contents, concatenated with no separator. */
  function Combined(chunks: seq<Doc>): string
    decreases |chunks|
  {
    if chunks == [] then "" else chunks[0].pageContent + Combined(chunks[1..])
  }

  /** Concatenating two batches concatenates their texts. */
  lemma {:induction false} CombinedAppend(a: seq<Doc>, b: seq<Doc>)
    ensures Combined(a + b) == Combined(a) + Combined(b)
    decreases |a|
  {
    if a != [] {
      assert (a + b)[0] == a[0] && (a + b)[1..] == a[1..] + b;
      CombinedAppend(a[1..], b);
      assert Combined(a + b) == a[0].pageContent + Combined(a[1..] + b);
    } else {
      assert a + b == b;
    }
  }

  /** The combined text is a function of the page contents alone. */
  lemma {:induction false} CombinedOfContents(a: seq<Doc>, b: seq<Doc>)
    requires Contents(a) == Contents(b)
    ensures Combined(a) == Combined(b)
    decreases |a|
  {
    if a != [] {
      assert |b| == |a| && a[0].pageContent == b[0].pageContent;
      assert Contents(a[1..]) == Contents(a)[1..] == Contents(b)[1..] == Contents(b[1..]);
      CombinedOfContents(a[1..], b[1..]);
    }
  }

  /** `_hash_documents`. */
  function HashDocuments(chunks: seq<Doc>, md5: string -> Digest): Digest {
    md5(Combined(chunks))
  }

  /** Metadata never reaches the fingerprint: batches with the same page contents hash alike. */
  lemma HashIgnoresMetadata(a: seq<Doc>, b: seq<Doc>, md5: string -> Digest)
    requires Contents(a) == Contents(b)
    ensures HashDocuments(a, md5) == HashDocuments(b, md5)
  {
    CombinedOfContents(a, b);
  }

  /** Chunk boundaries never reach the fingerprint either: ["ab", "c"] and ["a", "bc"] hash alike. */
  lemma HashIgnoresBoundaries(m1: Metadata, m2: Metadata, m3: Metadata, m4: Metadata, md5: string -> Digest)
    ensures HashDocuments([Doc("ab", m1), Doc("c", m2)], md5) == HashDocuments([Doc("a", m3), Doc("bc", m4)], md5)
  {
    assert Combined([Doc("c", m2)]) == "c";
    assert Combined([Doc("bc", m4)]) == "bc";
    assert Combined([Doc("ab", m1), Doc("c", m2)]) == "abc";
    assert Combined([Doc("a", m3), Doc("bc", m4)]) == "abc";
  }

  /** The embedding model `create_vectorstore` uses unless told otherwise. */
  const DefaultEmbeddingModel: string := "gemini-embedding-001"

  const HashFileName: string := "doc_hash.json"
  const IndexFileNames: set<string> := {"index.faiss", "index.pkl"}

  /**
   * The content of `doc_hash.json`: its `"hash"` and `"model"` entries
   * (`None` when absent), or text `json.load` cannot turn into an object.
   */
  datatype HashRecord =
    | Record(hash: Option<Digest>, model: Option<string>)
    | Unreadable

  /** A saved FAISS index: the chunks it was built from and the model that embedded them. */
  datatype Index = Index(chunks: seq<Doc>, model: string)

  /** A persist directory: the record file, the index files and any other entries. */
  datatype Dir = Dir(record: Option<HashRecord>, index: Option<Index>, others: set<string>)

  /**
   * A directory the file system can hold: an entry of `others` never has the
   * record's or the index files' name, since those are `record` and `index`.
   */
  predicate WellFormed(dir: Option<Dir>) {
    dir.Some? ==> HashFileName !in dir.value.others && IndexFileNames !! dir.value.others
  }

  /** The names `os.listdir` reports for a directory. */
  function Listing(d: Dir): (names: set<string>)
    ensures d.record.Some? ==> HashFileName in names
    ensures d.index.Some? ==> IndexFileNames <= names
    ensures d.others <= names
  {
    (if d.record.Some? then {HashFileName} else {})
    + (if d.index.Some? then IndexFileNames else {})
    + d.others
  }

  /** `vectorstore_exists`: the directory exists (`dir` is not `None`) and lists something. */
  predicate VectorstoreExists(dir: Option<Dir>) {
    dir.Some? && |Listing(dir.value)| > 0
  }

  /** A directory counts as a vector store exactly when it holds a record, an index or anything else. */
  lemma VectorstoreExistsIff(dir: Option<Dir>)
    ensures VectorstoreExists(dir) <==>
      dir.Some? && (dir.value.record.Some? || dir.value.index.Some? || dir.value.others != {})
  {
    if dir.Some? {
      var d := dir.value;
      if d.record.Some? {
        assert HashFileName in Listing(d);
      } else if d.index.Some? {
        assert "index.faiss" in Listing(d);
      } else if d.others != {} {
        var x :| x in d.others;
        assert x in Listing(d);
      } else {
        assert Listing(d) == {};
      }
    }
  }

  /** `os.makedirs(persist_dir, exist_ok=True)`. */
  function MakeDirs(dir: Option<Dir>): (d: Dir)
    ensures dir.Some? ==> d == dir.value
    ensures dir.None? ==> d == Dir(None, None, {})
  {
    if dir.Some? then dir.value else Dir(None, None, {})
  }

  /** How building and saving a new index goes, as the embedding backend and disk decide. */
  datatype BuildOutcome =
    | Built                                            // embeddings computed and the index saved
    | EmbedFailed(message: string)                     // the embedding backend raised: nothing written
    | SaveFailed(message: string, left: Option<Index>) // `save_local` raised, leaving `left` on disk

  datatype CreateError =
    | RecordUnreadable              // `json.load` raised on the record file
    | EmbeddingError(message: string)
    | SaveError(message: string)

  /** How `create_vectorstore` ends: it returns on a cache hit, returns after building, or raises. */
  datatype CreateResult = CacheHit | Rebuilt | Failed(error: CreateError)

  /** The saved record names the given fingerprint (the `"model"` entry is not consulted). */
  predicate RecordMatches(record: Option<HashRecord>, newHash: Digest) {
    record.Some? && record.value.Record? && record.value.hash == Some(newHash)
  }

  /** The result of `create_vectorstore` and the directory it leaves behind. */
  function CreateEffect(dir: Option<Dir>, chunks: seq<Doc>, modelName: string,
                        md5: string -> Digest, build: BuildOutcome): (CreateResult, Dir)
  {
    var d := MakeDirs(dir);
    var newHash := HashDocuments(chunks, md5);
    if d.record == Some(Unreadable) then (Failed(RecordUnreadable), d)
    else if RecordMatches(d.record, newHash) then (CacheHit, d)
    else
      match build
      case EmbedFailed(m) => (Failed(EmbeddingError(m)), d)
      case SaveFailed(m, left) => (Failed(SaveError(m)), d.(index := left))
      case Built =>
        (Rebuilt, d.(index := Some(Index(chunks, modelName)),
                     record := Some(Record(Some(newHash), Some(modelName)))))
  }

  /** The file system seen by the pipeline: the vector store's persist directory, if it exists. */
  class Storage {
    var dir: Option<Dir>

    predicate Valid()
      reads this
    {
      WellFormed(dir)
    }

    constructor (initial: Option<Dir>)
      requires WellFormed(initial)
      ensures dir == initial && Valid()
    {
      dir := initial;
    }

    /** `create_vectorstore(chunks, persist_dir, model_name)`. */
    method CreateVectorstore(chunks: seq<Doc>, modelName: string, md5: string -> Digest, build: BuildOutcome)
      returns (r: CreateResult)
      requires Valid()
      modifies this
      ensures Valid()
      ensures var (result, after) := CreateEffect(old(dir), chunks, modelName, md5, build);
        r == result && dir == Some(after)
    {
      if dir == None {
        dir := Some(Dir(None, None, {}));
      }
      var newHash := HashDocuments(chunks, md5);
      var d := dir.value;
      if d.record.Some? {
        match d.record.value {
          case Unreadable =>
            return Failed(RecordUnreadable);
          case Record(saved, _) =>
            if saved == Some(newHash) {
              return CacheHit;
            }
        }
      }
      match build {
        case EmbedFailed(m) =>
          return Failed(EmbeddingError(m));
        case SaveFailed(m, left) =>
          dir := Some(d.(index := left));
          return Failed(SaveError(m));
        case Built =>
          dir := Some(d.(index := Some(Index(chunks, modelName))));
          dir := Some(dir.value.(record := Some(Record(Some(newHash), Some(modelName)))));
          return Rebuilt;
      }
    }
  }

  // -----------------------------------------------------------------------
  // Properties of the cache
  // -----------------------------------------------------------------------

  /**
   * On a matching record nothing is computed or written: the outcome is the
   * same whatever the embedding backend would do and whatever model is named.
   */
  lemma CacheHitDoesNoWork(dir: Option<Dir>, chunks: seq<Doc>, m1: string, m2: string,
                           md5: string -> Digest, b1: BuildOutcome, b2: BuildOutcome)
    requires dir.Some? && RecordMatches(dir.value.record, HashDocuments(chunks, md5))
    ensures CreateEffect(dir, chunks, m1, md5, b1) == CreateEffect(dir, chunks, m2, md5, b2) == (CacheHit, dir.value)
  {
  }

  /** The `"model"` entry is ignored: a record written for another model still counts as a hit. */
  lemma ModelNotChecked(d: Dir, chunks: seq<Doc>, oldModel: string, newModel: string,
                        md5: string -> Digest, build: BuildOutcome)
    requires d.record == Some(Record(Some(HashDocuments(chunks, md5)), Some(oldModel)))
    ensures CreateEffect(Some(d), chunks, newModel, md5, build).0 == CacheHit
  {
  }

  /** A successful build saves an index of exactly these chunks and a record naming hash and model. */
  lemma RebuiltWritesRecord(dir: Option<Dir>, chunks: seq<Doc>, modelName: string,
                            md5: string -> Digest, build: BuildOutcome)
    requires CreateEffect(dir, chunks, modelName, md5, build).0 == Rebuilt
    ensures var after := CreateEffect(dir, chunks, modelName, md5, build).1;
      && build == Built
      && !RecordMatches(MakeDirs(dir).record, HashDocuments(chunks, md5))
      && after.index == Some(Index(chunks, modelName))
      && after.record == Some(Record(Some(HashDocuments(chunks, md5)), Some(modelName)))
      && after.others == MakeDirs(dir).others
      && VectorstoreExists(Some(after))
  {
    VectorstoreExistsIff(Some(CreateEffect(dir, chunks, modelName, md5, build).1));
  }

  /** `create_vectorstore` adds no entry to the directory besides its record and index files. */
  lemma CreateKeepsWellFormed(dir: Option<Dir>, chunks: seq<Doc>, modelName: string,
                              md5: string -> Digest, build: BuildOutcome)
    requires WellFormed(dir)
    ensures var after := CreateEffect(dir, chunks, modelName, md5, build).1;
      WellFormed(Some(after)) && after.others == MakeDirs(dir).others
  {
  }

  /**
   * Once a call has returned normally, a second call with the same chunks does
   * no work and changes nothing, whatever model and backend it is given.
   */
  lemma CreateIdempotent(dir: Option<Dir>, chunks: seq<Doc>, m1: string, m2: string,
                         md5: string -> Digest, b1: BuildOutcome, b2: BuildOutcome)
    requires !CreateEffect(dir, chunks, m1, md5, b1).0.Failed?
    ensures var after := CreateEffect(dir, chunks, m1, md5, b1).1;
      CreateEffect(Some(after), chunks, m2, md5, b2) == (CacheHit, after)
  {
  }

  /**
   * A failed build leaves the record as it was, so the next call still sees the
   * old fingerprint, whatever the interrupted save left in the index files.
   */
  lemma FailureKeepsRecord(dir: Option<Dir>, chunks: seq<Doc>, modelName: string,
                           md5: string -> Digest, build: BuildOutcome)
    requires CreateEffect(dir, chunks, modelName, md5, build).0.Failed?
    ensures CreateEffect(dir, chunks, modelName, md5, build).1.record == MakeDirs(dir).record
    ensures build.EmbedFailed? || CreateEffect(dir, chunks, modelName, md5, build).0.error == RecordUnreadable ==>
      CreateEffect(dir, chunks, modelName, md5, build).1 == MakeDirs(dir)
  {
  }
}
