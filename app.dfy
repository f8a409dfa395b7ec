/**
 * The Streamlit page's own logic: the fingerprint check that decides whether
 * the vector store is rebuilt, the list of cited sources shown under an
 * answer, the suggested questions parsed from a model reply, the plain-text
 * chat export, and the session state a question updates.
 */
module App {
  import opened Wrappers
  import opened Text
  import opened Seqs
  import opened Documents
  import opened ModelManager
  import opened RagChain
  import opened Embeddings

  // -----------------------------------------------------------------------
  // Fingerprint check and rebuild
  // -----------------------------------------------------------------------

  /** `hash_chunks`: the MD5 digest of the page contents joined with no separator. */
  function HashChunks(chunks: seq<Doc>, md5: string -> Digest): Digest {
    md5(Combined(chunks))
  }

  /** The page and `create_vectorstore` fingerprint a batch identically. */
  lemma HashChunksAgrees(chunks: seq<Doc>, md5: string -> Digest)
    ensures HashChunks(chunks, md5) == HashDocuments(chunks, md5)
  {
  }

  /** How pressing "Process Documents" ends. */
  datatype ProcessResult =
    | Reused                        // the record names this fingerprint: nothing is rebuilt
    | RebuiltStore                  // the store was wiped, rebuilt and the record rewritten
    | ProcessFailed(error: CreateError)

  /**
   * The fingerprint check and rebuild: the result and the persist directory
   * left behind. On a rebuild the directory is removed first, so
   * `create_vectorstore` always builds; afterwards the page overwrites the
   * record with one naming only the fingerprint.
   */
  function ProcessEffect(dir: Option<Dir>, chunks: seq<Doc>, md5: string -> Digest,
                         build: BuildOutcome): (ProcessResult, Option<Dir>)
  {
    var newHash := HashChunks(chunks, md5);
    var record := if dir.Some? then dir.value.record else None;
    if record == Some(Unreadable) then (ProcessFailed(RecordUnreadable), dir)
    else if RecordMatches(record, newHash) then (Reused, dir)
    else
      var (created, d) := CreateEffect(None, chunks, DefaultEmbeddingModel, md5, build);
      if created.Failed? then (ProcessFailed(created.error), Some(d))
      else (RebuiltStore, Some(d.(record := Some(Record(Some(newHash), None)))))
  }

  /** The page's processing step for the split chunks, against the vector store directory. */
  method ProcessDocuments(store: Storage, chunks: seq<Doc>, md5: string -> Digest, build: BuildOutcome)
    returns (r: ProcessResult)
    requires store.Valid()
    modifies store
    ensures store.Valid()
    ensures (r, store.dir) == ProcessEffect(old(store.dir), chunks, md5, build)
  {
    var newHash := HashChunks(chunks, md5);
    var rebuild := true;
    if store.dir.Some? && store.dir.value.record.Some? {
      match store.dir.value.record.value {
        case Unreadable =>
          return ProcessFailed(RecordUnreadable);
        case Record(saved, _) =>
          if saved == Some(newHash) {
            rebuild := false;
          }
      }
    }
    if !rebuild {
      return Reused;
    }
    if store.dir.Some? {
      store.dir := None;
    }
    var created := store.CreateVectorstore(chunks, DefaultEmbeddingModel, md5, build);
    if created.Failed? {
      return ProcessFailed(created.error);
    }
    store.dir := Some(store.dir.value.(record := Some(Record(Some(newHash), None))));
    return RebuiltStore;
  }

  /** The cached store is reused exactly when the saved record names the new fingerprint; then nothing changes. */
  lemma ReusedIff(dir: Option<Dir>, chunks: seq<Doc>, md5: string -> Digest, build: BuildOutcome)
    ensures ProcessEffect(dir, chunks, md5, build).0 == Reused <==>
      dir.Some? && RecordMatches(dir.value.record, HashChunks(chunks, md5))
    ensures ProcessEffect(dir, chunks, md5, build).0 == Reused ==> ProcessEffect(dir, chunks, md5, build).1 == dir
  {
  }

  /**
   * The page and `create_vectorstore` reach the same reuse decision on the
   * same directory, whatever embedding model `create_vectorstore` is given.
   */
  lemma DecisionsAgree(d: Dir, chunks: seq<Doc>, modelName: string, md5: string -> Digest,
                       b1: BuildOutcome, b2: BuildOutcome)
    ensures ProcessEffect(Some(d), chunks, md5, b1).0 == Reused <==>
      CreateEffect(Some(d), chunks, modelName, md5, b2).0 == CacheHit
    ensures ProcessEffect(Some(d), chunks, md5, b1).0 == ProcessFailed(RecordUnreadable) <==>
      CreateEffect(Some(d), chunks, modelName, md5, b2).0 == Failed(RecordUnreadable)
  {
    HashChunksAgrees(chunks, md5);
  }

  /**
   * A rebuild replaces the whole directory: the new index of these chunks
   * under the default model, a record naming only the fingerprint, and no
   * other entries.
   */
  lemma RebuildReplacesDirectory(dir: Option<Dir>, chunks: seq<Doc>, md5: string -> Digest, build: BuildOutcome)
    requires ProcessEffect(dir, chunks, md5, build).0 == RebuiltStore
    ensures build == Built
    ensures ProcessEffect(dir, chunks, md5, build).1 ==
      Some(Dir(Some(Record(Some(HashChunks(chunks, md5)), None)), Some(Index(chunks, DefaultEmbeddingModel)), {}))
  {
  }

  /**
   * A rebuild whose embedding fails has already removed the old store: no
   * record and no index remain, so no vector store is loaded afterwards.
   */
  lemma FailedRebuildLosesStore(dir: Option<Dir>, chunks: seq<Doc>, md5: string -> Digest, m: string)
    requires ProcessEffect(dir, chunks, md5, EmbedFailed(m)).0 != Reused
    requires dir == None || dir.value.record != Some(Unreadable)
    ensures ProcessEffect(dir, chunks, md5, EmbedFailed(m)) == (ProcessFailed(EmbeddingError(m)), Some(Dir(None, None, {})))
    ensures !IndexPresent(ProcessEffect(dir, chunks, md5, EmbedFailed(m)).1)
  {
  }

  /** The page's processing leaves a directory the file system can hold. */
  lemma ProcessKeepsWellFormed(dir: Option<Dir>, chunks: seq<Doc>, md5: string -> Digest, build: BuildOutcome)
    requires WellFormed(dir)
    ensures WellFormed(ProcessEffect(dir, chunks, md5, build).1)
  {
  }

  /** Processing the same chunks again after a successful step reuses the store and changes nothing. */
  lemma ProcessTwiceReuses(dir: Option<Dir>, chunks: seq<Doc>, md5: string -> Digest, b1: BuildOutcome, b2: BuildOutcome)
    requires !ProcessEffect(dir, chunks, md5, b1).0.ProcessFailed?
    ensures var after := ProcessEffect(dir, chunks, md5, b1).1;
      ProcessEffect(after, chunks, md5, b2) == (Reused, after)
  {
  }

  /** `os.path.exists(os.path.join(VECTOR_DIR, "index.faiss"))`: the condition for loading a store. */
  predicate IndexPresent(dir: Option<Dir>) {
    dir.Some? && dir.value.index.Some?
  }

  // -----------------------------------------------------------------------
  // Cited sources
  // -----------------------------------------------------------------------

  /** `str(page)`. */
  function PageText(p: PageValue): string {
    match p
    case IntPage(n) => IntToString(n)
    case TextPage(s) => s
  }

  /** A page whose text is all digits is shown one-based; any other page is shown as it is. */
  function DisplayPage(p: PageValue): PageValue {
    var t := PageText(p);
    if IsDigits(t) then IntPage(DecimalValue(t) + 1) else p
  }

  function SourceOf(doc: Doc): string {
    match doc.metadata.source
    case None => "Unknown"
    case Some(s) => s
  }

  function PageOf(doc: Doc): PageValue {
    match doc.metadata.page
    case None => TextPage("N/A")
    case Some(p) => p
  }

  /** One listed source: its file and the page as displayed. */
  datatype SourceEntry = SourceEntry(source: string, page: PageValue)

  function EntryOf(doc: Doc): SourceEntry {
    SourceEntry(SourceOf(doc), DisplayPage(PageOf(doc)))
  }

  /** The text `f"{src}-{display_page}"` a source is listed under. */
  function KeyOf(doc: Doc): string {
    SourceOf(doc) + "-" + PageText(DisplayPage(PageOf(doc)))
  }

  function KeysOf(docs: seq<Doc>): (keys: seq<string>)
    ensures |keys| == |docs|
    ensures forall i :: 0 <= i < |docs| ==> keys[i] == KeyOf(docs[i])
  {
    seq(|docs|, i requires 0 <= i < |docs| => KeyOf(docs[i]))
  }

  /** A Python dictionary from listing keys to entries, with its keys in insertion order. */
  datatype SourceTable = SourceTable(keys: seq<string>, entries: map<string, SourceEntry>)

  const EmptyTable: SourceTable := SourceTable([], map[])

  /** `table[k] = v`: a new key goes last, an existing key keeps its place and takes the new value. */
  function Put(t: SourceTable, k: string, v: SourceEntry): SourceTable {
    if k in t.entries then SourceTable(t.keys, t.entries[k := v])
    else SourceTable(t.keys + [k], t.entries[k := v])
  }

  /** The table after assigning every cited document in turn. */
  function SourceTableOf(docs: seq<Doc>): SourceTable
    decreases |docs|
  {
    if docs == [] then EmptyTable
    else
      var doc := docs[|docs| - 1];
      Put(SourceTableOf(docs[..|docs| - 1]), KeyOf(doc), EntryOf(doc))
  }

  /** The `unique_sources` loop over the documents an answer cites. */
  method UniqueSources(docs: seq<Doc>) returns (t: SourceTable)
    ensures t == SourceTableOf(docs)
  {
    t := EmptyTable;
    for i := 0 to |docs|
      invariant t == SourceTableOf(docs[..i])
    {
      assert docs[..i + 1][..i] == docs[..i];
      var doc := docs[i];
      var src := SourceOf(doc);
      var page := PageOf(doc);
      var displayPage := DisplayPage(page);
      t := Put(t, src + "-" + PageText(displayPage), SourceEntry(src, displayPage));
    }
    assert docs[..|docs|] == docs;
  }

  /**
   * The listed keys are the documents' keys, each once, in the order of their
   * first occurrence, and every listed key has an entry and no other does.
   */
  lemma {:induction false} SourceTableKeys(docs: seq<Doc>)
    ensures SourceTableOf(docs).keys == FirstOccurrences(KeysOf(docs))
    ensures forall k :: k in SourceTableOf(docs).entries <==> k in SourceTableOf(docs).keys
    decreases |docs|
  {
    if docs != [] {
      var n := |docs| - 1;
      SourceTableKeys(docs[..n]);
      assert KeysOf(docs)[..n] == KeysOf(docs[..n]);
    }
  }

  /** Each source is listed once, so duplicates among the cited chunks collapse. */
  lemma SourcesDistinct(docs: seq<Doc>)
    ensures Distinct(SourceTableOf(docs).keys)
    ensures |SourceTableOf(docs).keys| <= |docs|
    ensures forall k :: k in SourceTableOf(docs).entries <==> exists i :: 0 <= i < |docs| && KeyOf(docs[i]) == k
  {
    SourceTableKeys(docs);
    var keys := KeysOf(docs);
    forall k ensures k in SourceTableOf(docs).entries <==> exists i :: 0 <= i < |docs| && KeyOf(docs[i]) == k {
      if k in keys {
        var i :| 0 <= i < |keys| && keys[i] == k;
        assert KeyOf(docs[i]) == k;
      }
    }
  }

  /** The entry shown for a key is the one from the last cited document with that key. */
  lemma {:induction false} LastEntryWins(docs: seq<Doc>, i: nat)
    requires i < |docs|
    requires forall j :: i < j < |docs| ==> KeyOf(docs[j]) != KeyOf(docs[i])
    ensures KeyOf(docs[i]) in SourceTableOf(docs).entries
    ensures SourceTableOf(docs).entries[KeyOf(docs[i])] == EntryOf(docs[i])
    decreases |docs|
  {
    var n := |docs| - 1;
    var q, d := docs[..n], docs[n];
    assert SourceTableOf(docs) == Put(SourceTableOf(q), KeyOf(d), EntryOf(d));
    if i < n {
      assert forall j :: i < j < |q| ==> q[j] == docs[j];
      LastEntryWins(q, i);
      assert q[i] == docs[i];
      PutOther(SourceTableOf(q), KeyOf(d), EntryOf(d), KeyOf(docs[i]));
    } else {
      PutSame(SourceTableOf(q), KeyOf(d), EntryOf(d));
    }
  }

  lemma PutSame(t: SourceTable, k: string, v: SourceEntry)
    ensures k in Put(t, k, v).entries && Put(t, k, v).entries[k] == v
  {
  }

  lemma PutOther(t: SourceTable, k: string, v: SourceEntry, other: string)
    requires other != k && other in t.entries
    ensures other in Put(t, k, v).entries && Put(t, k, v).entries[other] == t.entries[other]
  {
  }

  /** A stored page number `n` (counted from zero) is shown as `n + 1`. */
  lemma DisplayPageOneBased(n: nat)
    ensures DisplayPage(IntPage(n)) == IntPage(n + 1)
    ensures DisplayPage(TextPage(NatToString(n))) == IntPage(n + 1)
  {
    DecimalRoundTrip(n);
  }

  /** A negative page number is not all digits and is shown unchanged. */
  lemma NegativePageUnchanged(n: int)
    requires n < 0
    ensures DisplayPage(IntPage(n)) == IntPage(n)
  {
  }

  /** A chunk with neither source nor page is listed as `Unknown-N/A`. */
  lemma MissingMetadata(doc: Doc)
    requires doc.metadata == Metadata(None, None)
    ensures KeyOf(doc) == "Unknown-N/A"
    ensures EntryOf(doc) == SourceEntry("Unknown", TextPage("N/A"))
  {
    assert !IsDigit("N/A"[1]);
  }

  /**
   * Keys are not injective: source "a" page "x-y" and source "a-x" page "y"
   * share the key "a-x-y", and only the later of the two is listed.
   */
  lemma KeyCollision(t1: Metadata, t2: Metadata)
    requires t1 == Metadata(Some("a"), Some(TextPage("x-y")))
    requires t2 == Metadata(Some("a-x"), Some(TextPage("y")))
    ensures SourceTableOf([Doc("", t1), Doc("", t2)]) ==
      SourceTable(["a-x-y"], map["a-x-y" := SourceEntry("a-x", TextPage("y"))])
  {
    assert !IsDigit("x-y"[1]);
    assert !IsDigit("y"[0]);
    var d1 := Doc("", t1);
    var d2 := Doc("", t2);
    var k := "a-x-y";
    var e1 := SourceEntry("a", TextPage("x-y"));
    var e2 := SourceEntry("a-x", TextPage("y"));
    assert KeyOf(d1) == k && EntryOf(d1) == e1;
    assert KeyOf(d2) == k && EntryOf(d2) == e2;
    assert [d1, d2][..1] == [d1];
    assert [d1][..0] == [];
    assert SourceTableOf([d1]) == SourceTable([k], map[k := e1]);
    assert map[k := e1][k := e2] == map[k := e2];
  }

  // -----------------------------------------------------------------------
  // Suggested questions
  // -----------------------------------------------------------------------

  /** `l.replace("-", "").strip()`: the suggestion a kept line becomes. */
  function Cleaned(line: string): (r: string)
    ensures '-' !in r && IsStripped(r)
  {
    StripKeepsOut(RemoveAll(line, '-'), '-');
    Strip(RemoveAll(line, '-'))
  }

  /** What one line contributes: nothing if it is blank, else its cleaned form. */
  function Candidate(line: string): (r: seq<string>)
    ensures |r| <= 1
    ensures forall q :: q in r ==> '-' !in q && IsStripped(q)
  {
    if Strip(line) == "" then []
    else
      var c := Cleaned(line);
      assert '-' !in c && IsStripped(c);
      [c]
  }

  /** The cleaned form of every line that is not blank, in order. */
  function Candidates(lines: seq<string>): (r: seq<string>)
    ensures |r| <= |lines|
    ensures forall q :: q in r ==> '-' !in q && IsStripped(q)
  {
    GatherBound(Candidate, lines, 1);
    Gather(Candidate, lines)
  }

  /** The parsing in `generate_suggested_questions`: at most five cleaned non-blank lines of the reply. */
  function Suggestions(content: string): (r: seq<string>)
    ensures |r| <= 5
    ensures forall q :: q in r ==> '-' !in q && IsStripped(q)
  {
    var c := Candidates(Split(content, '\n'));
    if |c| <= 5 then c else c[..5]
  }

  /** Candidates of consecutive blocks of lines are the blocks' candidates, in order. */
  lemma CandidatesAppend(a: seq<string>, b: seq<string>)
    ensures Candidates(a + b) == Candidates(a) + Candidates(b)
  {
    GatherAppend(Candidate, a, b);
  }

  /** A line of whitespace yields nothing; any other line yields exactly its cleaned form. */
  lemma CandidateOfLine(line: string)
    ensures AllSpace(line) ==> Candidates([line]) == []
    ensures !AllSpace(line) ==> Candidates([line]) == [Cleaned(line)]
  {
    assert [line][1..] == [];
    assert Candidates([line]) == Candidate(line) + Gather(Candidate, []);
  }

  /**
   * Blankness is checked before the dashes are removed, so a line holding only
   * a dash yields an empty suggestion.
   */
  lemma DashLineGivesEmpty()
    ensures Candidates(["-"]) == [""]
  {
    assert !AllSpace("-") by { assert !IsSpace("-"[0]); }
    CandidateOfLine("-");
    assert RemoveAll("-", '-') == "";
    assert AllSpace("");
    assert Cleaned("-") == Strip("") == "";
  }

  /** The suggestions are the first five candidates, in the order of the reply's lines. */
  lemma SuggestionsArePrefix(content: string)
    ensures var c := Candidates(Split(content, '\n'));
      Suggestions(content) == c[..|Suggestions(content)|] && (|c| >= 5 <==> |Suggestions(content)| == 5)
  {
    var c := Candidates(Split(content, '\n'));
    if |c| <= 5 {
      assert c[..|c|] == c;
    }
  }

  // -----------------------------------------------------------------------
  // Chat transcript
  // -----------------------------------------------------------------------

  /** One entry of `st.session_state.messages`. */
  datatype Message = Message(role: string, content: string)

  /** `f"{m['role'].upper()}: {m['content']}"`. */
  function ChatLine(m: Message): string {
    Upper(m.role) + ": " + m.content
  }

  function ChatLines(messages: seq<Message>): (lines: seq<string>)
    ensures |lines| == |messages|
    ensures forall i :: 0 <= i < |messages| ==> lines[i] == ChatLine(messages[i])
  {
    seq(|messages|, i requires 0 <= i < |messages| => ChatLine(messages[i]))
  }

  /** `export_chat_txt`: the transcript's lines separated by blank lines. */
  function ExportChatTxt(messages: seq<Message>): string {
    Join("\n\n", ChatLines(messages))
  }

  /** Appending a message appends its line, after a blank line unless it is the first. */
  lemma ExportChatAppend(messages: seq<Message>, m: Message)
    ensures ExportChatTxt(messages + [m]) ==
      if messages == [] then ChatLine(m) else ExportChatTxt(messages) + "\n\n" + ChatLine(m)
  {
    assert ChatLines(messages + [m]) == ChatLines(messages) + [ChatLine(m)];
    if messages != [] {
      JoinSnoc("\n\n", ChatLines(messages), ChatLine(m));
    }
  }

  /**
   * The pair a handled question adds appears as `USER: ...` then
   * `ASSISTANT: ...`, after a blank line unless the transcript was empty.
   */
  lemma ExportChatTurn(messages: seq<Message>, question: string, answer: string)
    ensures var turn := "USER: " + question + "\n\n" + "ASSISTANT: " + answer;
      ExportChatTxt(messages + [Message("user", question), Message("assistant", answer)]) ==
        if messages == [] then turn else ExportChatTxt(messages) + "\n\n" + turn
  {
    var u := Message("user", question);
    var a := Message("assistant", answer);
    UserLine(question);
    AssistantLine(answer);
    ExportChatAppend(messages, u);
    assert messages + [u, a] == (messages + [u]) + [a];
    ExportChatAppend(messages + [u], a);
    var turn := "USER: " + question + "\n\n" + "ASSISTANT: " + answer;
    var y := "USER: " + question + "\n\n";
    if messages == [] {
      assert y + ("ASSISTANT: " + answer) == turn;
    } else {
      var x := ExportChatTxt(messages) + "\n\n";
      assert x + ("USER: " + question) + "\n\n" + ("ASSISTANT: " + answer) == x + turn;
    }
  }

  lemma UserLine(question: string)
    ensures ChatLine(Message("user", question)) == "USER: " + question
  {
    assert Upper("user") == "USER";
  }

  lemma AssistantLine(answer: string)
    ensures ChatLine(Message("assistant", answer)) == "ASSISTANT: " + answer
  {
    assert Upper("assistant") == "ASSISTANT";
  }

  // -----------------------------------------------------------------------
  // Session state
  // -----------------------------------------------------------------------

  /** `st.session_state.stats`. */
  datatype Stats = Stats(files: nat, pages: nat, chunks: nat, questions: nat)

  /** The parts of `st.session_state` the page updates. */
  class Session {
    var stats: Stats
    var messages: seq<Message>
    var docsProcessed: bool
    var suggestions: Option<seq<string>>

    /** A fresh browser session. */
    constructor ()
      ensures stats == Stats(0, 0, 0, 0) && messages == [] && !docsProcessed && suggestions == None
    {
      stats := Stats(0, 0, 0, 0);
      messages := [];
      docsProcessed := false;
      suggestions := None;
    }

    /**
     * "Process Documents" with `files` uploads, which load into `pages` and
     * split into `chunks`: the chat and the suggestions are wiped, the
     * counts recorded, and the store checked and rebuilt if needed. Without
     * uploads the button does nothing.
     */
    method ProcessUploads(files: nat, pages: seq<Doc>, chunks: seq<Doc>, store: Storage,
                          md5: string -> Digest, build: BuildOutcome)
      returns (r: Option<ProcessResult>)
      requires store.Valid()
      modifies this, store
      ensures store.Valid()
      ensures files == 0 ==> r == None && unchanged(this) && unchanged(store)
      ensures files > 0 ==>
        && r.Some? && (r.value, store.dir) == ProcessEffect(old(store.dir), chunks, md5, build)
        && docsProcessed && messages == [] && suggestions == None
        && stats == old(stats).(files := files, pages := |pages|, chunks := |chunks|)
    {
      if files == 0 {
        return None;
      }
      docsProcessed := true;
      suggestions := None;
      messages := [];
      stats := stats.(files := files);
      stats := stats.(pages := |pages|);
      stats := stats.(chunks := |chunks|);
      var result := ProcessDocuments(store, chunks, md5, build);
      return Some(result);
    }

    /**
     * The suggestions are computed once per processing: `reply` is the
     * model's reply, or `None` when generating it raised.
     */
    method EnsureSuggestions(reply: Option<string>)
      modifies this
      ensures old(suggestions).Some? ==> suggestions == old(suggestions)
      ensures old(suggestions).None? && reply.None? ==> suggestions == Some([])
      ensures old(suggestions).None? && reply.Some? ==> suggestions == Some(Suggestions(reply.value))
      ensures stats == old(stats) && messages == old(messages) && docsProcessed == old(docsProcessed)
    {
      if suggestions.None? {
        match reply {
          case None => suggestions := Some([]);
          case Some(content) => suggestions := Some(Suggestions(content));
        }
      }
    }

    /**
     * A question typed into the chat. Nothing happens unless a store is
     * loaded, documents were processed and the question is not empty.
     * Otherwise the question is counted before `ask` runs; if `ask` raises
     * the run stops with the transcript unchanged, and otherwise the user's
     * question and the answer are appended and the cited sources returned.
     */
    method HandleQuestion(question: string, loaded: bool, pool: ProviderPool,
                          xaiKey: Option<string>, script: seq<Attempt>)
      returns (sources: SourceTable)
      requires pool.Valid() && |pool.configs| <= |script|
      modifies this, pool
      ensures pool.Valid()
      ensures docsProcessed == old(docsProcessed) && suggestions == old(suggestions)
      ensures !(loaded && old(docsProcessed)) || question == "" ==>
        && stats == old(stats) && messages == old(messages)
        && pool.active == old(pool.active) && sources == EmptyTable
      ensures loaded && old(docsProcessed) && question != "" ==>
        var run := Failover(pool.configs, old(pool.active), xaiKey, script, 0);
        && stats == old(stats).(questions := old(stats).questions + 1)
        && pool.active == run.index
        && (run.result.Raised? ==> messages == old(messages) && sources == EmptyTable)
        && (!run.result.Raised? ==>
              && messages == old(messages) + [Message("user", question), Message("assistant", Reply(run.result).0)]
              && sources == SourceTableOf(Reply(run.result).1))
    {
      sources := EmptyTable;
      if !(loaded && docsProcessed) || question == "" {
        return;
      }
      stats := stats.(questions := stats.questions + 1);
      var result, sleeps := Ask(pool, xaiKey, script);
      if result.Raised? {
        return;
      }
      var (answer, docs) := Reply(result);
      sources := UniqueSources(docs);
      messages := messages + [Message("user", question), Message("assistant", answer)];
    }
  }
}
