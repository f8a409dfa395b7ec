/**
 * The multi-query retriever: the lines of a model's rewrite of a question
 * are filtered into search queries, each query retrieves its two nearest
 * chunks, and the results are merged keeping the first chunk seen for each
 * distinct page content. The similarity search is a parameter: `ranking(q)`
 * is the store's chunks in order of similarity to `q`.
 */
module MultiQuery {
  import opened Text
  import opened Seqs
  import opened Documents

  // -----------------------------------------------------------------------
  // Query lines
  // -----------------------------------------------------------------------

  /** A stripped line that is not used as a query. */
  predicate Excluded(line: string) {
    || line == ""
    || StartsWith(line, "-")
    || StartsWith(Lower(line), "here are")
    || Contains(Lower(line), "improvement")
  }

  /** A line that starts with a digit and contains a dot is taken to be numbered. */
  predicate IsNumbered(line: string) {
    |line| > 0 && IsDigit(line[0]) && '.' in line
  }

  /**
   * A numbered line "N. text" loses everything up to its first dot, and the
   * rest is stripped; any other line is kept as it is.
   */
  function Renumbered(line: string): (r: string)
    ensures !IsNumbered(line) ==> r == line
    ensures IsNumbered(line) ==>
      exists j :: 0 <= j < |line| && line[j] == '.' && '.' !in line[..j] && r == Strip(line[j + 1..])
    ensures IsStripped(line) ==> IsStripped(r)
    ensures exists i :: OccursAt(line, r, i)
  {
    if IsNumbered(line) then
      var d := IndexOf(line, '.');
      var j := d + 1;
      var rest := line[j..];
      var r := Strip(rest);
      StripPiece(rest);
      PieceOfSuffix(line, j, r, LeadingSpace(rest));
      r
    else
      assert OccursAt(line, line, 0);
      line
  }

  /** What one raw line contributes: nothing if excluded, else its query. */
  function Rewrite(raw: string): (r: seq<string>)
    ensures |r| <= 1
  {
    var line := Strip(raw);
    if Excluded(line) then [] else [Renumbered(line)]
  }

  /** A parsed query comes from one line of the rewrite. */
  lemma ParsedOrigin(rawLines: seq<string>, q: string)
    requires q in Gather(Rewrite, rawLines)
    ensures exists raw :: raw in rawLines && !Excluded(Strip(raw)) && q == Renumbered(Strip(raw))
  {
    var raw :| raw in rawLines && q in Rewrite(raw);
    assert !Excluded(Strip(raw)) && q == Renumbered(Strip(raw));
  }

  /** The queries parsed from the rewrite's lines, before the fallback. */
  function Parsed(rawLines: seq<string>): (queries: seq<string>)
    ensures |queries| <= |rawLines|
    ensures forall q :: q in queries ==>
      exists raw :: raw in rawLines && !Excluded(Strip(raw)) && q == Renumbered(Strip(raw))
  {
    GatherBound(Rewrite, rawLines, 1);
    assert forall q :: q in Gather(Rewrite, rawLines) ==>
      exists raw :: raw in rawLines && !Excluded(Strip(raw)) && q == Renumbered(Strip(raw)) by {
      forall q | q in Gather(Rewrite, rawLines) {
        ParsedOrigin(rawLines, q);
      }
    }
    Gather(Rewrite, rawLines)
  }

  /** The query list: the parsed queries, or the original question when none survive. */
  function Queries(content: string, query: string): (queries: seq<string>)
    ensures |queries| >= 1
  {
    var parsed := Parsed(Split(content, '\n'));
    if parsed == [] then [query] else parsed
  }

  /** The parsing loop over `rewrite_result.content.split("\n")`. */
  method ParseQueries(content: string, query: string) returns (queries: seq<string>)
    ensures queries == Queries(content, query)
  {
    var rawLines := Split(content, '\n');
    queries := [];
    for i := 0 to |rawLines|
      invariant queries == Parsed(rawLines[..i])
    {
      GatherSnoc(Rewrite, rawLines, i);
      var line := Strip(rawLines[i]);
      if line == "" {
        continue;
      }
      if StartsWith(line, "-") {
        continue;
      }
      if StartsWith(Lower(line), "here are") {
        continue;
      }
      if Contains(Lower(line), "improvement") {
        continue;
      }
      ghost var stripped := line;
      if IsDigit(line[0]) && '.' in line {
        line := Strip(line[IndexOf(line, '.') + 1..]);
      }
      assert line == Renumbered(stripped);
      queries := queries + [line];
    }
    assert rawLines[..|rawLines|] == rawLines;
    if queries == [] {
      queries := [query];
    }
  }

  /** Lines are parsed independently and the surviving queries keep the lines' order. */
  lemma ParsedAppend(a: seq<string>, b: seq<string>)
    ensures Parsed(a + b) == Parsed(a) + Parsed(b)
  {
    GatherAppend(Rewrite, a, b);
  }

  /** An excluded line contributes nothing; any other line contributes exactly its query. */
  lemma ParsedLine(raw: string)
    ensures Excluded(Strip(raw)) ==> Parsed([raw]) == []
    ensures !Excluded(Strip(raw)) ==> Parsed([raw]) == [Renumbered(Strip(raw))]
  {
    GatherOne(Rewrite, raw);
  }

  /** The fallback is taken exactly when every line is excluded. */
  lemma {:induction false} NothingParsedIff(rawLines: seq<string>)
    ensures Parsed(rawLines) == [] <==> forall raw :: raw in rawLines ==> Excluded(Strip(raw))
    decreases |rawLines|
  {
    if rawLines != [] {
      var rest := rawLines[1..];
      assert rawLines == [rawLines[0]] + rest;
      ParsedAppend([rawLines[0]], rest);
      ParsedLine(rawLines[0]);
      NothingParsedIff(rest);
      assert forall raw :: raw in rawLines <==> raw == rawLines[0] || raw in rest;
    }
  }

  /** Every query is stripped, and none mentions "improvement" in any case. */
  lemma QueriesAreClean(rawLines: seq<string>, q: string)
    requires q in Parsed(rawLines)
    ensures IsStripped(q)
    ensures !Contains(Lower(q), "improvement")
  {
    var raw :| raw in rawLines && !Excluded(Strip(raw)) && q == Renumbered(Strip(raw));
    RenumberedClean(Strip(raw));
  }

  lemma RenumberedClean(line: string)
    requires IsStripped(line) && !Contains(Lower(line), "improvement")
    ensures IsStripped(Renumbered(line))
    ensures !Contains(Lower(Renumbered(line)), "improvement")
  {
    var q := Renumbered(line);
    var i :| OccursAt(line, q, i);
    LowerPiece(line, q, i);
    if Contains(Lower(q), "improvement") {
      PieceContains(Lower(line), Lower(q), i, "improvement");
    }
  }

  /** Lower-casing a piece of a text gives the same piece of the lower-cased text. */
  lemma LowerPiece(s: string, r: string, i: int)
    requires OccursAt(s, r, i)
    ensures OccursAt(Lower(s), Lower(r), i)
  {
    assert Lower(s)[i..i + |r|] == Lower(r);
  }

  /** A text containing `sub` keeps containing it when embedded in a larger text. */
  lemma PieceContains(s: string, r: string, i: int, sub: string)
    requires OccursAt(s, r, i) && Contains(r, sub)
    ensures Contains(s, sub)
  {
    ContainsIff(r, sub);
    var j :| OccursAt(r, sub, j);
    forall k | 0 <= k < |sub|
      ensures s[i + j..i + j + |sub|][k] == sub[k]
    {
      assert sub[k] == r[j + k] == s[i + j + k];
    }
    assert s[i + j..i + j + |sub|] == sub;
    assert OccursAt(s, sub, i + j);
    ContainsIff(s, sub);
  }

  /** A numbered line keeps only its text: "1. Who is Dhoni?" becomes "Who is Dhoni?". */
  lemma NumberedLine(d: char, q: string)
    requires IsDigit(d) && q != [] && IsStripped(q)
    ensures Renumbered([d, '.', ' '] + q) == q
  {
    var line := [d, '.', ' '] + q;
    assert line[0] == d && line[1] == '.';
    assert IndexOf(line, '.') == 1;
    assert line[2..] == [' '] + q;
    StripLeadingSpace(' ', q);
  }

  /** The dot test does not look for text after it: the line "1." yields the empty query, which is kept. */
  lemma NumberOnlyLine()
    ensures Renumbered("1.") == ""
    ensures Parsed(["1."]) == [""]
  {
    assert IndexOf("1.", '.') == 1;
    assert "1."[2..] == "";
    assert AllSpace("");
    StrippedUnchanged("1.");
    ContainsIff(Lower("1."), "improvement");
    assert !Excluded("1.");
    ParsedLine("1.");
  }

  // -----------------------------------------------------------------------
  // Retrieval and merging
  // -----------------------------------------------------------------------

  /** The `k` of `similarity_search`. */
  const K: nat := 2

  /** `similarity_search(q, k=2)`: the first two chunks of the ranking, or all of them if fewer. */
  function Top(ranking: seq<Doc>): (r: seq<Doc>)
    ensures |r| <= K && |r| <= |ranking| && r == ranking[..|r|]
    ensures |r| == if |ranking| < K then |ranking| else K
  {
    if |ranking| <= K then ranking else ranking[..K]
  }

  /** The search run for each query. */
  function Search(ranking: string -> seq<Doc>): string -> seq<Doc> {
    q => Top(ranking(q))
  }

  /** Every retrieved chunk, query by query and rank by rank, duplicates included. */
  function Retrieved(queries: seq<string>, ranking: string -> seq<Doc>): (docs: seq<Doc>)
    ensures |docs| <= K * |queries|
  {
    GatherBound(Search(ranking), queries, K);
    Gather(Search(ranking), queries)
  }

  /** The chunks in order, keeping the first chunk seen for each page content. */
  function FirstByContent(docs: seq<Doc>): (r: seq<Doc>)
    ensures |r| <= |docs|
    decreases |docs|
  {
    if docs == [] then []
    else
      var kept := FirstByContent(docs[..|docs| - 1]);
      var doc := docs[|docs| - 1];
      if doc.pageContent in Contents(kept) then kept else kept + [doc]
  }

  /** One chunk more is kept exactly when its page content is new. */
  lemma FirstByContentSnoc(docs: seq<Doc>, d: Doc)
    ensures FirstByContent(docs + [d]) ==
      if d.pageContent in Contents(FirstByContent(docs)) then FirstByContent(docs) else FirstByContent(docs) + [d]
  {
    assert (docs + [d])[..|docs|] == docs;
  }

  /** The page contents of the merged chunks: each once, in order of first retrieval. */
  lemma {:induction false} FirstByContentContents(docs: seq<Doc>)
    ensures Contents(FirstByContent(docs)) == FirstOccurrences(Contents(docs))
    decreases |docs|
  {
    if docs != [] {
      var q, d := docs[..|docs| - 1], docs[|docs| - 1];
      assert docs == q + [d];
      FirstByContentContents(q);
      FirstByContentSnoc(q, d);
      ContentsSnoc(q, d);
      ContentsSnoc(FirstByContent(q), d);
      FirstOccurrencesSnoc(Contents(q), d.pageContent);
    }
  }

  /** A merged chunk is the first retrieved chunk with its page content. */
  lemma {:induction false} FirstByContentKeepsFirst(docs: seq<Doc>, i: nat)
    requires i < |FirstByContent(docs)|
    ensures FirstByContent(docs)[i].pageContent in Contents(docs)
    ensures FirstByContent(docs)[i] == docs[FirstIndex(Contents(docs), FirstByContent(docs)[i].pageContent)]
    decreases |docs|
  {
    var n := |docs| - 1;
    var q := docs[..n];
    var kept := FirstByContent(q);
    var r := FirstByContent(docs);
    var c := r[i].pageContent;
    assert Contents(docs)[..n] == Contents(q);
    if i < |kept| {
      assert r[i] == kept[i];
      FirstByContentKeepsFirst(q, i);
      FirstIndexPrefix(Contents(docs), n, c);
    } else {
      assert r[i] == docs[n] && docs[n].pageContent !in Contents(kept);
      FirstByContentContents(q);
      assert c !in Contents(q);
      assert Contents(docs)[n] == c;
    }
  }

  /** `all_docs`: the merged result of searching every query. */
  function AllDocs(queries: seq<string>, ranking: string -> seq<Doc>): seq<Doc> {
    FirstByContent(Retrieved(queries, ranking))
  }

  /**
   * The inner loop over one query's results: each chunk whose page content is
   * not yet in `seen` is appended and its content added to `seen`.
   */
  method MergeResults(allDocs: seq<Doc>, seen: set<string>, docs: seq<Doc>, ghost before: seq<Doc>)
    returns (merged: seq<Doc>, seenAfter: set<string>)
    requires allDocs == FirstByContent(before)
    requires forall c :: c in seen <==> c in Contents(allDocs)
    ensures merged == FirstByContent(before + docs)
    ensures forall c :: c in seenAfter <==> c in Contents(merged)
  {
    merged, seenAfter := allDocs, seen;
    assert before + docs[..0] == before;
    for j := 0 to |docs|
      invariant merged == FirstByContent(before + docs[..j])
      invariant forall c :: c in seenAfter <==> c in Contents(merged)
    {
      var doc := docs[j];
      assert before + docs[..j + 1] == (before + docs[..j]) + [doc];
      FirstByContentSnoc(before + docs[..j], doc);
      var key := doc.pageContent;
      if key !in seenAfter {
        seenAfter := seenAfter + {key};
        ContentsSnoc(merged, doc);
        merged := merged + [doc];
      }
    }
    assert docs[..|docs|] == docs;
  }

  /** The loop over the queries with the `seen` set of page contents. */
  method RetrieveAll(queries: seq<string>, ranking: string -> seq<Doc>) returns (allDocs: seq<Doc>)
    ensures allDocs == AllDocs(queries, ranking)
  {
    var seen: set<string> := {};
    allDocs := [];
    for i := 0 to |queries|
      invariant allDocs == FirstByContent(Gather(Search(ranking), queries[..i]))
      invariant forall c :: c in seen <==> c in Contents(allDocs)
    {
      var docs := Top(ranking(queries[i]));
      assert docs == Search(ranking)(queries[i]);
      allDocs, seen := MergeResults(allDocs, seen, docs, Gather(Search(ranking), queries[..i]));
      GatherSnoc(Search(ranking), queries, i);
    }
    assert queries[..|queries|] == queries;
  }

  /** No two merged chunks share a page content, and at most two per query are kept. */
  lemma AllDocsDistinct(queries: seq<string>, ranking: string -> seq<Doc>)
    ensures Distinct(Contents(AllDocs(queries, ranking)))
    ensures |AllDocs(queries, ranking)| <= K * |queries|
  {
    FirstByContentContents(Retrieved(queries, ranking));
  }
}
