/**
 * The document chunks that flow through the pipeline. A chunk is produced by
 * the external loader and splitter and is never changed afterwards.
 */
module Documents {
  import opened Wrappers

  /** A `page` metadata value: an integer (what the PDF loader stores) or any other text. */
  datatype PageValue = IntPage(number: int) | TextPage(text: string)

  /** The two metadata keys the modelled code reads; `None` is a missing key. */
  datatype Metadata = Metadata(source: Option<string>, page: Option<PageValue>)

  /** A LangChain `Document`: its `page_content` and its `metadata`. */
  datatype Doc = Doc(pageContent: string, metadata: Metadata)

  /** The `page_content` of every chunk, in order. */
  function Contents(docs: seq<Doc>): (r: seq<string>)
    ensures |r| == |docs|
    ensures forall i :: 0 <= i < |docs| ==> r[i] == docs[i].pageContent
  {
    seq(|docs|, i requires 0 <= i < |docs| => docs[i].pageContent)
  }

  lemma ContentsSnoc(docs: seq<Doc>, d: Doc)
    ensures Contents(docs + [d]) == Contents(docs) + [d.pageContent]
  {
  }
}
