/**
 * The query shapes of LuceneHelper: the phrase getFreq builds from the
 * tokens of its text, and the list of document ids query returns from the
 * top hits. Tokenising, parsing and searching are Lucene's and are
 * parameters of the class methods that use these.
 */
module Retrieval {

  /** One term of a PhraseQuery: field, token and the position it must occupy. */
  datatype PhraseTerm = PhraseTerm(field: string, text: string, position: int)

  /** The phrase with each token at its index. */
  function Phrase(field: string, terms: seq<string>): (pq: seq<PhraseTerm>)
    ensures |pq| == |terms|
    ensures terms != [] ==> pq[|terms| - 1] == PhraseTerm(field, terms[|terms| - 1], |terms| - 1)
  {
    if terms == [] then []
    else Phrase(field, terms[..|terms| - 1]) + [PhraseTerm(field, terms[|terms| - 1], |terms| - 1)]
  }

  /** Term i of the phrase is token i of the text, in the given field, at position i. */
  lemma {:induction false} PhraseAt(field: string, terms: seq<string>)
    ensures |Phrase(field, terms)| == |terms|
    ensures forall i :: 0 <= i < |terms| ==>
              Phrase(field, terms)[i] == PhraseTerm(field, terms[i], i)
  {
    if terms != [] {
      PhraseAt(field, terms[..|terms| - 1]);
    }
  }

  /** The loop at lines 483-486: add each token with a counter that starts at 0. */
  method BuildPhraseQuery(field: string, terms: seq<string>) returns (pq: seq<PhraseTerm>)
    ensures pq == Phrase(field, terms)
  {
    pq := [];
    var i := 0;
    for k := 0 to |terms|
      invariant i == k
      invariant pq == Phrase(field, terms[..k])
    {
      assert terms[..k + 1][..k] == terms[..k];
      pq := pq + [PhraseTerm(field, terms[k], i)];
      i := i + 1;
    }
    assert terms[..|terms|] == terms;
  }

  /** A hit of the top-docs collector: the document position and its score. */
  datatype ScoreDoc = ScoreDoc(doc: int, score: real)

  /** The number of hits query's collector keeps (line 541). */
  const MaxHits: nat := 10000

  function Min(a: nat, b: nat): nat { if a <= b then a else b }

  /** The hits the collector keeps from a ranked hit list: the first MaxHits. */
  function TopHits(ranked: seq<ScoreDoc>): (top: seq<ScoreDoc>)
    ensures |top| == Min(|ranked|, MaxHits)
    ensures top == ranked[..|top|]
  {
    if |ranked| <= MaxHits then ranked else ranked[..MaxHits]
  }

  /** The loop at lines 562-566: the document id of every kept hit, in hit order. */
  method CollectDocIds(hits: seq<ScoreDoc>) returns (results: seq<int>)
    ensures |results| == |hits|
    ensures forall i :: 0 <= i < |hits| ==> results[i] == hits[i].doc
  {
    results := [];
    for i := 0 to |hits|
      invariant |results| == i
      invariant forall j :: 0 <= j < i ==> results[j] == hits[j].doc
    {
      results := results + [hits[i].doc];
    }
  }

  /** query wraps its text in double quotes before parsing it (lines 548-549). */
  function Quoted(query: string): (r: string)
    ensures |r| == |query| + 2 && r[0] == '"' && r[|r| - 1] == '"' && r[1..|r| - 1] == query
  {
    "\"" + query + "\""
  }
}
