/**
 * The stateful part of LuceneHelper: the lazily built wiki-id -> position
 * map, the searcher that only getFreq opens, candidate rescoring on an array
 * of entity matches, the getDoc guards and the two query shapes. Lucene
 * (parsing, explanation scores, searching, tokenising) enters as function
 * parameters.
 */
module LuceneIndex {
  import opened Wrappers
  import opened WikiIdMap
  import opened ContextText
  import opened Rescoring
  import opened Retrieval

  class LuceneHelper {
    /** What reader.document(i) yields at each position i below numDocs. */
    const index: seq<SlotRead>
    /** The wikiIdToLuceneId field; None while it is still null. */
    var wikiIdToLuceneId: Option<map<int, int>>
    /** The map stored in the file named by the lucene.wiki.id property; None while it does not exist. */
    var wikiIdFile: Option<map<int, int>>
    /** Whether the searcher field has been assigned, which only getFreq does. */
    var searcherOpen: bool

    /** A helper over an index, with the map not loaded and no searcher yet. */
    constructor(index: seq<SlotRead>, wikiIdFile: Option<map<int, int>>)
      ensures this.index == index && this.wikiIdFile == wikiIdFile
      ensures wikiIdToLuceneId == None && !searcherOpen
    {
      this.index := index;
      this.wikiIdFile := wikiIdFile;
      wikiIdToLuceneId := None;
      searcherOpen := false;
    }

    /** The map getLuceneId consults: the loaded one, the file's, or the one the scan builds. */
    ghost function MapAfterLoad(): map<int, int>
      reads this
    {
      if wikiIdToLuceneId.Some? then wikiIdToLuceneId.value
      else if wikiIdFile.Some? then wikiIdFile.value
      else BuildMap(index[..FirstAbort(index)])
    }

    /** What the first getLuceneId call finds: the map, or the exception that aborts the scan. */
    ghost function LoadResult(): MapLoad
      reads this
    {
      if wikiIdToLuceneId.None? && wikiIdFile.None? && FirstAbort(index) < |index|
      then LoadFailed(ScanException(index[FirstAbort(index)]))
      else Loaded(MapAfterLoad())
    }

    /** The file after a getLuceneId call: a completed scan is dumped, nothing else is written. */
    ghost function FileAfterLoad(): Option<map<int, int>>
      reads this
    {
      if wikiIdToLuceneId.None? && wikiIdFile.None? && FirstAbort(index) == |index|
      then Some(BuildMap(index))
      else wikiIdFile
    }

    /**
     * parseWikiIdToLuceneId: the field is assigned an empty map first, then
     * every position is read in order. An unreadable document is skipped; a
     * missing or malformed wiki-id throws out of the scan and leaves the map
     * filled up to that position.
     */
    method ParseWikiIdToLuceneId() returns (r: Outcome<()>)
      modifies this`wikiIdToLuceneId
      ensures wikiIdToLuceneId == Some(BuildMap(index[..FirstAbort(index)]))
      ensures r == if FirstAbort(index) < |index| then Threw(ScanException(index[FirstAbort(index)]))
                   else Returned(())
    {
      wikiIdToLuceneId := Some(map[]);
      for i := 0 to |index|
        invariant i <= FirstAbort(index)
        invariant wikiIdToLuceneId == Some(BuildMap(index[..i]))
      {
        assert index[..i + 1][..i] == index[..i];
        match index[i]
        case WikiId(id) =>
          wikiIdToLuceneId := Some(wikiIdToLuceneId.value[id := i]);
        case Unreadable =>
        case MissingWikiId =>
          return Threw(NullPointerException);
        case MalformedWikiId =>
          return Threw(NumberFormatException);
      }
      assert index[..|index|] == index;
      return Returned(());
    }

    /**
     * parseWikiIdToLuceneId with every failing read caught: a document
     * without a readable, well-formed wiki-id is skipped and the scan goes on.
     */
    method ParseWikiIdToLuceneIdCorrected()
      modifies this`wikiIdToLuceneId
      ensures wikiIdToLuceneId == Some(BuildMap(index))
    {
      wikiIdToLuceneId := Some(map[]);
      for i := 0 to |index|
        invariant wikiIdToLuceneId == Some(BuildMap(index[..i]))
      {
        assert index[..i + 1][..i] == index[..i];
        match index[i]
        case WikiId(id) =>
          wikiIdToLuceneId := Some(wikiIdToLuceneId.value[id := i]);
        case _ =>
      }
      assert index[..|index|] == index;
    }

    /**
     * loadWikiIdToLuceneId: without a file, scan the index and dump the map
     * unless the scan threw; with a file, take the map stored in it.
     */
    method LoadWikiIdToLuceneId() returns (r: Outcome<()>)
      modifies this`wikiIdToLuceneId, this`wikiIdFile
      ensures old(wikiIdFile).Some? ==>
        wikiIdToLuceneId == old(wikiIdFile) && wikiIdFile == old(wikiIdFile) && r == Returned(())
      ensures old(wikiIdFile).None? ==>
        var k := FirstAbort(index);
        wikiIdToLuceneId == Some(BuildMap(index[..k])) &&
        if k < |index| then wikiIdFile == None && r == Threw(ScanException(index[k]))
        else wikiIdFile == Some(BuildMap(index)) && r == Returned(())
    {
      if wikiIdFile.None? {
        r := ParseWikiIdToLuceneId();
        if r.Returned? {
          assert index[..FirstAbort(index)] == index;
          wikiIdFile := wikiIdToLuceneId;
        }
        return;
      }
      wikiIdToLuceneId := wikiIdFile;
      r := Returned(());
    }

    /**
     * getLuceneId: load the map when the field is null, then answer the
     * stored position, or -1 when the wiki-id is not a key.
     */
    method GetLuceneId(wikiId: int) returns (r: Outcome<int>)
      modifies this`wikiIdToLuceneId, this`wikiIdFile
      ensures wikiIdToLuceneId == Some(old(MapAfterLoad()))
      ensures wikiIdFile == old(FileAfterLoad())
      ensures r == match old(LoadResult())
                   case LoadFailed(e) => Threw(e)
                   case Loaded(m) => Returned(Lookup(m, wikiId))
    {
      if wikiIdToLuceneId.None? {
        var loaded := LoadWikiIdToLuceneId();
        if loaded.Threw? {
          return Threw(loaded.exception);
        }
      }
      var m := wikiIdToLuceneId.value;
      if wikiId !in m {
        return Returned(-1);
      }
      return Returned(m[wikiId]);
    }

    /**
     * getSimilarity: the explanation value of the query at the wiki-id's
     * position, 0 when explaining throws IOException, and a
     * NullPointerException while the searcher has not been opened.
     */
    method GetSimilarity<Q>(q: Q, wikiId: int, explain: (Q, int) -> Option<real>) returns (r: Outcome<real>)
      modifies this`wikiIdToLuceneId, this`wikiIdFile
      ensures wikiIdToLuceneId == Some(old(MapAfterLoad()))
      ensures wikiIdFile == old(FileAfterLoad())
      ensures r == match old(LoadResult())
                   case LoadFailed(e) => Threw(e)
                   case Loaded(m) =>
                     if searcherOpen then Returned(Similarity(explain, q, Lookup(m, wikiId)))
                     else Threw(NullPointerException)
    {
      var docId := GetLuceneId(wikiId);
      if docId.Threw? {
        return Threw(docId.exception);
      }
      if !searcherOpen {
        return Threw(NullPointerException);
      }
      return Returned(Similarity(explain, q, docId.value));
    }

    /** getSimilarity with the searcher opened before it is used: it never throws NullPointerException. */
    method GetSimilarityCorrected<Q>(q: Q, wikiId: int, explain: (Q, int) -> Option<real>) returns (r: Outcome<real>)
      modifies this`wikiIdToLuceneId, this`wikiIdFile, this`searcherOpen
      ensures searcherOpen
      ensures wikiIdToLuceneId == Some(old(MapAfterLoad()))
      ensures wikiIdFile == old(FileAfterLoad())
      ensures r == match old(LoadResult())
                   case LoadFailed(e) => Threw(e)
                   case Loaded(m) => Returned(Similarity(explain, q, Lookup(m, wikiId)))
    {
      searcherOpen := true;
      r := GetSimilarity(q, wikiId, explain);
    }

    /**
     * The candidate loop of rankBySimilarity, in place on the match list:
     * each score is overwritten with 0.5, plus the similarity when the
     * candidate's wiki-id has a position.
     */
    method RescoreCandidates<Q>(eml: array<Candidate>, q: Q, explain: (Q, int) -> Option<real>) returns (r: Outcome<()>)
      modifies this`wikiIdToLuceneId, this`wikiIdFile, eml
      ensures var end := old(RescoreLoop(eml[..], LoadResult(), searcherOpen, q, explain));
        eml[..] == end.candidates && r == end.outcome
      ensures eml.Length > 0 ==> wikiIdToLuceneId == Some(old(MapAfterLoad())) && wikiIdFile == old(FileAfterLoad())
      ensures eml.Length == 0 ==> wikiIdToLuceneId == old(wikiIdToLuceneId) && wikiIdFile == old(wikiIdFile)
    {
      ghost var C := eml[..];
      ghost var load := LoadResult();
      ghost var M := MapAfterLoad();
      ghost var F := FileAfterLoad();
      var i := 0;
      while i < eml.Length
        invariant 0 <= i <= eml.Length
        invariant i > 0 ==> load == Loaded(M) && wikiIdToLuceneId == Some(M) && wikiIdFile == F
        invariant i == 0 ==> wikiIdToLuceneId == old(wikiIdToLuceneId) && wikiIdFile == old(wikiIdFile)
        invariant forall j :: 0 <= j < i ==> eml[j] == Rescore(C[j], M, q, explain)
        invariant forall j :: i <= j < eml.Length ==> eml[j] == C[j]
        invariant !searcherOpen ==> forall j :: 0 <= j < i ==> Lookup(M, C[j].id) < 0
      {
        var e := eml[i];
        var luceneId := GetLuceneId(e.id);
        if luceneId.Threw? {
          assert eml[..] == C;
          return Threw(luceneId.exception);
        }
        var score := SmoothingBaseline;
        if luceneId.value >= 0 {
          var similarity := GetSimilarity(q, e.id, explain);
          if similarity.Threw? {
            assert FirstHit(C, M) == i;
            RescoredPrefix(C, eml[..], i, M, q, explain);
            return Threw(NullPointerException);
          }
          score := score + similarity.value;
        }
        eml[i] := e.(score := score);
        i := i + 1;
      }
      if !searcherOpen {
        assert FirstHit(C, M) == |C|;
      }
      RescoredPrefix(C, eml[..], eml.Length, M, q, explain);
      return Returned(());
    }

    /**
     * rankBySimilarity as written: a blank context leaves everything as it
     * was; otherwise the normalised context is parsed, a parse failure
     * throws NullPointerException from the catch block, and a parsed query
     * rescores the candidates.
     */
    method RankBySimilarity<Q(!new)>(eml: array<Candidate>, context: string, parse: string -> Option<Q>,
                               explain: (Q, int) -> Option<real>) returns (r: Outcome<()>)
      modifies this`wikiIdToLuceneId, this`wikiIdFile, eml
      ensures IsBlank(context) ==>
        eml[..] == old(eml[..]) && r == Returned(()) && unchanged(this)
      ensures !IsBlank(context) && parse(Normalize(context)).None? ==>
        eml[..] == old(eml[..]) && r == Threw(NullPointerException) && unchanged(this)
      ensures !IsBlank(context) && parse(Normalize(context)).Some? ==>
        var q := parse(Normalize(context)).value;
        var end := old(RescoreLoop(eml[..], LoadResult(), searcherOpen, q, explain));
        eml[..] == end.candidates && r == end.outcome &&
        (eml.Length > 0 ==> wikiIdToLuceneId == Some(old(MapAfterLoad())) && wikiIdFile == old(FileAfterLoad())) &&
        (eml.Length == 0 ==> wikiIdToLuceneId == old(wikiIdToLuceneId) && wikiIdFile == old(wikiIdFile))
    {
      TrimEmptyIffBlank(context);
      if Trim(context) == [] {
        return Returned(());
      }
      var parsed := parse(Normalize(context));
      if parsed.None? {
        return Threw(NullPointerException);
      }
      r := RescoreCandidates(eml, parsed.value, explain);
    }

    /** rankBySimilarity with the catch block only returning: a parse failure changes nothing. */
    method RankBySimilarityCorrected<Q(!new)>(eml: array<Candidate>, context: string, parse: string -> Option<Q>,
                                        explain: (Q, int) -> Option<real>) returns (r: Outcome<()>)
      modifies this`wikiIdToLuceneId, this`wikiIdFile, eml
      ensures IsBlank(context) || parse(Normalize(context)).None? ==>
        eml[..] == old(eml[..]) && r == Returned(()) && unchanged(this)
      ensures !IsBlank(context) && parse(Normalize(context)).Some? ==>
        var q := parse(Normalize(context)).value;
        var end := old(RescoreLoop(eml[..], LoadResult(), searcherOpen, q, explain));
        eml[..] == end.candidates && r == end.outcome &&
        (eml.Length > 0 ==> wikiIdToLuceneId == Some(old(MapAfterLoad())) && wikiIdFile == old(FileAfterLoad())) &&
        (eml.Length == 0 ==> wikiIdToLuceneId == old(wikiIdToLuceneId) && wikiIdFile == old(wikiIdFile))
    {
      TrimEmptyIffBlank(context);
      if Trim(context) == [] {
        return Returned(());
      }
      var parsed := parse(Normalize(context));
      if parsed.None? {
        return Returned(());
      }
      r := RescoreCandidates(eml, parsed.value, explain);
    }

    /**
     * getDoc: no document for a non-positive wiki-id or for position 0;
     * otherwise the document at the looked-up position, -1 included.
     */
    method GetDoc(wikiId: int) returns (r: Outcome<DocFetch>)
      modifies this`wikiIdToLuceneId, this`wikiIdFile
      ensures wikiId <= 0 ==> r == Returned(NoDocument) && unchanged(this)
      ensures wikiId > 0 ==>
        wikiIdToLuceneId == Some(old(MapAfterLoad())) && wikiIdFile == old(FileAfterLoad()) &&
        r == match old(LoadResult())
             case LoadFailed(e) => Threw(e)
             case Loaded(m) => Returned(DocGuard(Lookup(m, wikiId)))
    {
      if wikiId <= 0 {
        return Returned(NoDocument);
      }
      var docId := GetLuceneId(wikiId);
      if docId.Threw? {
        return Threw(docId.exception);
      }
      if docId.value == 0 {
        return Returned(NoDocument);
      }
      return Returned(FetchAt(docId.value));
    }

    /**
     * getFreq: open the searcher, put the query's terms into a phrase on the
     * field at consecutive positions, and answer the total hit count, or -1
     * when the search throws IOException.
     */
    method GetFreq(query: string, field: string, tokenize: string -> seq<string>,
                   totalHits: seq<PhraseTerm> -> Option<nat>) returns (r: int)
      modifies this`searcherOpen
      ensures searcherOpen
      ensures r == match totalHits(Phrase(field, tokenize(query)))
                   case None => -1
                   case Some(n) => n
    {
      searcherOpen := true;
      var pq := BuildPhraseQuery(field, tokenize(query));
      var hits := totalHits(pq);
      if hits.None? {
        return -1;
      }
      return hits.value;
    }

    /** getFreq on the content field. */
    method GetContentFreq(query: string, tokenize: string -> seq<string>,
                          totalHits: seq<PhraseTerm> -> Option<nat>) returns (r: int)
      modifies this`searcherOpen
      ensures searcherOpen
      ensures r == match totalHits(Phrase("content", tokenize(query)))
                   case None => -1
                   case Some(n) => n
    {
      r := GetFreq(query, "content", tokenize, totalHits);
    }

    /**
     * query: parse the quoted text and answer the document ids of the first
     * 10000 ranked hits, in hit order; an empty list when parsing or the
     * search fails, and a NullPointerException while no searcher is open.
     */
    method Query<Q>(query: string, parse: string -> Option<Q>, search: Q -> Option<seq<ScoreDoc>>)
      returns (r: Outcome<seq<int>>)
      ensures parse(Quoted(query)).None? ==> r == Returned([])
      ensures parse(Quoted(query)).Some? && !searcherOpen ==> r == Threw(NullPointerException)
      ensures parse(Quoted(query)).Some? && searcherOpen ==>
        match search(parse(Quoted(query)).value)
        case None => r == Returned([])
        case Some(ranked) =>
          r.Returned? && |r.value| == Min(|ranked|, MaxHits) &&
          forall i :: 0 <= i < |r.value| ==> r.value[i] == ranked[i].doc
    {
      var parsed := parse(Quoted(query));
      if parsed.None? {
        return Returned([]);
      }
      if !searcherOpen {
        return Threw(NullPointerException);
      }
      var hits := search(parsed.value);
      if hits.None? {
        return Returned([]);
      }
      var results := CollectDocIds(TopHits(hits.value));
      return Returned(results);
    }

    /** query with the searcher opened before it is used: it never throws. */
    method QueryCorrected<Q>(query: string, parse: string -> Option<Q>, search: Q -> Option<seq<ScoreDoc>>)
      returns (r: Outcome<seq<int>>)
      modifies this`searcherOpen
      ensures searcherOpen
      ensures parse(Quoted(query)).None? ==> r == Returned([])
      ensures parse(Quoted(query)).Some? ==>
        match search(parse(Quoted(query)).value)
        case None => r == Returned([])
        case Some(ranked) =>
          r.Returned? && |r.value| == Min(|ranked|, MaxHits) &&
          forall i :: 0 <= i < |r.value| ==> r.value[i] == ranked[i].doc
    {
      searcherOpen := true;
      r := Query(query, parse, search);
    }
  }

  /**
   * The first lookup of a helper with neither map nor file scans the whole
   * index (when no read aborts it) and dumps the result: -1 exactly for ids
   * no document carries, otherwise the last position carrying the id.
   */
  lemma FirstLookupScansIndex(h: LuceneHelper, wikiId: int)
    requires h.wikiIdToLuceneId.None? && h.wikiIdFile.None?
    requires FirstAbort(h.index) == |h.index|
    ensures h.LoadResult() == Loaded(BuildMap(h.index))
    ensures h.FileAfterLoad() == Some(BuildMap(h.index))
    ensures var p := Lookup(BuildMap(h.index), wikiId);
      (p == -1 <==> forall i :: 0 <= i < |h.index| ==> h.index[i] != WikiId(wikiId)) &&
      (p != -1 ==> 0 <= p < |h.index| && h.index[p] == WikiId(wikiId) &&
                   forall j :: p < j < |h.index| ==> h.index[j] != WikiId(wikiId))
  {
    assert h.index[..FirstAbort(h.index)] == h.index;
    LookupAfterBuild(h.index, wikiId);
  }

  /** Once the field holds a map, a lookup neither scans, reads the file nor writes it. */
  lemma LoadedMapIsKept(h: LuceneHelper)
    requires h.wikiIdToLuceneId.Some?
    ensures h.LoadResult() == Loaded(h.wikiIdToLuceneId.value)
    ensures h.MapAfterLoad() == h.wikiIdToLuceneId.value && h.FileAfterLoad() == h.wikiIdFile
  {
  }

  /**
   * A helper on which getFreq never ran: query throws NullPointerException
   * for any text that parses, whatever the index and the search would give.
   */
  method FreshHelperQueryThrows(index: seq<SlotRead>, query: string, search: string -> Option<seq<ScoreDoc>>)
    returns (r: Outcome<seq<int>>)
    ensures r == Threw(NullPointerException)
  {
    var h := new LuceneHelper(index, None);
    r := h.Query(query, (s: string) => Some(s), search);
  }
}
