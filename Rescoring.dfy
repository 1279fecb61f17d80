/**
 * What the candidate loop of rankBySimilarity does to the candidate list,
 * stated on values. The Lucene explanation score and the map load are
 * parameters; the class in LuceneIndex runs the loop on an array.
 */
module Rescoring {
  import opened Wrappers
  import opened WikiIdMap

  /** An entity match: the candidate's wiki-id and its score (a Java float, modelled as a real). */
  datatype Candidate = Candidate(id: int, score: real)

  /** The smoothing value every candidate's new score starts from. */
  const SmoothingBaseline: real := 0.5

  /** getSimilarity's value at a position: the explanation's value, or 0 when explain throws IOException. */
  function Similarity<Q>(explain: (Q, int) -> Option<real>, q: Q, position: int): (r: real)
    ensures explain(q, position).None? ==> r == 0.0
    ensures explain(q, position).Some? ==> r == explain(q, position).value
  {
    match explain(q, position)
    case Some(v) => v
    case None => 0.0
  }

  /** The new candidate: the score is overwritten, with 0.5 on a miss and 0.5 plus the similarity on a hit. */
  function Rescore<Q>(c: Candidate, m: map<int, int>, q: Q, explain: (Q, int) -> Option<real>): (r: Candidate)
    ensures r.id == c.id
    ensures c.id !in m ==> r.score == SmoothingBaseline
    ensures c.id in m && m[c.id] >= 0 ==> r.score == SmoothingBaseline + Similarity(explain, q, m[c.id])
    ensures c.id in m && m[c.id] < 0 ==> r.score == SmoothingBaseline
  {
    var position := Lookup(m, c.id);
    if position < 0 then c.(score := SmoothingBaseline)
    else c.(score := SmoothingBaseline + Similarity(explain, q, position))
  }

  /** Every candidate rescored, in list order. */
  function RescoreAll<Q>(cs: seq<Candidate>, m: map<int, int>, q: Q, explain: (Q, int) -> Option<real>): (r: seq<Candidate>)
    ensures |r| == |cs|
  {
    if cs == [] then [] else [Rescore(cs[0], m, q, explain)] + RescoreAll(cs[1..], m, q, explain)
  }

  /** The index of the first candidate found in the map, or the length of the list. */
  function FirstHit(cs: seq<Candidate>, m: map<int, int>): (k: nat)
    ensures k <= |cs|
    ensures forall j :: 0 <= j < k ==> Lookup(m, cs[j].id) < 0
    ensures k < |cs| ==> Lookup(m, cs[k].id) >= 0
  {
    if cs == [] then 0
    else if Lookup(m, cs[0].id) >= 0 then 0
    else 1 + FirstHit(cs[1..], m)
  }

  /** What the first getLuceneId call of the loop finds: the map, or the exception its build raised. */
  datatype MapLoad = Loaded(m: map<int, int>) | LoadFailed(exception: JavaException)

  /** The candidate list the loop leaves and how the call ends. */
  datatype LoopEnd = LoopEnd(candidates: seq<Candidate>, outcome: Outcome<()>)

  /**
   * The loop at lines 631-643. An empty list never looks the map up. If the
   * map load throws, no candidate changes. If the searcher was never opened,
   * the first hit dereferences it: the candidates before it are rescored and
   * the rest are left as they were.
   */
  function RescoreLoop<Q>(cs: seq<Candidate>, load: MapLoad, searcherOpen: bool,
                          q: Q, explain: (Q, int) -> Option<real>): (r: LoopEnd)
    ensures |r.candidates| == |cs|
    ensures r.outcome == Returned(()) <==>
              cs == [] || (load.Loaded? && (searcherOpen || FirstHit(cs, load.m) == |cs|))
    ensures cs != [] && load.LoadFailed? ==> r == LoopEnd(cs, Threw(load.exception))
  {
    if cs == [] then LoopEnd(cs, Returned(()))
    else match load
      case LoadFailed(e) => LoopEnd(cs, Threw(e))
      case Loaded(m) =>
        var k := if searcherOpen then |cs| else FirstHit(cs, m);
        LoopEnd(RescoreAll(cs[..k], m, q, explain) + cs[k..],
                if k < |cs| then Threw(NullPointerException) else Returned(()))
  }

  /** Rescoring keeps the length and rescores position by position. */
  lemma {:induction false} RescoreAllAt<Q>(cs: seq<Candidate>, m: map<int, int>, q: Q, explain: (Q, int) -> Option<real>)
    ensures |RescoreAll(cs, m, q, explain)| == |cs|
    ensures forall i :: 0 <= i < |cs| ==> RescoreAll(cs, m, q, explain)[i] == Rescore(cs[i], m, q, explain)
  {
    if cs != [] {
      RescoreAllAt(cs[1..], m, q, explain);
    }
  }

  /**
   * After rescoring, each candidate keeps its id and its score is 0.5 when
   * the id is not a key of the map and 0.5 plus the similarity at its
   * position otherwise.
   */
  lemma RescoreAllScores<Q>(cs: seq<Candidate>, m: map<int, int>, q: Q, explain: (Q, int) -> Option<real>, i: int)
    requires NonNegValues(m)
    requires 0 <= i < |cs|
    ensures |RescoreAll(cs, m, q, explain)| == |cs|
    ensures RescoreAll(cs, m, q, explain)[i].id == cs[i].id
    ensures RescoreAll(cs, m, q, explain)[i].score ==
              if cs[i].id in m then SmoothingBaseline + Similarity(explain, q, m[cs[i].id])
              else SmoothingBaseline
  {
    RescoreAllAt(cs, m, q, explain);
  }

  /** The previous scores are discarded: lists with the same ids rescore to the same list. */
  lemma {:induction false} RescoreDiscardsPreviousScores<Q>(cs: seq<Candidate>, ds: seq<Candidate>, m: map<int, int>,
                                                             q: Q, explain: (Q, int) -> Option<real>)
    requires |cs| == |ds|
    requires forall i :: 0 <= i < |cs| ==> cs[i].id == ds[i].id
    ensures RescoreAll(cs, m, q, explain) == RescoreAll(ds, m, q, explain)
  {
    if cs != [] {
      RescoreDiscardsPreviousScores(cs[1..], ds[1..], m, q, explain);
    }
  }

  /** A list that agrees with the rescored list on a prefix and with the input on the rest. */
  lemma RescoredPrefix<Q>(cs: seq<Candidate>, current: seq<Candidate>, k: nat, m: map<int, int>,
                          q: Q, explain: (Q, int) -> Option<real>)
    requires |current| == |cs| && k <= |cs|
    requires forall j :: 0 <= j < k ==> current[j] == Rescore(cs[j], m, q, explain)
    requires forall j :: k <= j < |cs| ==> current[j] == cs[j]
    ensures current == RescoreAll(cs[..k], m, q, explain) + cs[k..]
  {
    RescoreAllAt(cs[..k], m, q, explain);
  }

  /** However the loop ends, it keeps the list's length, order and ids. */
  lemma RescoreLoopKeepsIds<Q>(cs: seq<Candidate>, load: MapLoad, searcherOpen: bool,
                               q: Q, explain: (Q, int) -> Option<real>)
    ensures var r := RescoreLoop(cs, load, searcherOpen, q, explain).candidates;
      |r| == |cs| && forall i :: 0 <= i < |cs| ==> r[i].id == cs[i].id
  {
    if cs != [] && load.Loaded? {
      var k := if searcherOpen then |cs| else FirstHit(cs, load.m);
      RescoreAllAt(cs[..k], load.m, q, explain);
    }
  }

  /** With the map loaded and the searcher open, the loop completes and rescores every candidate. */
  lemma RescoreLoopCompletes<Q>(cs: seq<Candidate>, m: map<int, int>, q: Q, explain: (Q, int) -> Option<real>)
    ensures RescoreLoop(cs, Loaded(m), true, q, explain) == LoopEnd(RescoreAll(cs, m, q, explain), Returned(()))
  {
    assert cs[..|cs|] == cs;
    assert cs[|cs|..] == [];
  }

  /**
   * With the searcher never opened, a list holding an indexed candidate ends
   * in a NullPointerException after the misses before it got 0.5.
   */
  lemma ClosedSearcherStopsAtFirstHit<Q>(cs: seq<Candidate>, m: map<int, int>, q: Q,
                                         explain: (Q, int) -> Option<real>, hit: int)
    requires 0 <= hit < |cs| && Lookup(m, cs[hit].id) >= 0
    ensures var r := RescoreLoop(cs, Loaded(m), false, q, explain);
      r.outcome == Threw(NullPointerException) && |r.candidates| == |cs| &&
      (forall j :: 0 <= j < FirstHit(cs, m) ==> r.candidates[j] == cs[j].(score := SmoothingBaseline)) &&
      (forall j :: FirstHit(cs, m) <= j < |cs| ==> r.candidates[j] == cs[j])
  {
    var k := FirstHit(cs, m);
    RescoreAllAt(cs[..k], m, q, explain);
  }
}
