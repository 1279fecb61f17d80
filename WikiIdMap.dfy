/**
 * The wiki-id -> Lucene position map of LuceneHelper: what scanning the
 * index produces (parseWikiIdToLuceneId), how a lookup answers
 * (getLuceneId), and the guard getDoc puts on the answer.
 */
module WikiIdMap {
  import opened Wrappers

  /** What reading the wiki-id stored at one index position yields. */
  datatype SlotRead =
    | WikiId(id: int)       // the stored value parses to this integer
    | Unreadable            // reader.document throws CorruptIndexException or IOException
    | MissingWikiId         // the document has no wiki-id field, so f.stringValue() dereferences null
    | MalformedWikiId       // the stored value is not a Java int, so new Integer(...) throws

  /** The reads the scan does not catch: they end the scan and propagate. */
  predicate AbortsScan(r: SlotRead) {
    r.MissingWikiId? || r.MalformedWikiId?
  }

  function ScanException(r: SlotRead): JavaException
    requires AbortsScan(r)
  {
    if r.MissingWikiId? then NullPointerException else NumberFormatException
  }

  /** The position at which the scan stops: the first aborting read, or the end. */
  function FirstAbort(slots: seq<SlotRead>): (k: nat)
    ensures k <= |slots|
    ensures forall j :: 0 <= j < k ==> !AbortsScan(slots[j])
    ensures k < |slots| ==> AbortsScan(slots[k])
  {
    if slots == [] then 0
    else if AbortsScan(slots[0]) then 0
    else 1 + FirstAbort(slots[1..])
  }

  /** The map after putting wikiId -> i for every readable position i, in order. */
  function BuildMap(slots: seq<SlotRead>): (m: map<int, int>)
    ensures forall k :: k in m ==> 0 <= m[k] < |slots| && slots[m[k]] == WikiId(k)
  {
    if slots == [] then map[]
    else
      var m := BuildMap(slots[..|slots| - 1]);
      match slots[|slots| - 1]
      case WikiId(id) => m[id := |slots| - 1]
      case _ => m
  }

  predicate NonNegValues(m: map<int, int>) {
    forall k :: k in m ==> m[k] >= 0
  }

  /** Every position stored in the map is one the scan visited. */
  lemma {:induction false} BuildMapValuesInRange(slots: seq<SlotRead>)
    ensures forall k :: k in BuildMap(slots) ==> 0 <= BuildMap(slots)[k] < |slots|
  {
    if slots != [] {
      BuildMapValuesInRange(slots[..|slots| - 1]);
    }
  }

  /** A key is present exactly when some visited position parses to it; unreadable positions add nothing. */
  lemma {:induction false} BuildMapKeys(slots: seq<SlotRead>, k: int)
    ensures k in BuildMap(slots) <==> exists i :: 0 <= i < |slots| && slots[i] == WikiId(k)
  {
    if slots != [] {
      var init := slots[..|slots| - 1];
      BuildMapKeys(init, k);
      if exists i :: 0 <= i < |slots| && slots[i] == WikiId(k) {
        var i :| 0 <= i < |slots| && slots[i] == WikiId(k);
        if i < |init| {
          assert init[i] == WikiId(k);
        }
      }
    }
  }

  /** A key maps to the last position that parses to it: a later put overwrites an earlier one. */
  lemma {:induction false} BuildMapLastPosition(slots: seq<SlotRead>, k: int)
    requires k in BuildMap(slots)
    ensures 0 <= BuildMap(slots)[k] < |slots|
    ensures slots[BuildMap(slots)[k]] == WikiId(k)
    ensures forall j :: BuildMap(slots)[k] < j < |slots| ==> slots[j] != WikiId(k)
  {
    var init := slots[..|slots| - 1];
    if slots[|slots| - 1] != WikiId(k) {
      BuildMapLastPosition(init, k);
    }
  }

  /** getLuceneId's answer for a loaded map: the stored position, or -1 when the key is absent. */
  function Lookup(m: map<int, int>, wikiId: int): (position: int)
    ensures wikiId in m ==> position == m[wikiId]
    ensures wikiId !in m ==> position == -1
    ensures position >= 0 ==> wikiId in m && m[wikiId] == position
    ensures NonNegValues(m) ==> (position == -1 <==> wikiId !in m)
  {
    if wikiId in m then m[wikiId] else -1
  }

  /** A lookup in a freshly built map: -1 exactly for ids no position parses to, else the last such position. */
  lemma LookupAfterBuild(slots: seq<SlotRead>, wikiId: int)
    ensures NonNegValues(BuildMap(slots))
    ensures Lookup(BuildMap(slots), wikiId) == -1 <==> forall i :: 0 <= i < |slots| ==> slots[i] != WikiId(wikiId)
    ensures var p := Lookup(BuildMap(slots), wikiId);
      p != -1 ==> 0 <= p < |slots| && slots[p] == WikiId(wikiId) &&
                  forall j :: p < j < |slots| ==> slots[j] != WikiId(wikiId)
  {
    BuildMapValuesInRange(slots);
    BuildMapKeys(slots, wikiId);
    if wikiId in BuildMap(slots) {
      BuildMapLastPosition(slots, wikiId);
    }
  }

  /** What getDoc goes on to do: return null, or read the document at a position. */
  datatype DocFetch = NoDocument | FetchAt(position: int)

  /** The guard of getDoc as written: only position 0 is turned into null. */
  function DocGuard(docId: int): (r: DocFetch)
    ensures r.NoDocument? <==> docId == 0
    ensures r.FetchAt? ==> r.position == docId
  {
    if docId == 0 then NoDocument else FetchAt(docId)
  }

  /**
   * With the guard as written, the document scanned first can never be
   * fetched, while an id that is not indexed reaches the reader as -1.
   */
  lemma DocGuardHidesFirstDocument(slots: seq<SlotRead>, indexed: int, missing: int)
    requires |slots| > 0 && slots[0] == WikiId(indexed)
    requires forall j :: 0 < j < |slots| ==> slots[j] != WikiId(indexed)
    requires forall j :: 0 <= j < |slots| ==> slots[j] != WikiId(missing)
    ensures indexed in BuildMap(slots) && DocGuard(Lookup(BuildMap(slots), indexed)) == NoDocument
    ensures missing !in BuildMap(slots) && DocGuard(Lookup(BuildMap(slots), missing)) == FetchAt(-1)
  {
    LookupAfterBuild(slots, indexed);
    LookupAfterBuild(slots, missing);
  }

  /** The guard the miss sentinel calls for: null exactly on a miss. */
  function DocGuardCorrected(docId: int): (r: DocFetch)
    ensures r.NoDocument? <==> docId < 0
    ensures r.FetchAt? ==> r.position == docId
  {
    if docId < 0 then NoDocument else FetchAt(docId)
  }

  /** With the corrected guard every indexed id is fetched at its position and only a miss gives null. */
  lemma DocGuardCorrectedSound(slots: seq<SlotRead>, wikiId: int)
    ensures var r := DocGuardCorrected(Lookup(BuildMap(slots), wikiId));
      (r.NoDocument? <==> forall i :: 0 <= i < |slots| ==> slots[i] != WikiId(wikiId)) &&
      (r.FetchAt? ==> 0 <= r.position < |slots| && slots[r.position] == WikiId(wikiId))
  {
    LookupAfterBuild(slots, wikiId);
  }

  /** Three documents with wiki-ids 1, 2, 3: id 2 is found at the second position and 99 is a miss. */
  lemma ThreeDocumentScenario()
    ensures Lookup(BuildMap([WikiId(1), WikiId(2), WikiId(3)]), 2) == 1
    ensures Lookup(BuildMap([WikiId(1), WikiId(2), WikiId(3)]), 99) == -1
  {
    var slots := [WikiId(1), WikiId(2), WikiId(3)];
    assert slots[..2] == [WikiId(1), WikiId(2)];
    assert slots[..2][..1] == [WikiId(1)];
    assert slots[..2][..1][..0] == [];
    LookupAfterBuild(slots, 99);
  }

  /**
   * A document without a wiki-id ahead of an indexed one: the scan throws at
   * position 0 and leaves a map without the later id, which a scan that
   * skipped the bad document would find at position 1.
   */
  lemma AbortedScanHidesLaterIds()
    ensures var slots := [MissingWikiId, WikiId(5)];
      FirstAbort(slots) == 0 && ScanException(slots[0]) == NullPointerException &&
      Lookup(BuildMap(slots[..FirstAbort(slots)]), 5) == -1 &&
      Lookup(BuildMap(slots), 5) == 1
  {
    var slots := [MissingWikiId, WikiId(5)];
    assert slots[..1] == [MissingWikiId];
    assert slots[..1][..0] == [];
  }
}
