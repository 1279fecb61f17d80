# LuceneHelper, modelled in Dafny

Dexter is an entity-linking framework. `LuceneHelper` is its gateway to a
Lucene index of Wikipedia articles. This project models the logic that
class contains:

- **Article to document.** `toLuceneDocument` turns an article into an
  ordered list of index fields (module `DocumentBuilder`).
- **The wiki-id map.** The helper keeps a lazily built map from an
  article's wiki-id to its Lucene position. It is built by scanning the
  index, or loaded from the file named by the `lucene.wiki.id` property when that exists, and
  dumped to that file after a scan (`WikiIdMap`, `LuceneHelper`).
- **getDoc.** It puts guards on that map's answer.
- **Phrase and query shapes.** `getFreq` builds a positional phrase query.
  `query` shapes its capped result list (`Retrieval`, `LuceneHelper`).
- **rankBySimilarity.** It trims and normalises a context string
  (`ContextText`), parses it into a query, and overwrites the score of
  every entity match in place (`Rescoring`, `LuceneHelper`).

Lucene itself enters only as function parameters:

- `explain` is `searcher.explain` followed by `getValue`.
- `parse` is the `QueryParser`.
- `search` and `totalHits` stand for the searcher with its collector.
- `tokenize` is `Text.getTerms`.
- The SpotManager cleaner and the summarizer are the parameters `clean`
  and `summarize`.

The index is the sequence of what `reader.document(i)` yields for each
position `i` below `numDocs`:

- a wiki-id;
- an unreadable document (CorruptIndexException or IOException, which the
  scan catches);
- a document without the field, where `f.stringValue()` throws
  NullPointerException;
- a value that is not a Java int, where `new Integer` throws
  NumberFormatException.

An uncaught Java exception is an `Outcome.Threw` value.

Class `LuceneIndex.LuceneHelper` has these fields:

- `wikiIdToLuceneId` (None while null);
- `wikiIdFile`, which holds the contents of the file (None while it does
  not exist);
- `searcherOpen`, because the `searcher` field is only ever assigned by
  `getFreq` (line 476).

Each of its methods states its whole new state. It does so through the
ghost functions `MapAfterLoad`, `LoadResult` and `FileAfterLoad`, which
say what the first `getLuceneId` call will find and leave behind. The
candidate loop runs on an `array<Candidate>` that it mutates in place. It
is proved equal to the value-level function `Rescoring.RescoreLoop`, and
the lemmas of `Rescoring` are about that function.

Two behaviours of the code are easy to misread:

- **Scan failures.** A document with a missing or malformed wiki-id is not
  skipped. Only CorruptIndexException and IOException are caught (lines
  200-206), so the other two failures end the scan with an exception. The
  map field was already assigned at line 189, so it stays non-null and
  partial, and later lookups answer from it. See Findings.
- **Rescoring.** The score is overwritten, not added to (line 642): `0.5`
  on a miss, `0.5 + similarity` on a hit.

## Model

| member | source | states |
|---|---|---|
| ContextText.Trim | dexter-core/src/main/java/it/cnr/isti/hpc/dexter/lucene/LuceneHelper.java:589 | `String.trim`: the result is a slice of the string whose removed prefix and suffix consist only of characters up to U+0020, and a non-empty result starts and ends with a character above U+0020 |
| ContextText.Normalize | dexter-core/src/main/java/it/cnr/isti/hpc/dexter/lucene/LuceneHelper.java:598 | `replaceAll("[^A-Za-z0-9 ]", " ")`: the result has the input's length and holds only characters of `[A-Za-z0-9 ]` |
| ContextText.TrimEmptyIffBlank | dexter-core/src/main/java/it/cnr/isti/hpc/dexter/lucene/LuceneHelper.java:589-592 | the trimmed context is empty exactly when every character of it is at most U+0020 |
| ContextText.NormalizeAt | dexter-core/src/main/java/it/cnr/isti/hpc/dexter/lucene/LuceneHelper.java:598 | normalisation keeps the length and maps each character of `[A-Za-z0-9 ]` to itself and every other character to a space |
| ContextText.NormalizeOnlyQueryChars | dexter-core/src/main/java/it/cnr/isti/hpc/dexter/lucene/LuceneHelper.java:598 | the normalised context holds only characters of `[A-Za-z0-9 ]`, and the allowed characters are unchanged |
| ContextText.NormalizeFixesQueryStrings | dexter-core/src/main/java/it/cnr/isti/hpc/dexter/lucene/LuceneHelper.java:598 | a context made only of allowed characters is left as it is |
| ContextText.NormalizeIdempotent | dexter-core/src/main/java/it/cnr/isti/hpc/dexter/lucene/LuceneHelper.java:598 | normalising twice equals normalising once |
| WikiIdMap.BuildMap | dexter-core/src/main/java/it/cnr/isti/hpc/dexter/lucene/LuceneHelper.java:193-199 | the map after the in-order puts of the readable positions: every key is mapped to a position below the scanned length that carries it |
| WikiIdMap.FirstAbort | dexter-core/src/main/java/it/cnr/isti/hpc/dexter/lucene/LuceneHelper.java:193-206 | the scan stops at the first document whose wiki-id is missing or malformed, or runs to the end when there is none |
| WikiIdMap.BuildMapValuesInRange | dexter-core/src/main/java/it/cnr/isti/hpc/dexter/lucene/LuceneHelper.java:189-199 | every position the scan stores lies in `[0, numDocs)` |
| WikiIdMap.BuildMapKeys | dexter-core/src/main/java/it/cnr/isti/hpc/dexter/lucene/LuceneHelper.java:193-206 | an id is a key exactly when some scanned position yields it; unreadable documents add nothing |
| WikiIdMap.BuildMapLastPosition | dexter-core/src/main/java/it/cnr/isti/hpc/dexter/lucene/LuceneHelper.java:193-199 | a key maps to the last position yielding it, because a later `put` overwrites |
| WikiIdMap.Lookup | dexter-core/src/main/java/it/cnr/isti/hpc/dexter/lucene/LuceneHelper.java:254-256 | a key's answer is its stored value `m[wikiId]`, a non-key's is -1; over a map of non-negative positions the answer is -1 exactly for a non-key |
| WikiIdMap.LookupAfterBuild | dexter-core/src/main/java/it/cnr/isti/hpc/dexter/lucene/LuceneHelper.java:250-257 | on a built map, -1 exactly when no document carries the id, otherwise the last position carrying it |
| WikiIdMap.ThreeDocumentScenario | dexter-core/src/main/java/it/cnr/isti/hpc/dexter/lucene/LuceneHelper.java:193-199 | with documents carrying ids 1, 2, 3, id 2 is found at position 1 and id 99 gets -1 |
| WikiIdMap.DocGuard | dexter-core/src/main/java/it/cnr/isti/hpc/dexter/lucene/LuceneHelper.java:455-464 | getDoc answers null exactly for position 0, and otherwise reads the document at the looked-up position, -1 included |
| WikiIdMap.DocGuardHidesFirstDocument | dexter-core/src/main/java/it/cnr/isti/hpc/dexter/lucene/LuceneHelper.java:453-464 | as written, the article at position 0 is reported missing and a missing article is read at -1 |
| WikiIdMap.DocGuardCorrected | dexter-core/src/main/java/it/cnr/isti/hpc/dexter/lucene/LuceneHelper.java:455-460 | the guard getDoc evidently intends: null exactly for a negative position, otherwise the read at that position |
| WikiIdMap.DocGuardCorrectedSound | dexter-core/src/main/java/it/cnr/isti/hpc/dexter/lucene/LuceneHelper.java:453-464 | with a guard on a negative position, null comes back exactly for missing ids, and every other id is read at a position carrying it |
| WikiIdMap.AbortedScanHidesLaterIds | dexter-core/src/main/java/it/cnr/isti/hpc/dexter/lucene/LuceneHelper.java:195-206 | a document without a wiki-id at position 0 makes the scan throw NullPointerException and leaves a map without the id at position 1 |
| Rescoring.Similarity | dexter-core/src/main/java/it/cnr/isti/hpc/dexter/lucene/LuceneHelper.java:259-269 | getSimilarity's value at a position: the explanation value, or 0 when explaining throws IOException |
| Rescoring.Rescore | dexter-core/src/main/java/it/cnr/isti/hpc/dexter/lucene/LuceneHelper.java:631-643 | one candidate after the loop body: its id is kept, its score is 0.5 on a miss and 0.5 plus the similarity at its position on a hit |
| Rescoring.RescoreAll | dexter-core/src/main/java/it/cnr/isti/hpc/dexter/lucene/LuceneHelper.java:631-643 | every candidate rescored, in list order; the length is kept |
| Rescoring.RescoreLoop | dexter-core/src/main/java/it/cnr/isti/hpc/dexter/lucene/LuceneHelper.java:631-643 | the list and outcome the loop leaves: the length is kept; it returns normally exactly when the list is empty, or the map loads and the searcher is open or no candidate hits; a failed load leaves the list unchanged and throws the load's exception |
| Rescoring.FirstHit | dexter-core/src/main/java/it/cnr/isti/hpc/dexter/lucene/LuceneHelper.java:631-643 | the first candidate with a position: all before it miss |
| Rescoring.RescoreAllAt | dexter-core/src/main/java/it/cnr/isti/hpc/dexter/lucene/LuceneHelper.java:631-643 | rescoring keeps the length and treats each candidate on its own, in list order |
| Rescoring.RescoreAllScores | dexter-core/src/main/java/it/cnr/isti/hpc/dexter/lucene/LuceneHelper.java:631-643 | each candidate keeps its id; the new score is 0.5 when the id is not a key, and 0.5 plus the similarity at its position otherwise |
| Rescoring.RescoreDiscardsPreviousScores | dexter-core/src/main/java/it/cnr/isti/hpc/dexter/lucene/LuceneHelper.java:633-642 | the previous scores are discarded: two lists with the same ids rescore to the same list |
| Rescoring.RescoreLoopKeepsIds | dexter-core/src/main/java/it/cnr/isti/hpc/dexter/lucene/LuceneHelper.java:631-643 | however the loop ends, the list keeps its length, order and ids |
| Rescoring.RescoreLoopCompletes | dexter-core/src/main/java/it/cnr/isti/hpc/dexter/lucene/LuceneHelper.java:631-643 | with the map loaded and the searcher open, the loop rescores every candidate and returns normally |
| Rescoring.ClosedSearcherStopsAtFirstHit | dexter-core/src/main/java/it/cnr/isti/hpc/dexter/lucene/LuceneHelper.java:631-643 | with no searcher, the first hit throws NullPointerException; the misses before it got 0.5 and the rest are untouched |
| Retrieval.Phrase | dexter-core/src/main/java/it/cnr/isti/hpc/dexter/lucene/LuceneHelper.java:482-486 | the phrase getFreq builds: one term per token, the last token at the last position |
| Retrieval.PhraseAt | dexter-core/src/main/java/it/cnr/isti/hpc/dexter/lucene/LuceneHelper.java:482-486 | the phrase has one term per token on the given field, token i at position i |
| Retrieval.BuildPhraseQuery | dexter-core/src/main/java/it/cnr/isti/hpc/dexter/lucene/LuceneHelper.java:481-487 | the loop with the counter `i++` builds exactly that phrase |
| Retrieval.TopHits | dexter-core/src/main/java/it/cnr/isti/hpc/dexter/lucene/LuceneHelper.java:541-542 | the collector keeps the first min(n, 10000) ranked hits |
| Retrieval.CollectDocIds | dexter-core/src/main/java/it/cnr/isti/hpc/dexter/lucene/LuceneHelper.java:562-566 | one document id per kept hit, in hit order |
| Retrieval.Quoted | dexter-core/src/main/java/it/cnr/isti/hpc/dexter/lucene/LuceneHelper.java:546-549 | the parsed text is the query between two double quotes |
| DocumentBuilder.ReplaceChar | dexter-core/src/main/java/it/cnr/isti/hpc/dexter/lucene/LuceneHelper.java:394-395 | `replace('_', ' ')` keeps the length, turns every `_` into a space, leaves every other character alone and leaves no `_` |
| DocumentBuilder.PackedDocument | dexter-core/src/main/java/it/cnr/isti/hpc/dexter/lucene/LuceneHelper.java:368-402 | the document toLuceneDocument builds: seven single fields plus one per list item, infobox line, highlight and section and two per link; the title first and the summary last |
| DocumentBuilder.ToLuceneDocument | dexter-core/src/main/java/it/cnr/isti/hpc/dexter/lucene/LuceneHelper.java:368-402 | the appended fields are exactly the packed document: names, values and field types in order |
| DocumentBuilder.AddListFields | dexter-core/src/main/java/it/cnr/isti/hpc/dexter/lucene/LuceneHelper.java:374-377 | the nested loop appends one unstored lists field per item, list after list |
| DocumentBuilder.AddTextFields | dexter-core/src/main/java/it/cnr/isti/hpc/dexter/lucene/LuceneHelper.java:380-388 | each loop appends one field per string, in order |
| DocumentBuilder.AddLinkFields | dexter-core/src/main/java/it/cnr/isti/hpc/dexter/lucene/LuceneHelper.java:390-396 | the loop appends a desc field and then a link field per link |
| DocumentBuilder.NamedLinkFields | dexter-core/src/main/java/it/cnr/isti/hpc/dexter/lucene/LuceneHelper.java:390-396 | the desc fields hold the cleaned descriptions and the link fields the cleaned targets; no other name occurs |
| DocumentBuilder.PackedNamed | dexter-core/src/main/java/it/cnr/isti/hpc/dexter/lucene/LuceneHelper.java:368-402 | the values stored under any one name, part by part |
| DocumentBuilder.LuceneNamesDistinct | dexter-core/src/main/java/it/cnr/isti/hpc/dexter/lucene/LuceneHelper.java:370-400 | the twelve field names are distinct strings |
| DocumentBuilder.FlattenLength | dexter-core/src/main/java/it/cnr/isti/hpc/dexter/lucene/LuceneHelper.java:374-377 | flattening the lists keeps every item |
| DocumentBuilder.PackedHeaderFields | dexter-core/src/main/java/it/cnr/isti/hpc/dexter/lucene/LuceneHelper.java:370-373 | title, wiki-id, wiki-title and type each occur once, with the article's values |
| DocumentBuilder.PackedListValues | dexter-core/src/main/java/it/cnr/isti/hpc/dexter/lucene/LuceneHelper.java:374-377 | the lists field holds every item of every list, in order, duplicates kept |
| DocumentBuilder.PackedInfoboxValues | dexter-core/src/main/java/it/cnr/isti/hpc/dexter/lucene/LuceneHelper.java:378-382 | the infobox field holds the template name and then each description line |
| DocumentBuilder.PackedEmphAndSectionFields | dexter-core/src/main/java/it/cnr/isti/hpc/dexter/lucene/LuceneHelper.java:383-388 | the emph field holds every highlight and the sections field every section header, in order |
| DocumentBuilder.PackedLinkValues | dexter-core/src/main/java/it/cnr/isti/hpc/dexter/lucene/LuceneHelper.java:390-396 | desc and link hold the cleaned description and the cleaned target of every link, in link order |
| DocumentBuilder.PackedTextFields | dexter-core/src/main/java/it/cnr/isti/hpc/dexter/lucene/LuceneHelper.java:398-400 | content holds the cleaned text and summary the summary, once each |
| DocumentBuilder.PackedFieldCounts | dexter-core/src/main/java/it/cnr/isti/hpc/dexter/lucene/LuceneHelper.java:368-402 | entry counts: the lists count is the total item count, infobox is 1 + the description length, emph the number of highlights, sections the number of sections, desc and link one each per link, and one each of the six single fields |
| DocumentBuilder.PackedLinksInOrder | dexter-core/src/main/java/it/cnr/isti/hpc/dexter/lucene/LuceneHelper.java:390-396 | desc entry i and link entry i come from link i |
| LuceneIndex.LuceneHelper.constructor | dexter-core/src/main/java/it/cnr/isti/hpc/dexter/lucene/LuceneHelper.java:138-158 | a new helper has no map loaded and no searcher |
| LuceneIndex.LuceneHelper.ParseWikiIdToLuceneId | dexter-core/src/main/java/it/cnr/isti/hpc/dexter/lucene/LuceneHelper.java:186-210 | the field becomes the map of the scanned prefix; the call throws the aborting read's exception or returns |
| LuceneIndex.LuceneHelper.ParseWikiIdToLuceneIdCorrected | dexter-core/src/main/java/it/cnr/isti/hpc/dexter/lucene/LuceneHelper.java:193-206 | with every failing read skipped, the field becomes the map of the whole index |
| LuceneIndex.LuceneHelper.LoadWikiIdToLuceneId | dexter-core/src/main/java/it/cnr/isti/hpc/dexter/lucene/LuceneHelper.java:226-248 | with a file, the field takes its map; without one, the index is scanned and the map dumped unless the scan threw |
| LuceneIndex.LuceneHelper.GetLuceneId | dexter-core/src/main/java/it/cnr/isti/hpc/dexter/lucene/LuceneHelper.java:250-257 | a null field is loaded first; the answer is the lookup in the loaded map, or the exception of an aborted scan |
| LuceneIndex.LuceneHelper.GetSimilarity | dexter-core/src/main/java/it/cnr/isti/hpc/dexter/lucene/LuceneHelper.java:259-269 | the explanation value at the id's position, 0 on IOException, and NullPointerException with no searcher |
| LuceneIndex.LuceneHelper.GetSimilarityCorrected | dexter-core/src/main/java/it/cnr/isti/hpc/dexter/lucene/LuceneHelper.java:259-269 | with the searcher opened before use, getSimilarity never throws NullPointerException; only an aborted map load can throw |
| LuceneIndex.LuceneHelper.RescoreCandidates | dexter-core/src/main/java/it/cnr/isti/hpc/dexter/lucene/LuceneHelper.java:631-643 | the array after the loop, and how the loop ends, are those of the value-level loop on the old array and state |
| LuceneIndex.LuceneHelper.RankBySimilarity | dexter-core/src/main/java/it/cnr/isti/hpc/dexter/lucene/LuceneHelper.java:587-647 | a blank context changes nothing; an unparsable one throws NullPointerException and changes nothing; otherwise the candidates are rescored and the map and file are left as the first lookup loads them |
| LuceneIndex.LuceneHelper.RankBySimilarityCorrected | dexter-core/src/main/java/it/cnr/isti/hpc/dexter/lucene/LuceneHelper.java:603-609 | with the catch block only returning, a parse failure returns normally and changes nothing |
| LuceneIndex.LuceneHelper.GetDoc | dexter-core/src/main/java/it/cnr/isti/hpc/dexter/lucene/LuceneHelper.java:449-472 | no document for wiki-id <= 0, without touching the map; otherwise the guarded answer at the looked-up position |
| LuceneIndex.LuceneHelper.GetFreq | dexter-core/src/main/java/it/cnr/isti/hpc/dexter/lucene/LuceneHelper.java:474-500 | the searcher is opened; the answer is the total hit count of the phrase, or -1 when the search throws |
| LuceneIndex.LuceneHelper.GetContentFreq | dexter-core/src/main/java/it/cnr/isti/hpc/dexter/lucene/LuceneHelper.java:502-504 | getFreq on the content field |
| LuceneIndex.LuceneHelper.Query | dexter-core/src/main/java/it/cnr/isti/hpc/dexter/lucene/LuceneHelper.java:539-570 | empty on a parse or search failure, NullPointerException with no searcher, otherwise the ids of the first min(n, 10000) hits in hit order |
| LuceneIndex.LuceneHelper.QueryCorrected | dexter-core/src/main/java/it/cnr/isti/hpc/dexter/lucene/LuceneHelper.java:539-570 | with the searcher opened before use, query never throws: empty on a parse or search failure, otherwise the ids of the first min(n, 10000) hits in order |
| LuceneIndex.FreshHelperQueryThrows | dexter-core/src/main/java/it/cnr/isti/hpc/dexter/lucene/LuceneHelper.java:555-556 | on a helper where getFreq never ran, query throws NullPointerException for any text that parses |
| LuceneIndex.FirstLookupScansIndex | dexter-core/src/main/java/it/cnr/isti/hpc/dexter/lucene/LuceneHelper.java:250-257 | with neither map nor file and a clean scan, the first lookup scans the whole index, dumps it, and answers -1 exactly for ids no document carries |
| LuceneIndex.LoadedMapIsKept | dexter-core/src/main/java/it/cnr/isti/hpc/dexter/lucene/LuceneHelper.java:250-252 | once the field holds a map, a lookup neither scans nor touches the file |

## Left out

- **Lucene itself.** IndexWriter, DirectoryReader, FSDirectory, `addDocument`, `commit`, `clearIndex`, `closeWriter`, `numDocs`, `getWriter`, `getReader` and `getSearcher` are foreign calls and disk I/O. The index is a fixed sequence of reads, and parsing, explaining, searching and tokenising are function parameters.
- **Deleted documents.** The scan reads positions `0..numDocs-1` as the code does. How Lucene numbers documents when some are deleted (numDocs below maxDoc) is not modelled.
- **Map persistence.** Java serialization is not modelled: `wikiIdFile` holds the map the file would deserialize to. A read or write failure ends the process with `System.exit`, which is not modelled. `dumpWikiIdToLuceneId` is modelled only as the dump `loadWikiIdToLuceneId` performs, not as a public call with a possibly null map.
- **The static map.** `wikiIdToLuceneId` is a static field shared by every helper in a JVM. The model gives each helper its own map. The singleton `getDexterLuceneHelper` is not modelled.
- **getDoc reading position -1.** `GetDoc` answers `FetchAt(-1)` for a missing wiki-id. What `reader.document(-1)` then does (an exception caught by `System.exit(-1)`) is Lucene's behaviour and is not modelled. The same goes for `explain` at position -1 when `getSimilarity` is called on an unknown id.
- **Float scores.** Scores are reals. The rounding of the Java float `0.5f + similarity` is not modelled.
- **QueryParser.escape.** It runs on the normalised context. The model hands the normalised context to `parse` directly, since normalisation leaves only letters, digits and spaces, none of which `escape` changes.
- **Unused parameters.** The `spot` parameter of rankBySimilarity is dropped: it is logged, and read by `spot.getText()` on the blank-context branch (line 590) only for that log line.
- **Null references.** Null references passed in (spot, context, article accessors such as the title or infobox at lines 370 and 379-380) are not modelled: each would throw NullPointerException at its first dereference.
- **UTF-16 length.** Strings are sequences of code points. Java's `length()` counts UTF-16 units, and `replaceAll` turns a supplementary character (two units) into one space, so the Java length shrinks there; `ContextText.Normalize` keeps the code-point length.
- **Integer width.** Wiki-ids and positions are Java ints. They are unbounded here because the code does no arithmetic on them beyond the loop counter.
- **tf-idf and cosine similarity.** `getCosineSimilarity` and `tfidfVector` (lines 282-366) are floating-point code with logarithms and square roots. Two structural quirks are noted, not modelled:
  - line 348 rebinds the `tfidf` parameter, so the caller's maps stay empty;
  - line 333 assigns the dot product instead of accumulating it.
- **getArticle.** Lines 572-585 are not part of the core. They read the `content` field, which is not stored.
- **Aliasing of entity matches.** The matches are values in an array, not shared objects, so one EntityMatch listed twice is two entries here. If the loop throws between two such entries, Java would already show the first entry's new score on the second; the model keeps the old score there.
- **Other code.** IdToLabel.java is an interface with no logic. Logging and ProgressLogger are not modelled.

## Findings

| source | as written | input that shows it | evidently intended | confidence | as-written member | corrected member |
|---|---|---|---|---|---|---|
| dexter-core/src/main/java/it/cnr/isti/hpc/dexter/lucene/LuceneHelper.java:456 | getDoc treats looked-up position 0 as "no id" and lets the miss value -1 through to `reader.document` | an index whose position 0 holds wiki-id 7: `getDoc(7)` is null; an id not in the map is read at -1 | the guard is on a negative position (`docId < 0`) | high, not executed | WikiIdMap.DocGuardHidesFirstDocument | WikiIdMap.DocGuardCorrectedSound |
| dexter-core/src/main/java/it/cnr/isti/hpc/dexter/lucene/LuceneHelper.java:603-606 | on a ParseException the catch block casts the still-null `q` and calls a method on it | a non-blank context with no letter or digit, such as `!!!`, which normalises to spaces that do not parse; or a context of more than 1000 terms that are not stop words: it passes the clause limit set at line 143, and Lucene reports the overflow as a ParseException; `rankBySimilarity` then throws NullPointerException | log and return, leaving the scores unchanged | high, not executed | LuceneIndex.LuceneHelper.RankBySimilarity | LuceneIndex.LuceneHelper.RankBySimilarityCorrected |
| dexter-core/src/main/java/it/cnr/isti/hpc/dexter/lucene/LuceneHelper.java:195-206 | only CorruptIndexException and IOException are caught, so a document without a wiki-id (NullPointerException) or with a non-integer one (NumberFormatException) ends the scan; the already assigned field keeps the partial map, and no later call rebuilds it | position 0 has no wiki-id field and position 1 holds wiki-id 5: the first `getLuceneId(5)` throws, and every later call answers -1 | skip the bad document and scan on | medium, not executed | WikiIdMap.AbortedScanHidesLaterIds | LuceneIndex.LuceneHelper.ParseWikiIdToLuceneIdCorrected |
| dexter-core/src/main/java/it/cnr/isti/hpc/dexter/lucene/LuceneHelper.java:476 | the `searcher` field is assigned only in getFreq, while query (line 556) and getSimilarity (line 263) dereference it | a new helper on which getFreq never ran: `query("dexter")` throws NullPointerException, and so does `rankBySimilarity` at its first indexed candidate | open the searcher before it is used, as getFreq does | high, not executed | LuceneIndex.FreshHelperQueryThrows | LuceneIndex.LuceneHelper.QueryCorrected |
