/** The per-topic paper cache under papers/ that both the research server
    and the chatbot with sources and prompts read and write: one directory
    per normalised topic, each holding a papers_info.json document that maps
    paper ids to records. The filesystem is a value here: the folder's
    listing in os.listdir order, and each document either decodes or is
    corrupt. */
module PaperStore {
  import opened Wrappers
  import opened Text
  import opened OrderedMaps
  import JsonValues
  import PyValues

  const PaperDir: string := "papers"

  /** The fields search_papers stores for one paper. */
  datatype PaperRecord = PaperRecord(
    title: string,
    authors: seq<string>,
    summary: string,
    pdfUrl: string,
    published: string)

  /** One hit of an arXiv search: its short id and the record built from it. */
  datatype SearchResult = SearchResult(id: string, record: PaperRecord)

  /** A decoded papers_info.json: paper id to record, in file order. */
  type PaperMap = ODict<PaperRecord>

  /** A papers_info.json file: json.load either decodes it or raises
      JSONDecodeError. */
  datatype Document = Corrupt | Papers(info: PaperMap)

  /** An entry of papers/: not a directory, or a directory that may hold a
      papers_info.json file. */
  datatype Entry = File | Dir(doc: Option<Document>)

  datatype Item = Item(name: string, entry: Entry)

  /** papers/ itself: None when it does not exist, else its entries in
      listing order. */
  type Store = Option<seq<Item>>

  /** The OSErrors the cache operations raise. */
  datatype Fault =
    | FileExists(path: string)
    | NoSuchDirectory(path: string)

  /** str() of the exception. */
  function FaultText(f: Fault): string {
    match f
    case FileExists(p) => "[Errno 17] File exists: " + PyValues.Repr(p)
    case NoSuchDirectory(p) => "[Errno 2] No such file or directory: " + PyValues.Repr(p)
  }

  function Listing(store: Store): seq<Item> {
    store.GetOr([])
  }

  /** The entry names of a folder are distinct, and every document that
      decodes is a well-formed dict. */
  ghost predicate WellFormed(store: Store) {
    var l := Listing(store);
    && (forall i, j :: 0 <= i < j < |l| ==> l[i].name != l[j].name)
    && (forall i :: 0 <= i < |l| && Readable(l[i].entry).Some? ==> Valid(Readable(l[i].entry).value))
  }

  // ---------------------------------------------------------------------
  // Topic names

  /** topic.lower().replace(" ", "_"): the directory a topic is stored in. */
  function NormalizeTopic(topic: string): string {
    Replace(Lower(topic), ' ', '_')
  }

  /** dir.replace("_", " "): how a directory is shown as a topic. */
  function DisplayName(dir: string): string {
    Replace(dir, '_', ' ')
  }

  /** A name the flat folder model can hold: one path component. */
  predicate IsComponent(name: string) {
    name != "" && name != "." && name != ".." && '/' !in name
  }

  /** A directory name as search_papers creates it: no upper case, no space. */
  predicate IsNormalized(dir: string) {
    forall i :: 0 <= i < |dir| ==> !IsUpper(dir[i]) && dir[i] != ' '
  }

  lemma NormalizeIsNormalized(topic: string)
    ensures IsNormalized(NormalizeTopic(topic))
  {
  }

  /** Normalising a directory name again changes nothing, so search_papers
      and get_paper_count, which both normalise, agree on any topic. */
  lemma NormalizeIdempotent(topic: string)
    ensures NormalizeTopic(NormalizeTopic(topic)) == NormalizeTopic(topic)
  {
    var d := NormalizeTopic(topic);
    assert NormalizeTopic(d) == d by {
      NormalizeIsNormalized(topic);
      assert forall i :: 0 <= i < |d| ==> NormalizeTopic(d)[i] == d[i];
    }
  }

  /** A directory that search_papers created is found again from the name
      list_topics shows for it. */
  lemma {:induction false} DisplayThenNormalize(dir: string)
    requires IsNormalized(dir)
    ensures NormalizeTopic(DisplayName(dir)) == dir
  {
    var r := NormalizeTopic(DisplayName(dir));
    assert |r| == |dir|;
    forall i | 0 <= i < |dir| ensures r[i] == dir[i] {
      assert !IsUpper(DisplayName(dir)[i]);
    }
  }

  /** A lower-case topic without underscores is shown back exactly by
      list_topics; case and underscores are otherwise lost. */
  lemma {:induction false} NormalizeThenDisplay(topic: string)
    requires forall i :: 0 <= i < |topic| ==> !IsUpper(topic[i]) && topic[i] != '_'
    ensures DisplayName(NormalizeTopic(topic)) == topic
  {
    var r := DisplayName(NormalizeTopic(topic));
    assert |r| == |topic|;
    forall i | 0 <= i < |topic| ensures r[i] == topic[i] {
      assert Lower(topic)[i] == topic[i];
    }
  }

  // ---------------------------------------------------------------------
  // Reading the folder

  /** What json.load gives for an entry's papers_info.json: None when the
      entry is not a directory, has no document, or the document is corrupt. */
  function Readable(e: Entry): Option<PaperMap> {
    match e
    case Dir(Some(Papers(info))) => Some(info)
    case _ => None
  }

  /** The document search_papers starts from: a missing or corrupt document
      counts as {}. */
  function ReadOrEmpty(e: Entry): PaperMap {
    Readable(e).GetOr(Empty())
  }

  /** The position of the entry with the given name, or |l| if there is none. */
  function IndexOf(l: seq<Item>, name: string): (k: nat)
    ensures k <= |l|
    ensures k < |l| ==> l[k].name == name
    ensures forall j :: 0 <= j < k ==> l[j].name != name
    decreases |l|
  {
    if l == [] then 0
    else if l[0].name == name then 0
    else 1 + IndexOf(l[1..], name)
  }

  /** The position of the first entry with the name is what IndexOf finds. */
  lemma {:induction false} IndexOfFirst(l: seq<Item>, name: string, k: nat)
    requires k < |l| && l[k].name == name
    requires forall j :: 0 <= j < k ==> l[j].name != name
    ensures IndexOf(l, name) == k
    decreases k
  {
    if k > 0 {
      IndexOfFirst(l[1..], name, k - 1);
    }
  }

  // ---------------------------------------------------------------------
  // The upsert step of search_papers

  function ResultIds(results: seq<SearchResult>): (ids: seq<string>)
    ensures |ids| == |results|
    ensures forall i :: 0 <= i < |results| ==> ids[i] == results[i].id
  {
    seq(|results|, i requires 0 <= i < |results| => results[i].id)
  }

  /** The set of this call's ids. */
  function IdSet(results: seq<SearchResult>): (ids: set<string>)
    ensures forall x :: x in ids <==> exists i :: 0 <= i < |results| && results[i].id == x
    decreases |results|
  {
    if results == [] then {}
    else
      var rest := IdSet(results[1..]);
      assert forall i :: 1 <= i < |results| ==> results[i] == results[1..][i - 1];
      {results[0].id} + rest
  }

  /** papers_info[paper_id] = paper_info for each result in order. */
  function Merged(info: PaperMap, results: seq<SearchResult>): PaperMap
    decreases |results|
  {
    if results == [] then info
    else Merged(Put(info, results[0].id, results[0].record), results[1..])
  }

  /** After a merge the document holds the prior ids and this call's ids,
      the prior ids keep their order in front, and the document stays a
      well-formed dict. */
  lemma {:induction false} MergedKeys(info: PaperMap, results: seq<SearchResult>)
    ensures Valid(info) ==> Valid(Merged(info, results))
    ensures Merged(info, results).values.Keys
            == info.values.Keys + IdSet(results)
    ensures |Merged(info, results).keys| >= |info.keys|
    ensures Merged(info, results).keys[..|info.keys|] == info.keys
    decreases |results|
  {
    if results != [] {
      var next := Put(info, results[0].id, results[0].record);
      MergedKeys(next, results[1..]);
      var m := Merged(next, results[1..]);
      assert m.keys[..|info.keys|] == m.keys[..|next.keys|][..|info.keys|];
    }
  }

  /** Each id of this call maps to the record of its last occurrence. */
  lemma {:induction false} MergedLastWins(info: PaperMap, results: seq<SearchResult>, i: nat)
    requires i < |results|
    requires forall j :: i < j < |results| ==> results[j].id != results[i].id
    ensures results[i].id in Merged(info, results).values
    ensures Merged(info, results).values[results[i].id] == results[i].record
    decreases |results|
  {
    var first := results[0];
    var rest := results[1..];
    var next := Put(info, first.id, first.record);
    if i == 0 {
      forall j | 0 <= j < |rest| ensures rest[j].id != first.id {
        assert results[j + 1] == rest[j];
      }
      MergedKeepsOthers(next, rest, first.id);
    } else {
      assert rest[i - 1] == results[i];
      forall j | i - 1 < j < |rest| ensures rest[j].id != rest[i - 1].id {
        assert results[j + 1] == rest[j];
      }
      MergedLastWins(next, rest, i - 1);
    }
  }

  /** An entry no result of this call names keeps its record. */
  lemma {:induction false} MergedKeepsOthers(info: PaperMap, results: seq<SearchResult>, k: string)
    requires k in info.values
    requires forall i :: 0 <= i < |results| ==> results[i].id != k
    ensures k in Merged(info, results).values
    ensures Merged(info, results).values[k] == info.values[k]
    decreases |results|
  {
    if results != [] {
      var rest := results[1..];
      forall i | 0 <= i < |rest| ensures rest[i].id != k {
        assert results[i + 1] == rest[i];
      }
      MergedKeepsOthers(Put(info, results[0].id, results[0].record), rest, k);
    }
  }

  /** All of the above for one merge. */
  lemma MergedUpserts(info: PaperMap, results: seq<SearchResult>)
    ensures Valid(info) ==> Valid(Merged(info, results))
    ensures Merged(info, results).values.Keys
            == info.values.Keys + IdSet(results)
    ensures forall i :: 0 <= i < |results| && (forall j :: i < j < |results| ==> results[j].id != results[i].id)
              ==> Merged(info, results).values[results[i].id] == results[i].record
    ensures forall k :: k in info.values && (forall i :: 0 <= i < |results| ==> results[i].id != k)
              ==> Merged(info, results).values[k] == info.values[k]
    ensures |Merged(info, results).keys| >= |info.keys|
    ensures Merged(info, results).keys[..|info.keys|] == info.keys
  {
    MergedKeys(info, results);
    forall i | 0 <= i < |results| && (forall j :: i < j < |results| ==> results[j].id != results[i].id)
      ensures Merged(info, results).values[results[i].id] == results[i].record
    {
      MergedLastWins(info, results, i);
    }
    forall k | k in info.values && (forall i :: 0 <= i < |results| ==> results[i].id != k)
      ensures Merged(info, results).values[k] == info.values[k]
    {
      MergedKeepsOthers(info, results, k);
    }
  }

  /** The loop of search_papers: it collects the short ids of the results in
      order and upserts each record into the topic's document. */
  method MergeResults(info: PaperMap, results: seq<SearchResult>) returns (ids: seq<string>, merged: PaperMap)
    ensures ids == ResultIds(results)
    ensures merged == Merged(info, results)
  {
    ids := [];
    merged := info;
    var i := 0;
    while i < |results|
      invariant 0 <= i <= |results|
      invariant ids == ResultIds(results[..i])
      invariant Merged(merged, results[i..]) == Merged(info, results)
    {
      var paper := results[i];
      ids := ids + [paper.id];
      merged := Put(merged, paper.id, paper.record);
      assert results[i..][1..] == results[i + 1..];
      i := i + 1;
    }
    assert results[..i] == results;
  }

  /** The document search_papers merges into: the directory's document,
      read as {} when it is missing or corrupt, and {} for a new directory. */
  function PriorPapers(l: seq<Item>, dir: string): PaperMap {
    var k := IndexOf(l, dir);
    if k < |l| then ReadOrEmpty(l[k].entry) else Empty()
  }

  /** os.makedirs(papers/<dir>, exist_ok=True), then json.dump of the merged
      document into papers/<dir>/papers_info.json. makedirs creates papers/
      too when it is missing, and raises when papers/<dir> is not a
      directory. A new directory is listed last. */
  function Upsert(store: Store, dir: string, results: seq<SearchResult>): Result<Store, Fault> {
    var l := Listing(store);
    var k := IndexOf(l, dir);
    if k < |l| && l[k].entry.File? then Failure(FileExists(PaperDir + "/" + dir))
    else
      var written := Item(dir, Dir(Some(Papers(Merged(PriorPapers(l, dir), results)))));
      Success(Some(if k < |l| then l[k := written] else l + [written]))
  }

  /** The upsert fails exactly when papers/<dir> exists and is not a
      directory. Otherwise papers/ exists afterwards, the directory is found
      where it was (or last, when new) and holds a readable document equal
      to the prior one merged with this call's results, and every other
      entry is unchanged and keeps its place. */
  lemma {:induction false} UpsertWrites(store: Store, dir: string, results: seq<SearchResult>)
    ensures var l := Listing(store); var k := IndexOf(l, dir);
            Upsert(store, dir, results).Failure? <==> k < |l| && l[k].entry.File?
    ensures Upsert(store, dir, results).Success? ==>
              var l := Listing(store);
              var k := IndexOf(l, dir);
              var l' := Listing(Upsert(store, dir, results).value);
              && Upsert(store, dir, results).value.Some?
              && IndexOf(l', dir) == k
              && k < |l'|
              && Readable(l'[k].entry) == Some(Merged(PriorPapers(l, dir), results))
              && (forall j :: 0 <= j < |l| && j != k ==> l'[j] == l[j])
              && |l'| == if k < |l| then |l| else |l| + 1
  {
    var l := Listing(store);
    var k := IndexOf(l, dir);
    if !(k < |l| && l[k].entry.File?) {
      var written := Item(dir, Dir(Some(Papers(Merged(PriorPapers(l, dir), results)))));
      var l' := if k < |l| then l[k := written] else l + [written];
      assert Upsert(store, dir, results).value == Some(l');
      assert forall j :: 0 <= j < k ==> l'[j] == l[j];
      IndexOfFirst(l', dir, k);
    }
  }

  /** In a well-formed folder the document an upsert starts from is a
      well-formed dict. */
  lemma PriorValid(store: Store, dir: string)
    requires WellFormed(store)
    ensures Valid(PriorPapers(Listing(store), dir))
  {
    var l := Listing(store);
    var k := IndexOf(l, dir);
    if k < |l| {
      assert Readable(l[k].entry).Some? ==> Valid(Readable(l[k].entry).value);
    }
  }

  /** A well-formed folder stays well-formed under the upsert. */
  lemma {:induction false} UpsertKeepsWellFormed(store: Store, dir: string, results: seq<SearchResult>)
    requires WellFormed(store)
    requires Upsert(store, dir, results).Success?
    ensures WellFormed(Upsert(store, dir, results).value)
  {
    var l := Listing(store);
    var k := IndexOf(l, dir);
    var prior := PriorPapers(l, dir);
    var written := Item(dir, Dir(Some(Papers(Merged(prior, results)))));
    var l' := if k < |l| then l[k := written] else l + [written];
    assert Listing(Upsert(store, dir, results).value) == l';
    PriorValid(store, dir);
    MergedUpserts(prior, results);
    assert forall j :: 0 <= j < |l'| ==> l'[j].name == if j < |l| then l[j].name else dir;
  }

  // ---------------------------------------------------------------------
  // The scan of extract_info

  /** The entry is a directory whose document decodes and contains the id. */
  predicate Holds(it: Item, id: string) {
    Readable(it.entry).Some? && id in Readable(it.entry).value.values
  }

  /** The first entry in listing order that holds the id, or |l|. */
  function FirstHolder(l: seq<Item>, id: string): (k: nat)
    ensures k <= |l|
    ensures k < |l| ==> Holds(l[k], id)
    ensures forall j :: 0 <= j < k ==> !Holds(l[j], id)
    decreases |l|
  {
    if l == [] then 0
    else if Holds(l[0], id) then 0
    else 1 + FirstHolder(l[1..], id)
  }

  /** The record of the first holder of the id, if any. */
  function FirstMatch(l: seq<Item>, id: string): Option<PaperRecord> {
    var k := FirstHolder(l, id);
    if k < |l| then Some(Readable(l[k].entry).value.values[id]) else None
  }

  /** The loop of extract_info: it walks the listing, skips what is not a
      directory, has no document, or holds a corrupt document, and returns
      the record from the first document that contains the id. */
  method FindPaper(l: seq<Item>, paperId: string) returns (found: Option<PaperRecord>)
    ensures found.Some? <==> exists j :: 0 <= j < |l| && Holds(l[j], paperId)
    ensures found.Some? ==>
              exists j :: 0 <= j < |l| && Holds(l[j], paperId)
                && (forall i :: 0 <= i < j ==> !Holds(l[i], paperId))
                && found.value == Readable(l[j].entry).value.values[paperId]
    ensures found == FirstMatch(l, paperId)
  {
    var i := 0;
    while i < |l|
      invariant 0 <= i <= |l|
      invariant forall j :: 0 <= j < i ==> !Holds(l[j], paperId)
    {
      var item := l[i];
      if item.entry.Dir? && item.entry.doc.Some? {
        match item.entry.doc.value
        case Corrupt =>
        case Papers(info) =>
          if paperId in info.values {
            assert FirstHolder(l, paperId) == i;
            return Some(info.values[paperId]);
          }
      }
      i := i + 1;
    }
    assert FirstHolder(l, paperId) == |l|;
    return None;
  }

  // ---------------------------------------------------------------------
  // json.dumps(record, indent=2)

  function AuthorsJson(authors: seq<string>): string {
    if authors == [] then "[]"
    else
      "[\n"
      + Join(seq(|authors|, i requires 0 <= i < |authors| => "    " + JsonValues.Quote(authors[i])), ",\n")
      + "\n  ]"
  }

  /** The text extract_info returns for a record found in a document. */
  function RecordJson(r: PaperRecord): string {
    "{\n"
    + "  \"title\": " + JsonValues.Quote(r.title) + ",\n"
    + "  \"authors\": " + AuthorsJson(r.authors) + ",\n"
    + "  \"summary\": " + JsonValues.Quote(r.summary) + ",\n"
    + "  \"pdf_url\": " + JsonValues.Quote(r.pdfUrl) + ",\n"
    + "  \"published\": " + JsonValues.Quote(r.published) + "\n"
    + "}"
  }
}
