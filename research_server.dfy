/** The four tools of the research-papers MCP server: search_papers,
    extract_info, list_topics and get_paper_count, over the paper cache. The
    arXiv search is given as its sequence of results. */
module ResearchServer {
  import opened Wrappers
  import opened Text
  import opened OrderedMaps
  import opened PaperStore

  /** What a successful search_papers call returns and leaves behind. */
  datatype Searched = Searched(ids: seq<string>, store: Store)

  // ---------------------------------------------------------------------
  // search_papers

  /** search_papers: with no results it returns [] before touching the
      folder; otherwise it upserts the results into the topic's directory
      and returns this call's ids. */
  function SearchSpec(store: Store, topic: string, results: seq<SearchResult>): Result<Searched, Fault>
    requires results != [] ==> IsComponent(NormalizeTopic(topic))
  {
    if results == [] then Success(Searched([], store))
    else
      match Upsert(store, NormalizeTopic(topic), results)
      case Failure(f) => Failure(f)
      case Success(s) => Success(Searched(ResultIds(results), s))
  }

  method SearchPapers(store: Store, topic: string, results: seq<SearchResult>) returns (r: Result<Searched, Fault>)
    requires results != [] ==> IsComponent(NormalizeTopic(topic))
    ensures r == SearchSpec(store, topic, results)
  {
    if results == [] {
      return Success(Searched([], store));
    }
    var dir := NormalizeTopic(topic);
    var l := Listing(store);
    var k := IndexOf(l, dir);
    if k < |l| && l[k].entry.File? {
      return Failure(FileExists(PaperDir + "/" + dir));
    }
    var prior := if k < |l| then ReadOrEmpty(l[k].entry) else Empty();
    var ids, merged := MergeResults(prior, results);
    var written := Item(dir, Dir(Some(Papers(merged))));
    var l' := if k < |l| then l[k := written] else l + [written];
    return Success(Searched(ids, Some(l')));
  }

  /** An empty search returns [] and leaves the folder exactly as it was,
      whatever the topic: no directory is created and nothing is written. */
  lemma SearchEmptyChangesNothing(store: Store, topic: string)
    ensures SearchSpec(store, topic, []) == Success(Searched([], store))
  {
  }

  /** A non-empty search fails exactly when the topic's path is taken by a
      non-directory. When it succeeds it returns this call's ids in result
      order (not the document's key set); the topic's document then holds
      the prior ids and this call's ids, each new id maps to the record of
      its last occurrence, every other paper keeps its record, a missing or
      corrupt prior document counts as {}, and every other entry of the
      folder is unchanged. */
  lemma {:induction false} SearchStores(store: Store, topic: string, results: seq<SearchResult>)
    requires IsComponent(NormalizeTopic(topic))
    requires results != []
    ensures var l := Listing(store); var k := IndexOf(l, NormalizeTopic(topic));
            SearchSpec(store, topic, results).Failure? <==> k < |l| && l[k].entry.File?
    ensures SearchSpec(store, topic, results).Success? ==>
              var dir := NormalizeTopic(topic);
              var l := Listing(store);
              var k := IndexOf(l, dir);
              var prior := PriorPapers(l, dir);
              var out := SearchSpec(store, topic, results).value;
              var l' := Listing(out.store);
              && out.ids == ResultIds(results)
              && out.store.Some?
              && IndexOf(l', dir) == k && k < |l'|
              && Readable(l'[k].entry).Some?
              && var doc := Readable(l'[k].entry).value;
              && doc.values.Keys == prior.values.Keys + IdSet(results)
              && (forall i :: 0 <= i < |results| && (forall j :: i < j < |results| ==> results[j].id != results[i].id)
                    ==> doc.values[results[i].id] == results[i].record)
              && (forall p :: p in prior.values && p !in IdSet(results) ==> doc.values[p] == prior.values[p])
              && (forall j :: 0 <= j < |l| && j != k ==> l'[j] == l[j])
  {
    var dir := NormalizeTopic(topic);
    UpsertWrites(store, dir, results);
    MergedUpserts(PriorPapers(Listing(store), dir), results);
  }

  /** A well-formed folder stays well-formed under search_papers. */
  lemma SearchKeepsWellFormed(store: Store, topic: string, results: seq<SearchResult>)
    requires results != [] ==> IsComponent(NormalizeTopic(topic))
    requires WellFormed(store)
    requires SearchSpec(store, topic, results).Success?
    ensures WellFormed(SearchSpec(store, topic, results).value.store)
  {
    if results != [] {
      UpsertKeepsWellFormed(store, NormalizeTopic(topic), results);
    }
  }

  // ---------------------------------------------------------------------
  // extract_info

  const MissingFolderText: string := "Papers directory 'papers' does not exist."

  function NotSavedText(paperId: string): string {
    "There's no saved information related to paper " + paperId + "."
  }

  /** The text extract_info returns. */
  function ExtractInfoText(store: Store, paperId: string): string {
    match store
    case None => MissingFolderText
    case Some(l) =>
      match FirstMatch(l, paperId)
      case Some(rec) => RecordJson(rec)
      case None => NotSavedText(paperId)
  }

  /** extract_info: the fixed message when papers/ is missing; the record of
      the first directory in listing order whose readable document holds the
      id; the fixed not-saved message when none does. */
  method ExtractInfo(store: Store, paperId: string) returns (text: string)
    ensures store.None? ==> text == MissingFolderText
    ensures (store.Some? && forall j :: 0 <= j < |store.value| ==> !Holds(store.value[j], paperId))
              ==> text == NotSavedText(paperId)
    ensures store.Some? ==>
              forall j :: 0 <= j < |store.value| && Holds(store.value[j], paperId)
                && (forall i :: 0 <= i < j ==> !Holds(store.value[i], paperId))
                ==> text == RecordJson(Readable(store.value[j].entry).value.values[paperId])
    ensures text == ExtractInfoText(store, paperId)
  {
    if store.None? {
      return MissingFolderText;
    }
    var found := FindPaper(store.value, paperId);
    if found.Some? {
      text := RecordJson(found.value);
    } else {
      text := NotSavedText(paperId);
    }
    assert forall j :: (0 <= j < |store.value| && Holds(store.value[j], paperId)
      && (forall i :: 0 <= i < j ==> !Holds(store.value[i], paperId))) ==> j == FirstHolder(store.value, paperId);
  }

  /** Once search_papers has stored a paper under a topic whose directory
      comes first among the holders of the id, extract_info returns it. */
  lemma {:induction false} ExtractAfterSearch(store: Store, topic: string, results: seq<SearchResult>, i: nat)
    requires IsComponent(NormalizeTopic(topic))
    requires i < |results|
    requires forall j :: i < j < |results| ==> results[j].id != results[i].id
    requires SearchSpec(store, topic, results).Success?
    requires forall j :: 0 <= j < |Listing(store)| && j != IndexOf(Listing(store), NormalizeTopic(topic))
               ==> !Holds(Listing(store)[j], results[i].id)
    ensures ExtractInfoText(SearchSpec(store, topic, results).value.store, results[i].id) == RecordJson(results[i].record)
  {
    var dir := NormalizeTopic(topic);
    var l := Listing(store);
    var k := IndexOf(l, dir);
    SearchStores(store, topic, results);
    var out := SearchSpec(store, topic, results).value;
    var l' := Listing(out.store);
    var id := results[i].id;
    var doc := Readable(l'[k].entry).value;
    assert doc.values[id] == results[i].record;
    assert Holds(l'[k], id);
    forall j | 0 <= j < k ensures !Holds(l'[j], id) {
      assert l'[j] == l[j];
    }
    FirstHolderIs(l', id, k);
    assert FirstMatch(l', id) == Some(results[i].record);
    assert out.store == Some(l');
  }

  lemma {:induction false} FirstHolderIs(l: seq<Item>, id: string, k: nat)
    requires k < |l| && Holds(l[k], id)
    requires forall j :: 0 <= j < k ==> !Holds(l[j], id)
    ensures FirstHolder(l, id) == k
    decreases k
  {
    if k > 0 {
      FirstHolderIs(l[1..], id, k - 1);
    }
  }

  // ---------------------------------------------------------------------
  // list_topics

  /** The display names of the directories of a listing, in listing order. */
  function TopicNames(l: seq<Item>): (r: seq<string>)
    ensures |r| <= |l|
    ensures forall t :: t in r <==> exists j :: 0 <= j < |l| && l[j].entry.Dir? && DisplayName(l[j].name) == t
    decreases |l|
  {
    if l == [] then []
    else
      var rest := TopicNames(l[1..]);
      assert forall j :: 1 <= j < |l| ==> l[j] == l[1..][j - 1];
      if l[0].entry.Dir? then [DisplayName(l[0].name)] + rest else rest
  }

  /** Names for the directories of two listings are the names of each, in
      order. */
  lemma {:induction false} TopicNamesAppend(a: seq<Item>, b: seq<Item>)
    ensures TopicNames(a + b) == TopicNames(a) + TopicNames(b)
    decreases |a|
  {
    if a == [] {
      assert a + b == b;
    } else {
      TopicNamesAppend(a[1..], b);
      assert (a + b)[1..] == a[1..] + b;
    }
  }

  function ListTopicsSpec(store: Store): seq<string> {
    match store
    case None => []
    case Some(l) => TopicNames(l)
  }

  /** list_topics: [] without papers/; otherwise one name per directory, in
      listing order, with "_" shown as a space; non-directories are left out. */
  method ListTopics(store: Store) returns (topics: seq<string>)
    ensures store.None? ==> topics == []
    ensures topics == ListTopicsSpec(store)
  {
    if store.None? {
      return [];
    }
    var l := store.value;
    topics := [];
    var i := 0;
    while i < |l|
      invariant 0 <= i <= |l|
      invariant topics + TopicNames(l[i..]) == TopicNames(l)
    {
      assert l[i..][1..] == l[i + 1..];
      if l[i].entry.Dir? {
        topics := topics + [DisplayName(l[i].name)];
      }
      i := i + 1;
    }
  }

  /** A topic searched successfully shows up in list_topics, and the name
      shown normalises back to the topic's directory. */
  lemma SearchedTopicListed(store: Store, topic: string, results: seq<SearchResult>)
    requires IsComponent(NormalizeTopic(topic))
    requires results != []
    requires SearchSpec(store, topic, results).Success?
    ensures DisplayName(NormalizeTopic(topic)) in ListTopicsSpec(SearchSpec(store, topic, results).value.store)
    ensures NormalizeTopic(DisplayName(NormalizeTopic(topic))) == NormalizeTopic(topic)
  {
    SearchStores(store, topic, results);
    var l' := Listing(SearchSpec(store, topic, results).value.store);
    var k := IndexOf(Listing(store), NormalizeTopic(topic));
    assert l'[k].name == NormalizeTopic(topic) && l'[k].entry.Dir?;
    NormalizeIsNormalized(topic);
    DisplayThenNormalize(NormalizeTopic(topic));
  }

  // ---------------------------------------------------------------------
  // get_paper_count

  /** get_paper_count's reply: {"error": ...} without papers/, else the
      counts dict. */
  datatype CountReply = NoPapersDir | Counts(counts: ODict<nat>)

  const CountErrorText: string := "Papers directory does not exist"

  /** papers/<dir>/papers_info.json is a file. */
  predicate HasDocFile(e: Entry) {
    e.Dir? && e.doc.Some?
  }

  /** What get_paper_count records for a document file: its length, or 0
      when it does not decode. */
  function DocCount(e: Entry): nat
    requires HasDocFile(e)
  {
    match e.doc.value
    case Corrupt => 0
    case Papers(info) => Size(info)
  }

  /** One step of the all-topics loop. */
  function CountStep(counts: ODict<nat>, it: Item): ODict<nat> {
    if HasDocFile(it.entry) then Put(counts, DisplayName(it.name), DocCount(it.entry)) else counts
  }

  /** The all-topics loop from a given dict over the rest of the listing. */
  function CountFrom(counts: ODict<nat>, l: seq<Item>): ODict<nat>
    decreases |l|
  {
    if l == [] then counts else CountFrom(CountStep(counts, l[0]), l[1..])
  }

  /** The entry at j has a document file and no later entry with a document
      file shares its display name. */
  ghost predicate LastShown(l: seq<Item>, j: int) {
    0 <= j < |l| && HasDocFile(l[j].entry)
    && forall j' :: j < j' < |l| && HasDocFile(l[j'].entry) ==> DisplayName(l[j'].name) != DisplayName(l[j].name)
  }

  /** The all-topics counts hold exactly one key per display name of an
      entry with a document file, and each key maps to the count of the
      last such entry; keys already present keep their place in front. */
  lemma {:induction false} CountFromCounts(counts: ODict<nat>, l: seq<Item>)
    ensures Valid(counts) ==> Valid(CountFrom(counts, l))
    ensures forall t :: t in CountFrom(counts, l).values <==>
              t in counts.values || exists j :: 0 <= j < |l| && HasDocFile(l[j].entry) && DisplayName(l[j].name) == t
    ensures forall j :: LastShown(l, j) ==> CountFrom(counts, l).values[DisplayName(l[j].name)] == DocCount(l[j].entry)
    ensures forall t :: t in counts.values && (forall j :: 0 <= j < |l| && HasDocFile(l[j].entry) ==> DisplayName(l[j].name) != t)
              ==> CountFrom(counts, l).values[t] == counts.values[t]
    ensures |CountFrom(counts, l).keys| >= |counts.keys|
    ensures CountFrom(counts, l).keys[..|counts.keys|] == counts.keys
    decreases |l|
  {
    if l != [] {
      var next := CountStep(counts, l[0]);
      var rest := l[1..];
      CountFromCounts(next, rest);
      var m := CountFrom(next, rest);
      assert forall j :: 1 <= j < |l| ==> l[j] == rest[j - 1];
      forall j | LastShown(l, j) ensures m.values[DisplayName(l[j].name)] == DocCount(l[j].entry) {
        if j > 0 {
          assert LastShown(rest, j - 1);
        } else {
          assert forall j' :: 0 <= j' < |rest| && HasDocFile(rest[j'].entry) ==> DisplayName(rest[j'].name) != DisplayName(l[0].name);
        }
      }
      assert m.keys[..|counts.keys|] == m.keys[..|next.keys|][..|counts.keys|];
    }
  }

  /** The count get_paper_count gives for a topic's directory: 0 when the
      path does not exist, None (no entry) when it exists but holds no
      document file, else the document's count. */
  function TopicCount(l: seq<Item>, dir: string): Option<nat> {
    var k := IndexOf(l, dir);
    if k == |l| then Some(0)
    else if HasDocFile(l[k].entry) then Some(DocCount(l[k].entry))
    else None
  }

  /** `if topic:` with topic None or a str. */
  predicate TopicGiven(topic: Option<string>) {
    topic.Some? && topic.value != ""
  }

  function PaperCountSpec(store: Store, topic: Option<string>): CountReply
    requires TopicGiven(topic) ==> IsComponent(NormalizeTopic(topic.value))
  {
    match store
    case None => NoPapersDir
    case Some(l) =>
      if TopicGiven(topic) then
        match TopicCount(l, NormalizeTopic(topic.value))
        case Some(n) => Counts(Put(Empty(), topic.value, n))
        case None => Counts(Empty())
      else Counts(CountFrom(Empty(), l))
  }

  /** get_paper_count: only the error without papers/; for a given topic at
      most one entry, keyed by the caller's own topic string; for all topics
      one entry per directory that holds a document file. */
  method GetPaperCount(store: Store, topic: Option<string>) returns (r: CountReply)
    requires TopicGiven(topic) ==> IsComponent(NormalizeTopic(topic.value))
    ensures r.NoPapersDir? <==> store.None?
    ensures r.Counts? && TopicGiven(topic) ==> r.counts.keys == [] || r.counts.keys == [topic.value]
    ensures r == PaperCountSpec(store, topic)
  {
    if store.None? {
      return NoPapersDir;
    }
    var l := store.value;
    var counts: ODict<nat> := Empty();
    if TopicGiven(topic) {
      var dir := NormalizeTopic(topic.value);
      var k := IndexOf(l, dir);
      if k < |l| {
        if HasDocFile(l[k].entry) {
          match l[k].entry.doc.value
          case Corrupt =>
            counts := Put(counts, topic.value, 0);
          case Papers(info) =>
            counts := Put(counts, topic.value, Size(info));
        }
      } else {
        counts := Put(counts, topic.value, 0);
      }
    } else {
      var i := 0;
      while i < |l|
        invariant 0 <= i <= |l|
        invariant CountFrom(counts, l[i..]) == CountFrom(Empty(), l)
      {
        assert l[i..][1..] == l[i + 1..];
        var item := l[i];
        if item.entry.Dir? && item.entry.doc.Some? {
          match item.entry.doc.value
          case Corrupt =>
            counts := Put(counts, DisplayName(item.name), 0);
          case Papers(info) =>
            counts := Put(counts, DisplayName(item.name), Size(info));
        }
        i := i + 1;
      }
    }
    return Counts(counts);
  }

  /** For all topics the counts dict is well formed, has one key per display
      name of a directory with a document file, and maps each key to the
      count of the last such directory. */
  lemma AllCounts(l: seq<Item>)
    ensures var r := PaperCountSpec(Some(l), None);
            && r.Counts? && Valid(r.counts)
            && (forall t :: t in r.counts.values <==> exists j :: 0 <= j < |l| && HasDocFile(l[j].entry) && DisplayName(l[j].name) == t)
            && (forall j :: LastShown(l, j) ==> r.counts.values[DisplayName(l[j].name)] == DocCount(l[j].entry))
  {
    CountFromCounts(Empty(), l);
  }

  /** In a folder whose directories search_papers named (distinct,
      normalised names) no two directories share a display name, so every
      directory with a document file gets its own count. */
  lemma {:induction false} NormalizedCounts(l: seq<Item>, j: nat)
    requires WellFormed(Some(l))
    requires forall i :: 0 <= i < |l| ==> IsNormalized(l[i].name)
    requires j < |l| && HasDocFile(l[j].entry)
    ensures DisplayName(l[j].name) in PaperCountSpec(Some(l), None).counts.values
    ensures PaperCountSpec(Some(l), None).counts.values[DisplayName(l[j].name)] == DocCount(l[j].entry)
  {
    assert Listing(Some(l)) == l;
    forall j' | j < j' < |l| && HasDocFile(l[j'].entry) ensures DisplayName(l[j'].name) != DisplayName(l[j].name) {
      assert l[j].name != l[j'].name;
      DisplayThenNormalize(l[j].name);
      DisplayThenNormalize(l[j'].name);
    }
    assert LastShown(l, j);
    AllCounts(l);
  }

  /** After a successful non-empty search the topic's directory holds the
      merged document, which get_paper_count counts. */
  lemma {:induction false} SearchedTopicCount(store: Store, topic: string, results: seq<SearchResult>)
    requires IsComponent(NormalizeTopic(topic))
    requires results != []
    requires SearchSpec(store, topic, results).Success?
    ensures var dir := NormalizeTopic(topic);
            TopicCount(Listing(SearchSpec(store, topic, results).value.store), dir)
            == Some(Size(Merged(PriorPapers(Listing(store), dir), results)))
  {
    var dir := NormalizeTopic(topic);
    var l := Listing(store);
    var k := IndexOf(l, dir);
    UpsertWrites(store, dir, results);
    var l' := Listing(Upsert(store, dir, results).value);
    assert SearchSpec(store, topic, results).value.store == Upsert(store, dir, results).value;
    assert Readable(l'[k].entry) == Some(Merged(PriorPapers(l, dir), results));
  }

  /** Counting a topic right after searching it gives the number of distinct
      ids in the prior document and in this call's results, under the
      caller's topic string. */
  lemma {:induction false} CountAfterSearch(store: Store, topic: string, results: seq<SearchResult>)
    requires IsComponent(NormalizeTopic(topic))
    requires WellFormed(store)
    requires results != []
    requires SearchSpec(store, topic, results).Success?
    ensures var prior := PriorPapers(Listing(store), NormalizeTopic(topic));
            PaperCountSpec(SearchSpec(store, topic, results).value.store, Some(topic))
            == Counts(Put(Empty(), topic, |prior.values.Keys + IdSet(results)|))
  {
    var dir := NormalizeTopic(topic);
    var prior := PriorPapers(Listing(store), dir);
    SearchedTopicCount(store, topic, results);
    PriorValid(store, dir);
    MergedUpserts(prior, results);
    var doc := Merged(prior, results);
    SizeIsCardinality(doc);
    assert |doc.values.Keys| == |prior.values.Keys + IdSet(results)|;
    assert |topic| == |dir| && TopicGiven(Some(topic));
    var store' := SearchSpec(store, topic, results).value.store;
    assert store'.Some?;
    assert TopicCount(store'.value, dir) == Some(Size(doc));
  }
}
