/** The tools and resources of the chatbot with sources and prompts, which
    serves the same paper cache as the research server: its variant of
    search_papers and extract_info, the papers://folders and
    papers://{topic} resources, and the call_tool router its chat uses. */
module ResearchApp {
  import opened Wrappers
  import opened Text
  import opened OrderedMaps
  import opened PaperStore
  import opened JsonValues
  import opened PyValues
  import Server = ResearchServer

  // ---------------------------------------------------------------------
  // search_papers

  /** search_papers of this variant: the topic's directory is created and
      its document rewritten on every call, even when the search found
      nothing. */
  function AppSearchSpec(store: Store, topic: string, results: seq<SearchResult>): Result<Server.Searched, Fault>
    requires IsComponent(NormalizeTopic(topic))
  {
    match Upsert(store, NormalizeTopic(topic), results)
    case Failure(f) => Failure(f)
    case Success(s) => Success(Server.Searched(ResultIds(results), s))
  }

  method SearchPapers(store: Store, topic: string, results: seq<SearchResult>) returns (r: Result<Server.Searched, Fault>)
    requires IsComponent(NormalizeTopic(topic))
    ensures r == AppSearchSpec(store, topic, results)
  {
    var dir := NormalizeTopic(topic);
    var l := Listing(store);
    var k := IndexOf(l, dir);
    if k < |l| && l[k].entry.File? {
      return Failure(FileExists(PaperDir + "/" + dir));
    }
    var prior := if k < |l| then ReadOrEmpty(l[k].entry) else Empty();
    var ids, merged := MergeResults(prior, results);
    var written := Item(dir, Dir(Some(Papers(merged))));
    var l' := if k < |l| then l[k := written] else l + [written];
    return Success(Server.Searched(ids, Some(l')));
  }

  /** On a search that found papers both variants do the same, so every
      property proved of the server's search_papers holds here too. */
  lemma AgreesWithServer(store: Store, topic: string, results: seq<SearchResult>)
    requires IsComponent(NormalizeTopic(topic))
    requires results != []
    ensures AppSearchSpec(store, topic, results) == Server.SearchSpec(store, topic, results)
  {
  }

  /** A search that found nothing still writes: it returns [], creates the
      topic's directory when it is missing (listed last), and rewrites its
      document as it read it, so a corrupt document becomes {}; every other
      entry is unchanged. */
  lemma {:induction false} EmptySearchWrites(store: Store, topic: string)
    requires IsComponent(NormalizeTopic(topic))
    ensures var dir := NormalizeTopic(topic);
            var l := Listing(store);
            var k := IndexOf(l, dir);
            var r := AppSearchSpec(store, topic, []);
            && (r.Failure? <==> k < |l| && l[k].entry.File?)
            && (r.Success? ==>
                  var l' := Listing(r.value.store);
                  && r.value.ids == []
                  && r.value.store.Some?
                  && k < |l'| && l'[k].name == dir
                  && Readable(l'[k].entry) == Some(PriorPapers(l, dir))
                  && (k < |l| && l[k].entry == Dir(Some(Corrupt)) ==> Readable(l'[k].entry) == Some(Empty()))
                  && (k == |l| ==> |l'| == |l| + 1)
                  && (forall j :: 0 <= j < |l| && j != k ==> l'[j] == l[j]))
  {
    var dir := NormalizeTopic(topic);
    UpsertWrites(store, dir, []);
    assert Merged(PriorPapers(Listing(store), dir), []) == PriorPapers(Listing(store), dir);
  }

  // ---------------------------------------------------------------------
  // extract_info

  /** extract_info of this variant lists papers/ without checking that it
      exists, so a missing folder raises FileNotFoundError; otherwise it
      scans as the server does. */
  function AppExtractSpec(store: Store, paperId: string): Result<string, Fault> {
    if store.None? then Failure(NoSuchDirectory(PaperDir))
    else Success(Server.ExtractInfoText(store, paperId))
  }

  /** extract_info given a paper_id that is null, a boolean or an int: the
      keys of a document are strings, so `paper_id in papers_info` never
      holds and the answer names str() of the id, once papers/ exists. */
  function AppExtractOther(store: Store, paperId: Json): Result<string, Fault>
    requires NonStrScalar(paperId)
  {
    if store.None? then Failure(NoSuchDirectory(PaperDir))
    else Success(Server.NotSavedText(ScalarStr(paperId)))
  }

  /** A non-string id is answered as its str() text would be where no
      document holds that text as a key, and differently where one does:
      the int 5 does not find the record of paper "5". */
  lemma OtherIdIsNotItsText(store: Store, paperId: Json)
    requires NonStrScalar(paperId)
    ensures (store.None? || FirstMatch(store.value, ScalarStr(paperId)).None?)
            ==> AppExtractOther(store, paperId) == AppExtractSpec(store, ScalarStr(paperId))
    ensures (store.Some? && FirstMatch(store.value, ScalarStr(paperId)).Some?)
            ==> AppExtractOther(store, paperId) != AppExtractSpec(store, ScalarStr(paperId))
  {
    if store.Some? && FirstMatch(store.value, ScalarStr(paperId)).Some? {
      var rec := FirstMatch(store.value, ScalarStr(paperId)).value;
      var json := RecordJson(rec);
      var saved := Server.NotSavedText(ScalarStr(paperId));
      assert json[|json| - 1] == '}';
      assert saved[|saved| - 1] == '.';
    }
  }

  method ExtractInfo(store: Store, paperId: string) returns (r: Result<string, Fault>)
    ensures r.Failure? <==> store.None?
    ensures store.None? ==> r == Failure(NoSuchDirectory(PaperDir))
    ensures store.Some? && FirstMatch(store.value, paperId).Some? ==>
              r == Success(RecordJson(FirstMatch(store.value, paperId).value))
    ensures store.Some? && FirstMatch(store.value, paperId).None? ==>
              r == Success(Server.NotSavedText(paperId))
    ensures r == AppExtractSpec(store, paperId)
  {
    if store.None? {
      return Failure(NoSuchDirectory(PaperDir));
    }
    var text := Server.ExtractInfo(store, paperId);
    return Success(text);
  }

  // ---------------------------------------------------------------------
  // papers://folders

  /** The raw names of the directories that hold a papers_info.json file,
      in listing order. */
  function Folders(l: seq<Item>): (r: seq<string>)
    ensures |r| <= |l|
    ensures forall t :: t in r <==> exists j :: 0 <= j < |l| && Server.HasDocFile(l[j].entry) && l[j].name == t
    decreases |l|
  {
    if l == [] then []
    else
      var rest := Folders(l[1..]);
      assert forall j :: 1 <= j < |l| ==> l[j] == l[1..][j - 1];
      if Server.HasDocFile(l[0].entry) then [l[0].name] + rest else rest
  }

  const FoldersHeading: string := "# Available Topics"
  const NoTopicsLine: string := "No topics found."

  function UseLine(folder: string): string {
    "Use @" + folder + " to access papers in that topic."
  }

  function FolderLines(folders: seq<string>): (r: seq<string>)
    ensures |r| == |folders|
  {
    seq(|folders|, i requires 0 <= i < |folders| => "- " + folders[i])
  }

  /** The lines of the folders page: the heading and a blank line, then
      either the no-topics line, or one "- name" line per folder, a blank
      line and a hint naming the last folder. */
  function PageLines(folders: seq<string>): seq<string> {
    [FoldersHeading, ""]
    + (if folders == [] then [NoTopicsLine]
       else FolderLines(folders) + ["", UseLine(folders[|folders| - 1])])
  }

  function FoldersPage(store: Store): string {
    Unlines(PageLines(Folders(Listing(store))))
  }

  /** The first loop of get_available_folders: the directories of papers/
      that hold a document file, when papers/ exists. */
  method CollectFolders(store: Store) returns (folders: seq<string>)
    ensures folders == Folders(Listing(store))
  {
    folders := [];
    var l := Listing(store);
    var i := 0;
    while i < |l|
      invariant 0 <= i <= |l|
      invariant folders + Folders(l[i..]) == Folders(l)
    {
      assert l[i..][1..] == l[i + 1..];
      if l[i].entry.Dir? && l[i].entry.doc.Some? {
        folders := folders + [l[i].name];
      }
      i := i + 1;
    }
    assert l[i..] == [];
  }

  lemma UnlinesSingle(a: string)
    ensures Unlines([a]) == a + "\n"
  {
    assert [a][1..] == [];
  }

  lemma UnlinesPair(a: string, b: string)
    ensures Unlines([a, b]) == a + "\n" + (b + "\n")
  {
    assert [a, b][1..] == [b];
    UnlinesSingle(b);
  }

  /** The second loop of get_available_folders: one "- name" line per
      folder. */
  method AppendFolderLines(header: string, folders: seq<string>) returns (content: string)
    ensures content == header + Unlines(FolderLines(folders))
  {
    content := header;
    var i := 0;
    assert FolderLines(folders[..0]) == [];
    while i < |folders|
      invariant 0 <= i <= |folders|
      invariant content == header + Unlines(FolderLines(folders[..i]))
    {
      var line := "- " + folders[i];
      assert FolderLines(folders[..i + 1]) == FolderLines(folders[..i]) + [line];
      UnlinesAppend(FolderLines(folders[..i]), [line]);
      UnlinesSingle(line);
      content := content + line + "\n";
      i := i + 1;
    }
    assert folders[..i] == folders;
  }

  /** The folders page as text: the heading and a blank line, then the
      no-topics line, or the folder lines, a blank line and the hint naming
      the last folder. */
  lemma PageText(folders: seq<string>)
    ensures folders == [] ==>
              Unlines(PageLines(folders)) == FoldersHeading + "\n" + "\n" + NoTopicsLine + "\n"
    ensures folders != [] ==>
              Unlines(PageLines(folders)) ==
                FoldersHeading + "\n" + "\n" + Unlines(FolderLines(folders)) + "\n" + UseLine(folders[|folders| - 1]) + "\n"
  {
    var head := [FoldersHeading, ""];
    UnlinesPair(FoldersHeading, "");
    if folders != [] {
      var use := UseLine(folders[|folders| - 1]);
      var tail := ["", use];
      UnlinesAppend(head, FolderLines(folders));
      UnlinesAppend(head + FolderLines(folders), tail);
      UnlinesPair("", use);
      assert PageLines(folders) == head + FolderLines(folders) + tail;
    } else {
      UnlinesAppend(head, [NoTopicsLine]);
      UnlinesSingle(NoTopicsLine);
      assert PageLines(folders) == head + [NoTopicsLine];
    }
  }

  /** get_available_folders: the heading, then the folders or the
      no-topics line. */
  method GetAvailableFolders(store: Store) returns (content: string)
    ensures content == FoldersPage(store)
  {
    var folders := CollectFolders(store);
    content := FoldersHeading + "\n" + "\n";
    if folders != [] {
      content := AppendFolderLines(content, folders);
      content := content + "\n" + UseLine(folders[|folders| - 1]) + "\n";
    } else {
      content := content + NoTopicsLine + "\n";
    }
    PageText(folders);
  }

  /** No line of the folders page holds a newline when no folder name
      does. */
  lemma PageLinesOneLine(folders: seq<string>)
    requires forall t :: t in folders ==> '\n' !in t
    ensures forall i :: 0 <= i < |PageLines(folders)| ==> '\n' !in PageLines(folders)[i]
  {
    var lines := PageLines(folders);
    forall i | 0 <= i < |lines| ensures '\n' !in lines[i] {
      if 2 <= i < 2 + |folders| {
        assert lines[i] == "- " + folders[i - 2];
        assert folders[i - 2] in folders;
      } else if folders != [] && i == |lines| - 1 {
        assert folders[|folders| - 1] in folders;
      }
    }
  }

  /** Read back line by line, the folders page is the heading, a blank
      line, and then "No topics found." when no directory holds a document,
      or else one "- name" line per such directory in listing order, a blank
      line, and "Use @name ..." for the last of them. */
  lemma FoldersPageLines(store: Store)
    requires forall j :: 0 <= j < |Listing(store)| ==> '\n' !in Listing(store)[j].name
    ensures var folders := Folders(Listing(store));
            Split(FoldersPage(store), '\n') == PageLines(folders) + [""]
  {
    var l := Listing(store);
    var folders := Folders(l);
    forall t | t in folders ensures '\n' !in t {
      var j :| 0 <= j < |l| && Server.HasDocFile(l[j].entry) && l[j].name == t;
    }
    PageLinesOneLine(folders);
    SplitUnlines(PageLines(folders));
  }

  /** A topic searched successfully is in the folders list afterwards, even
      when the search found nothing. */
  lemma SearchedFolderListed(store: Store, topic: string, results: seq<SearchResult>)
    requires IsComponent(NormalizeTopic(topic))
    requires AppSearchSpec(store, topic, results).Success?
    ensures NormalizeTopic(topic) in Folders(Listing(AppSearchSpec(store, topic, results).value.store))
  {
    var dir := NormalizeTopic(topic);
    UpsertWrites(store, dir, results);
    var l' := Listing(AppSearchSpec(store, topic, results).value.store);
    var k := IndexOf(Listing(store), dir);
    assert l'[k].name == dir && Server.HasDocFile(l'[k].entry);
  }

  // ---------------------------------------------------------------------
  // papers://{topic}

  /** The Markdown section of one paper, line by line; the summary is cut
      to its first 500 characters and "..." is appended. */
  function SectionLines(id: string, r: PaperRecord): seq<string> {
    [ "## " + r.title,
      "- **Paper ID**: " + id,
      "- **Authors**: " + Join(r.authors, ", "),
      "- **Published**: " + r.published,
      "- **PDF URL**: [" + r.pdfUrl + "](" + r.pdfUrl + ")",
      "",
      "### Summary",
      Take(r.summary, 500) + "...",
      "",
      "---",
      "" ]
  }

  function Section(id: string, r: PaperRecord): string {
    Unlines(SectionLines(id, r))
  }

  /** A section whose fields hold no line break reads back as its lines. */
  lemma SectionReadsBack(id: string, r: PaperRecord)
    requires '\n' !in r.title && '\n' !in id && '\n' !in Join(r.authors, ", ")
    requires '\n' !in r.published && '\n' !in r.pdfUrl && '\n' !in r.summary
    ensures Split(Section(id, r), '\n') == SectionLines(id, r) + [""]
  {
    var lines := SectionLines(id, r);
    var cut := Take(r.summary, 500);
    assert forall c :: c in cut ==> c in r.summary;
    forall i | 0 <= i < |lines| ensures '\n' !in lines[i] {
    }
    SplitUnlines(lines);
  }

  /** The sections of the given papers, in the given order. */
  function Sections(info: PaperMap, ids: seq<string>): string
    requires forall k :: k in ids ==> k in info.values
    decreases |ids|
  {
    if ids == [] then ""
    else Section(ids[0], info.values[ids[0]]) + Sections(info, ids[1..])
  }

  function PapersHeader(topic: string, count: nat): string {
    "# Papers on " + Title(Replace(topic, '_', ' ')) + "\n\n"
    + "Total papers: " + Decimal(count) + "\n\n"
  }

  function NoPapersText(topic: string): string {
    "# No papers found for topic: " + topic + "\n\nTry searching for papers on this topic first."
  }

  function CorruptText(topic: string): string {
    "# Error reading papers data for " + topic + "\n\nThe papers data file is corrupted."
  }

  /** The page get_topic_papers returns: the no-papers message when the
      topic's directory holds no document file, the corrupted message when
      its document does not decode, else the header with the number of
      papers and one section per paper in document order. */
  function TopicPage(store: Store, topic: string): string
    requires WellFormed(store)
  {
    var l := Listing(store);
    var k := IndexOf(l, NormalizeTopic(topic));
    if k == |l| || !Server.HasDocFile(l[k].entry) then NoPapersText(topic)
    else
      match l[k].entry.doc.value
      case Corrupt => CorruptText(topic)
      case Papers(info) =>
        assert Readable(l[k].entry) == Some(info);
        PapersHeader(topic, Size(info)) + Sections(info, info.keys)
  }

  method GetTopicPapers(store: Store, topic: string) returns (content: string)
    requires IsComponent(NormalizeTopic(topic))
    requires WellFormed(store)
    ensures content == TopicPage(store, topic)
  {
    var l := Listing(store);
    var k := IndexOf(l, NormalizeTopic(topic));
    if k == |l| || !(l[k].entry.Dir? && l[k].entry.doc.Some?) {
      return NoPapersText(topic);
    }
    match l[k].entry.doc.value
    case Corrupt =>
      return CorruptText(topic);
    case Papers(info) =>
      assert Readable(l[k].entry) == Some(info);
      assert Valid(info);
      content := "# Papers on " + Title(Replace(topic, '_', ' ')) + "\n\n";
      content := content + "Total papers: " + Decimal(|info.keys|) + "\n\n";
      content := AppendSections(content, info);
  }

  /** The for loop of get_topic_papers: one section per paper, in document
      order. */
  method AppendSections(header: string, info: PaperMap) returns (content: string)
    requires forall k :: k in info.keys ==> k in info.values
    ensures content == header + Sections(info, info.keys)
  {
    content := header;
    var i := 0;
    while i < |info.keys|
      invariant 0 <= i <= |info.keys|
      invariant content + Sections(info, info.keys[i..]) == header + Sections(info, info.keys)
    {
      var id := info.keys[i];
      var section := Section(id, info.values[id]);
      assert info.keys[i..][1..] == info.keys[i + 1..];
      assert Sections(info, info.keys[i..]) == section + Sections(info, info.keys[i + 1..]);
      content := content + section;
      i := i + 1;
    }
    assert info.keys[i..] == [];
  }

  /** The header counts the distinct papers of the document. */
  lemma TopicPageCounts(store: Store, topic: string, info: PaperMap)
    requires WellFormed(store)
    requires var l := Listing(store); var k := IndexOf(l, NormalizeTopic(topic));
             k < |l| && l[k].entry == Dir(Some(Papers(info)))
    ensures TopicPage(store, topic) == PapersHeader(topic, |info.values|) + Sections(info, info.keys)
  {
    var l := Listing(store);
    assert Readable(l[IndexOf(l, NormalizeTopic(topic))].entry) == Some(info);
    SizeIsCardinality(info);
  }

  /** Right after search_papers, the topic's page counts the prior papers
      and this call's distinct ids together, and lists the prior papers
      first, in their order. */
  lemma {:induction false} PapersAfterSearch(store: Store, topic: string, results: seq<SearchResult>)
    requires IsComponent(NormalizeTopic(topic))
    requires WellFormed(store)
    requires AppSearchSpec(store, topic, results).Success?
    ensures var out := AppSearchSpec(store, topic, results).value.store;
            var prior := PriorPapers(Listing(store), NormalizeTopic(topic));
            var merged := Merged(prior, results);
            && WellFormed(out)
            && Valid(merged)
            && |merged.keys| >= |prior.keys|
            && merged.keys[..|prior.keys|] == prior.keys
            && TopicPage(out, topic) == PapersHeader(topic, |prior.values.Keys + IdSet(results)|) + Sections(merged, merged.keys)
  {
    var dir := NormalizeTopic(topic);
    var prior := PriorPapers(Listing(store), dir);
    var merged := Merged(prior, results);
    var out := AppSearchSpec(store, topic, results).value.store;
    UpsertWrites(store, dir, results);
    UpsertKeepsWellFormed(store, dir, results);
    PriorValid(store, dir);
    MergedKeys(prior, results);
    assert out == Upsert(store, dir, results).value;
    var k := IndexOf(Listing(store), dir);
    assert Listing(out)[k].entry == Dir(Some(Papers(merged)));
    assert IndexOf(Listing(out), dir) == k;
    TopicPageCounts(out, topic, merged);
  }

  // ---------------------------------------------------------------------
  // call_tool

  /** What an arXiv search returns for the n-th tool call of a query, a
      topic and the max_results argument, if any; it may raise. */
  type Arxiv = (nat, string, Option<Json>) -> Result<seq<SearchResult>, string>

  /** The name Python gives the type of a decoded JSON value. */
  function TypeName(j: Json): string {
    match j
    case JNull => "NoneType"
    case JBool(_) => "bool"
    case JInt(_) => "int"
    case JStr(_) => "str"
    case JArray(_) => "list"
    case JObject(_) => "dict"
  }

  /** The AttributeError of looking an attribute up on such a value. */
  function NoAttribute(j: Json, attr: string): string {
    "'" + TypeName(j) + "' object has no attribute '" + attr + "'"
  }

  const SearchKeys: set<string> := {"topic", "max_results"}

  /** The string a keyword parameter receives, when the arguments are a
      dict with only allowed keys and the parameter is given a string. */
  function StringArg(args: Json, key: string, allowed: set<string>): Option<string> {
    if args.JObject? && args.fields.Keys <= allowed && key in args.fields && args.fields[key].JStr?
    then Some(args.fields[key].s)
    else None
  }

  /** The scalar a keyword parameter receives, when the arguments are a dict
      with only allowed keys and the parameter is given null, a boolean or
      an int. */
  function ScalarArg(args: Json, key: string, allowed: set<string>): Option<Json> {
    if args.JObject? && args.fields.Keys <= allowed && key in args.fields && NonStrScalar(args.fields[key])
    then Some(args.fields[key])
    else None
  }

  function OptionalArg(args: Json, key: string): Option<Json> {
    if args.JObject? && key in args.fields then Some(args.fields[key]) else None
  }

  /** arguments.get("topic") for get_paper_count. */
  function CountTopic(args: Json): Json
    requires args.JObject?
  {
    if "topic" in args.fields then args.fields["topic"] else JNull
  }

  /** The topics the router may pass on name one directory each. */
  predicate InModel(name: string, args: Json) {
    && (name == "search_papers" && StringArg(args, "topic", SearchKeys).Some? ==>
          IsComponent(NormalizeTopic(StringArg(args, "topic", SearchKeys).value)))
    && (name == "get_paper_count" && args.JObject? && CountTopic(args).JStr? && CountTopic(args).s != "" ==>
          IsComponent(NormalizeTopic(CountTopic(args).s)))
  }

  /** A tool call's effect: str() of what it returned, or the text of the
      exception it raised; and the folder afterwards. */
  datatype Called = Called(result: Result<string, string>, store: Store)

  /** os.makedirs(papers/<dir>, exist_ok=True). */
  function MakeDirs(store: Store, dir: string): Result<Store, Fault> {
    var l := Listing(store);
    var k := IndexOf(l, dir);
    if k < |l| && l[k].entry.File? then Failure(FileExists(PaperDir + "/" + dir))
    else if k < |l| then Success(Some(l))
    else Success(Some(l + [Item(dir, Dir(None))]))
  }

  /** search_papers as the router runs it: results are fetched from arXiv
      only once the directory exists, so a failing search leaves the
      directory created and the document untouched. */
  function SearchCall(store: Store, topic: string, maxResults: Option<Json>, arxiv: Arxiv, n: nat): Called
    requires IsComponent(NormalizeTopic(topic))
  {
    match MakeDirs(store, NormalizeTopic(topic))
    case Failure(f) => Called(Failure(FaultText(f)), store)
    case Success(made) =>
      match arxiv(n, topic, maxResults)
      case Failure(e) => Called(Failure(e), made)
      case Success(results) =>
        match AppSearchSpec(store, topic, results)
        case Failure(f) => Called(Failure(FaultText(f)), store)
        case Success(s) => Called(Success(ReprStrings(s.ids)), s.store)
  }

  /** str() of a dict of counts: "{'topic': 3, ...}". */
  function CountsRepr(d: ODict<nat>): string
    requires forall i :: 0 <= i < |d.keys| ==> d.keys[i] in d.values
  {
    "{" + Join(seq(|d.keys|, i requires 0 <= i < |d.keys| => Repr(d.keys[i]) + ": " + Decimal(d.values[d.keys[i]])), ", ") + "}"
  }

  /** The counts get_paper_count returns form a dict. */
  lemma CountReplyValid(store: Store, topic: Option<string>)
    requires Server.TopicGiven(topic) ==> IsComponent(NormalizeTopic(topic.value))
    ensures Server.PaperCountSpec(store, topic).Counts? ==> Valid(Server.PaperCountSpec(store, topic).counts)
  {
    if store.Some? && !Server.TopicGiven(topic) {
      Server.AllCounts(store.value);
    }
  }

  /** str() of get_paper_count's reply. */
  function CountText(store: Store, topic: Option<string>): string
    requires Server.TopicGiven(topic) ==> IsComponent(NormalizeTopic(topic.value))
  {
    CountReplyValid(store, topic);
    match Server.PaperCountSpec(store, topic)
    case NoPapersDir => "{'error': " + Repr(Server.CountErrorText) + "}"
    case Counts(d) => CountsRepr(d)
  }

  /** get_paper_count as the router calls it: arguments.get("topic"), then
      get_paper_count(topic) when that is truthy and get_paper_count()
      otherwise. Without papers/ the error dict comes back before the topic
      is used; a truthy topic that is not a string has no lower(). */
  function CountCall(store: Store, args: Json): Called
    requires InModel("get_paper_count", args)
  {
    if !args.JObject? then Called(Failure(NoAttribute(args, "get")), store)
    else
      var topic := CountTopic(args);
      if !Truthy(topic) then Called(Success(CountText(store, None)), store)
      else if store.None? then Called(Success(CountText(store, None)), store)
      else if !topic.JStr? then Called(Failure(NoAttribute(topic, "lower")), store)
      else Called(Success(CountText(store, Some(topic.s))), store)
  }

  /** A tool's text or the text of the fault it raised. */
  function Answered(r: Result<string, Fault>, store: Store): Called {
    match r
    case Failure(f) => Called(Failure(FaultText(f)), store)
    case Success(text) => Called(Success(text), store)
  }

  /** extract_info with an id that is null, a boolean or an int is answered
      by the not-saved message naming str() of the id, or raises
      FileNotFoundError without papers/. */
  lemma ExtractOtherRoutes(id: Json, store: Store, arxiv: Arxiv, typeError: (string, Json) -> string, n: nat)
    requires NonStrScalar(id)
    ensures CallTool("extract_info", JObject(map["paper_id" := id]), store, arxiv, typeError, n)
            == if store.None? then Called(Failure(FaultText(NoSuchDirectory(PaperDir))), store)
               else Called(Success(Server.NotSavedText(ScalarStr(id))), store)
  {
    var args := JObject(map["paper_id" := id]);
    assert "extract_info" != "search_papers";
    assert args.fields.Keys == {"paper_id"};
    assert StringArg(args, "paper_id", {"paper_id"}) == None;
    assert ScalarArg(args, "paper_id", {"paper_id"}) == Some(id);
  }

  /** call_tool: each of the four tool names runs its tool; any other name
      answers "Unknown tool: <name>" without raising. Keyword arguments that
      do not bind raise the TypeError typeError gives. */
  function CallTool(name: string, args: Json, store: Store, arxiv: Arxiv, typeError: (string, Json) -> string, n: nat): Called
    requires InModel(name, args)
  {
    if name == "search_papers" then
      match StringArg(args, "topic", SearchKeys)
      case None => Called(Failure(typeError(name, args)), store)
      case Some(topic) => SearchCall(store, topic, OptionalArg(args, "max_results"), arxiv, n)
    else if name == "extract_info" then
      match StringArg(args, "paper_id", {"paper_id"})
      case Some(id) => Answered(AppExtractSpec(store, id), store)
      case None =>
        match ScalarArg(args, "paper_id", {"paper_id"})
        case Some(id) => Answered(AppExtractOther(store, id), store)
        case None => Called(Failure(typeError(name, args)), store)
    else if name == "list_topics" then Called(Success(ReprStrings(Server.ListTopicsSpec(store))), store)
    else if name == "get_paper_count" then CountCall(store, args)
    else Called(Success("Unknown tool: " + name), store)
  }

  /** A name that is none of the four tools answers "Unknown tool: <name>",
      raises nothing and changes nothing. */
  lemma UnknownToolAnswers(name: string, args: Json, store: Store, arxiv: Arxiv, typeError: (string, Json) -> string, n: nat)
    requires name !in {"search_papers", "extract_info", "list_topics", "get_paper_count"}
    ensures CallTool(name, args, store, arxiv, typeError, n) == Called(Success("Unknown tool: " + name), store)
  {
  }

  /** Only search_papers writes to the folder. */
  lemma OnlySearchWrites(name: string, args: Json, store: Store, arxiv: Arxiv, typeError: (string, Json) -> string, n: nat)
    requires InModel(name, args)
    requires name != "search_papers"
    ensures CallTool(name, args, store, arxiv, typeError, n).store == store
  {
  }

  /** call_tool sends get_paper_count to CountCall. */
  lemma CountRoutes(args: Json, store: Store, arxiv: Arxiv, typeError: (string, Json) -> string, n: nat)
    requires InModel("get_paper_count", args)
    ensures CallTool("get_paper_count", args, store, arxiv, typeError, n) == CountCall(store, args)
  {
    assert "get_paper_count" != "search_papers" && "get_paper_count" != "extract_info" && "get_paper_count" != "list_topics";
  }

  /** get_paper_count with no topic, a null one or an empty one counts every
      topic. */
  lemma CountDefaultsToAll(fields: map<string, Json>, store: Store, arxiv: Arxiv, typeError: (string, Json) -> string, n: nat)
    requires "topic" !in fields || fields["topic"] == JNull || fields["topic"] == JStr("")
    ensures CallTool("get_paper_count", JObject(fields), store, arxiv, typeError, n)
            == Called(Success(CountText(store, None)), store)
  {
    var args := JObject(fields);
    assert CountTopic(args) == JNull || CountTopic(args) == JStr("");
    CountRoutes(args, store, arxiv, typeError, n);
  }

  /** get_paper_count with a non-empty topic string counts that topic, once
      papers/ exists. */
  lemma CountNamedTopic(fields: map<string, Json>, store: Store, arxiv: Arxiv, typeError: (string, Json) -> string, n: nat)
    requires "topic" in fields && fields["topic"].JStr? && fields["topic"].s != ""
    requires IsComponent(NormalizeTopic(fields["topic"].s))
    ensures CallTool("get_paper_count", JObject(fields), store, arxiv, typeError, n)
            == Called(Success(CountText(store, if store.None? then None else Some(fields["topic"].s))), store)
  {
    var args := JObject(fields);
    CountRoutes(args, store, arxiv, typeError, n);
    assert CountTopic(args) == fields["topic"] && Truthy(fields["topic"]);
  }

  /** A search call whose topic normalises to an existing non-directory
      raises FileExistsError and changes nothing; otherwise, when arXiv
      answers, it returns str() of this call's ids and stores the merged
      document, and when arXiv raises, the directory exists afterwards and
      nothing else changed. */
  lemma {:induction false} SearchCallEffect(store: Store, topic: string, maxResults: Option<Json>, arxiv: Arxiv, n: nat)
    requires IsComponent(NormalizeTopic(topic))
    ensures var dir := NormalizeTopic(topic);
            var l := Listing(store);
            var k := IndexOf(l, dir);
            var c := SearchCall(store, topic, maxResults, arxiv, n);
            && (k < |l| && l[k].entry.File? ==> c == Called(Failure(FaultText(FileExists(PaperDir + "/" + dir))), store))
            && (!(k < |l| && l[k].entry.File?) && arxiv(n, topic, maxResults).Success? ==>
                  var results := arxiv(n, topic, maxResults).value;
                  c == Called(Success(ReprStrings(ResultIds(results))), AppSearchSpec(store, topic, results).value.store))
            && (!(k < |l| && l[k].entry.File?) && arxiv(n, topic, maxResults).Failure? ==>
                  && c.result == Failure(arxiv(n, topic, maxResults).error)
                  && c.store.Some?
                  && IndexOf(Listing(c.store), dir) == k && k < |Listing(c.store)|
                  && (forall j :: 0 <= j < |l| ==> Listing(c.store)[j] == l[j]))
  {
    var dir := NormalizeTopic(topic);
    var l := Listing(store);
    var k := IndexOf(l, dir);
    if !(k < |l| && l[k].entry.File?) {
      UpsertWrites(store, dir, []);
      var made := MakeDirs(store, dir).value;
      if k == |l| {
        IndexOfFirst(Listing(made), dir, k);
      }
    }
  }
}
