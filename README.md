# Research-paper MCP tools and chatbots, modelled in Dafny

This project models four Python programs that share one folder of papers:

- The research-paper MCP server (`mcp_server.py`) keeps a folder `papers/`. It has one directory per normalised topic, and each directory holds a `papers_info.json` document mapping arXiv paper ids to records. The server exposes four tools:
  - `search_papers` merges arXiv results into a topic's document;
  - `extract_info` finds a paper's record;
  - `list_topics` lists the topics;
  - `get_paper_count` counts papers.
- The one-file chatbot (`mcp_chatbot_with_sources_and_prompts.py`) has its own copy of the four tools and two Markdown resources, `papers://folders` and `papers://{topic}`. It also has:
  - `call_tool`, a router from tool names to the tools;
  - `chat_with_gpt`, a tool-calling conversation with the model;
  - an interactive chat loop.
- The multi-server chatbot (`mcp_chatbot.py`) connects to the servers of a configuration. It keeps a descriptor list and a `tool_to_session` map, formats tool results, and runs `process_query` and a chat loop.
- The single-server client (`mcp_client.py`) has one session, a `process_query` without a system instruction, and a chat loop.

## What is modelled, and how

- **The folder.**
  - `papers/` is a `Store`: `None` when it does not exist, otherwise its entries in listing order.
  - An entry is a non-directory, or a directory that holds no document, a corrupt document, or a decoded one.
  - A decoded document is an insertion-ordered dict (`OrderedMaps.ODict`) from paper id to `PaperRecord`.
- **Tools as methods.** Every tool is a method whose loop mirrors the source's loop. Each method is proved equal to a specification function of the folder. The properties the programs promise are lemmas about those functions.
- **External services as parameters.** The caller supplies:
  - the arXiv results (a sequence, or an `Arxiv` oracle);
  - the model's responses: a finite sequence per query, each a reply or the exception its request raised;
  - the MCP sessions' answers (an oracle);
  - `json.loads` (a function).
- **One conversation loop for two programs.** `process_query` of `mcp_chatbot.py` and of `mcp_client.py` is a single loop, `Conversation.Drive`. The two programs differ only in:
  - the starting transcript;
  - how a tool call is dispatched and formatted.
- **`chat_with_gpt`** has its own loop over responses, which may raise: `GptChat.GptFrom`. Tool calls run through the router `ResearchApp.CallTool` and may change the folder. Any exception becomes the apology text.
- **Finite inputs.** Where a source loop would run forever, the model ends with a marked outcome instead:
  - `Spins`: a first reply with neither content nor tool calls;
  - `OutOfReplies` / `RepliesRanOut`: the model-supplied replies are exhausted.

Points where the code may surprise a reader:

- `get_paper_count(topic)` gives no entry at all when the topic's directory exists but holds no `papers_info.json`.
- With no topic, the counts are keyed by display name, and only directories that hold a document file are counted.
- In `mcp_chatbot.py`, two servers that expose the same tool name both keep their descriptor in `available_tools`. Only the dispatch map is last-write-wins.
- The chat loop variant also quits on `exit` and `q`.
- Its `extract_info` does not check that `papers/` exists, so it raises `FileNotFoundError` when the folder is missing.
- Its `search_papers` creates the directory and rewrites the document even when arXiv finds nothing.

## Model

| member | source | states |
|---|---|---|
| PaperStore.NormalizeIsNormalized | mcp_server.py:48 | the directory name a topic is stored under has no upper-case letter and no space |
| PaperStore.NormalizeIdempotent | mcp_server.py:167 | normalising twice equals normalising once, so search and count agree on every topic |
| PaperStore.DisplayThenNormalize | mcp_server.py:139 | a normalised directory name shown by list_topics normalises back to the same directory |
| PaperStore.NormalizeThenDisplay | mcp_server.py:139 | a lower-case topic without `_` is shown back unchanged |
| PaperStore.MergeResults | mcp_server.py:60-71 | the loop returns this call's ids in result order and the upsert of every record, in order, into the document |
| PaperStore.MergedKeys | mcp_server.py:59-71 | after the merge the keys are the prior keys plus this call's ids; prior keys keep their order in front; the dict stays valid |
| PaperStore.MergedLastWins | mcp_server.py:61-71 | a returned id maps to the record of its last occurrence in this call |
| PaperStore.MergedKeepsOthers | mcp_server.py:53-71 | an id not returned by this call keeps its prior record |
| PaperStore.MergedUpserts | mcp_server.py:53-71 | all four merge facts together: key union, last write wins, others kept, prior order kept |
| PaperStore.UpsertWrites | mcp_server.py:48-75 | makedirs and dump fail exactly when the topic's path is a non-directory; otherwise the directory sits where it was (last when new) with the merged document, and every other entry is unchanged and in place |
| PaperStore.PriorValid | mcp_server.py:53-57 | the document the merge starts from (missing or corrupt read as `{}`) is a valid dict in a well-formed folder |
| PaperStore.UpsertKeepsWellFormed | mcp_server.py:48-75 | distinct entry names and valid documents survive the upsert |
| PaperStore.FirstHolder | mcp_server.py:101-111 | the position found holds the id in a readable document, and no earlier entry does |
| PaperStore.FindPaper | mcp_server.py:101-114 | the scan finds a record exactly when some readable document holds the id, and it returns the first such document's record |
| OrderedMaps.Put | mcp_server.py:71 | `d[k] = v` keeps the dict valid, sets k to v and keeps the old keys in front |
| OrderedMaps.SizeIsCardinality | mcp_server.py:176 | `len(papers_info)` is the number of distinct ids |
| ResearchServer.SearchPapers | mcp_server.py:42-78 | the tool equals SearchSpec: nothing happens for an empty result, whatever the topic; otherwise the upsert happens and this call's ids are returned |
| ResearchServer.SearchEmptyChangesNothing | mcp_server.py:42-46 | an empty search returns `[]` and leaves the folder exactly as it was, for every topic |
| ResearchServer.SearchStores | mcp_server.py:48-78 | a non-empty search fails iff the topic path is a file; on success it returns exactly this call's ids in order, the document's keys are prior ∪ new, new ids carry their last record, other records and other entries are unchanged |
| ResearchServer.SearchKeepsWellFormed | mcp_server.py:53-75 | a well-formed folder stays well-formed |
| ResearchServer.ExtractInfo | mcp_server.py:95-117 | the missing-folder message without `papers/`; the not-saved message when no readable document holds the id; otherwise the JSON of the record in the first document, in listing order, that holds it |
| ResearchServer.ExtractAfterSearch | mcp_server.py:101-111 | after a search, extract_info of an id stored by it returns the id's last record, provided no other directory holds that id |
| ResearchServer.TopicNames | mcp_server.py:135-139 | a name is listed iff some directory shows as it; non-directories are skipped |
| ResearchServer.ListTopics | mcp_server.py:131-142 | `[]` without `papers/`; otherwise one display name per directory, in listing order |
| ResearchServer.SearchedTopicListed | mcp_server.py:136-139 | a searched topic appears in list_topics, under a name that normalises back to its directory |
| ResearchServer.CountFromCounts | mcp_server.py:183-193 | the all-topics loop keeps the dict valid, adds a key exactly for each display name of a directory that has a document file, and stores the count of the last such directory |
| ResearchServer.GetPaperCount | mcp_server.py:159-196 | the error reply iff `papers/` is missing; a given topic yields no key or just the caller's topic string; the result equals PaperCountSpec |
| ResearchServer.AllCounts | mcp_server.py:181-193 | with no topic, one key per display name of a directory holding a document file, with its size, or 0 when corrupt |
| ResearchServer.NormalizedCounts | mcp_server.py:183-193 | in a folder of normalised directory names, each document directory's count is its own document's size |
| ResearchServer.SearchedTopicCount | mcp_server.py:165-178 | after a non-empty search, the topic's count is the size of the merged document |
| ResearchServer.CountAfterSearch | mcp_server.py:165-176 | counting right after a search gives exactly `{topic: |prior ids ∪ new ids|}` under the caller's topic string |
| Text.StripKeepsMiddle | mcp_client.py:88 | strip() keeps one contiguous slice without whitespace at either end, and only whitespace lies around it |
| Text.SplitJoin | mcp_chatbot.py:88 | joining parts that have no separator reads back by split() |
| Text.SplitUnlines | mcp_chatbot_with_sources_and_prompts.py:189-195 | a text built line by line with `\n` splits back into its lines plus a final empty piece |
| Text.DecimalRoundTrip | mcp_chatbot_with_sources_and_prompts.py:219 | the count printed as "Total papers: N" reads back as N |
| Text.Take | mcp_chatbot_with_sources_and_prompts.py:227 | `s[:500]` is the prefix of length min(|s|, 500) |
| JsonValues.Quote | mcp_server.py:111 | json.dumps of a string is printable ASCII |
| JsonValues.EscapeAllPlain | mcp_server.py:111 | printable text without quotes or backslashes is written unescaped |
| ResearchApp.SearchPapers | mcp_chatbot_with_sources_and_prompts.py:29-73 | the variant's tool equals AppSearchSpec: it always creates the directory and rewrites the document |
| ResearchApp.AgreesWithServer | mcp_chatbot_with_sources_and_prompts.py:42-73 | on a search that found papers the variant does exactly what the server does |
| ResearchApp.EmptySearchWrites | mcp_chatbot_with_sources_and_prompts.py:42-69 | an empty search fails iff the path is a file; otherwise it returns `[]`, creates a missing directory last, rewrites the document as read (corrupt becomes `{}`), and leaves the other entries alone |
| ResearchApp.ExtractInfo | mcp_chatbot_with_sources_and_prompts.py:87-101 | it raises FileNotFoundError iff `papers/` is missing; otherwise the first holder's record JSON, or the not-saved message |
| ResearchApp.OtherIdIsNotItsText | mcp_chatbot_with_sources_and_prompts.py:87-101 | an id that is null, a boolean or an int is answered as its str() text would be when no document holds that text, and differently when one does: no string key equals it |
| ResearchApp.ExtractOtherRoutes | mcp_chatbot_with_sources_and_prompts.py:344-349 | call_tool on extract_info with such an id raises FileNotFoundError without `papers/`, and otherwise answers the not-saved message naming str() of the id |
| ResearchApp.Folders | mcp_chatbot_with_sources_and_prompts.py:180-186 | a name is a folder iff some directory holding `papers_info.json` has it |
| ResearchApp.CollectFolders | mcp_chatbot_with_sources_and_prompts.py:177-186 | the loop yields the names of the directories holding a document file, in listing order |
| ResearchApp.AppendFolderLines | mcp_chatbot_with_sources_and_prompts.py:191-192 | the loop appends one `- name` line per folder |
| ResearchApp.PageText | mcp_chatbot_with_sources_and_prompts.py:189-195 | the page is the heading and a blank line, then "No topics found." or the folder lines, a blank line and "Use @last ..." |
| ResearchApp.GetAvailableFolders | mcp_chatbot_with_sources_and_prompts.py:177-197 | the resource returns exactly the folders page of the folder |
| ResearchApp.FoldersPageLines | mcp_chatbot_with_sources_and_prompts.py:189-197 | read back by lines, the page is the heading, a blank line, and either "No topics found." or one line per folder, a blank line and the hint naming the last folder |
| ResearchApp.SearchedFolderListed | mcp_chatbot_with_sources_and_prompts.py:42-43 | a topic searched in this variant is a folder afterwards, even when nothing was found |
| ResearchApp.SectionReadsBack | mcp_chatbot_with_sources_and_prompts.py:222-228 | a paper's section reads back as its 11 lines: title, id, authors, date, PDF link, summary cut to 500 characters plus "...", and the rule |
| ResearchApp.AppendSections | mcp_chatbot_with_sources_and_prompts.py:221-228 | the loop appends one section per paper, in document order |
| ResearchApp.GetTopicPapers | mcp_chatbot_with_sources_and_prompts.py:207-232 | the resource returns TopicPage: the no-papers message without a document file, the corrupted message for a corrupt one, else the header and the sections |
| ResearchApp.TopicPageCounts | mcp_chatbot_with_sources_and_prompts.py:218-228 | the header's total is the number of distinct papers, followed by one section per paper in document order |
| ResearchApp.PapersAfterSearch | mcp_chatbot_with_sources_and_prompts.py:218-228 | right after a search, the page counts prior ∪ new ids, lists the prior papers first, and the folder stays well-formed |
| PyValues.ReprPrintable | mcp_chatbot_with_sources_and_prompts.py:406 | in the repr() text of a tool result, every character below U+0100 is printable: controls, DEL, the no-break space and the soft hyphen come out as `\xhh` escapes |
| ResearchApp.CountReplyValid | mcp_chatbot_with_sources_and_prompts.py:136-168 | the counts returned form a valid dict |
| ResearchApp.UnknownToolAnswers | mcp_chatbot_with_sources_and_prompts.py:355-356 | any other tool name answers "Unknown tool: name", raises nothing and changes nothing |
| JsonValues.ScalarStrInjective | mcp_chatbot_with_sources_and_prompts.py:101 | str() of distinct nulls, booleans and ints differ, so the not-saved message names such an id unambiguously |
| ResearchApp.OnlySearchWrites | mcp_chatbot_with_sources_and_prompts.py:344-356 | only search_papers changes the folder |
| ResearchApp.CountRoutes | mcp_chatbot_with_sources_and_prompts.py:352-354 | get_paper_count goes to the count branch |
| ResearchApp.CountDefaultsToAll | mcp_chatbot_with_sources_and_prompts.py:353-354 | an absent, null or empty topic counts all topics |
| ResearchApp.CountNamedTopic | mcp_chatbot_with_sources_and_prompts.py:353-354 | a non-empty topic string counts that topic once `papers/` exists |
| ResearchApp.SearchCallEffect | mcp_chatbot_with_sources_and_prompts.py:29-73 | with a file in the way it raises FileExistsError and changes nothing; with arXiv answering it returns str() of this call's ids and stores the upsert; with arXiv raising, the directory exists afterwards and nothing else changed |
| GptChat.RouterReadOnlyButSearch | mcp_chatbot_with_sources_and_prompts.py:344-356 | no call of the router except search_papers changes the folder, whatever its arguments |
| GptChat.RoundAnswers | mcp_chatbot_with_sources_and_prompts.py:393-407 | a round that raised nothing has one tool message per call, in order: the call's id and str() of what the router answered for the call's decoded arguments on the folder the earlier calls left; the round ends with the folder the last call left |
| GptChat.RoundKeepsStore | mcp_chatbot_with_sources_and_prompts.py:393-400 | a round without search_papers calls leaves the folder unchanged |
| GptChat.RunTools | mcp_chatbot_with_sources_and_prompts.py:393-407 | the for loop over tool calls computes RunFrom: messages, folder and the exception that ended it |
| GptChat.ChatWithGpt | mcp_chatbot_with_sources_and_prompts.py:358-423 | the method equals GptQuery over the given responses |
| GptChat.GptFromExtends | mcp_chatbot_with_sources_and_prompts.py:389-418 | messages are only appended: an answered question's transcript extends the starting one |
| GptChat.GptFromPaired | mcp_chatbot_with_sources_and_prompts.py:392-418 | an answered question's transcript is well paired: each assistant message with k calls is followed by k tool messages with the calls' ids |
| GptChat.GptFromReplies | mcp_chatbot_with_sources_and_prompts.py:392-418 | from any reply on, an answered question's transcript gains each later reply once, in order, as its assistant messages |
| GptChat.GptFromStops | mcp_chatbot_with_sources_and_prompts.py:392-420 | an answered question stopped on the first reply without tool calls; its content is returned and ends the transcript |
| GptChat.GptFromApology | mcp_chatbot_with_sources_and_prompts.py:422-423 | an apology starts with "Sorry, I encountered an error: " |
| GptChat.GptFromRanOut | mcp_chatbot_with_sources_and_prompts.py:392-418 | the responses run out only if each asked for tools |
| GptChat.GptFromKeepsStore | mcp_chatbot_with_sources_and_prompts.py:392-418 | without search_papers calls the folder is unchanged, however the question ends |
| GptChat.GptSaid | mcp_chatbot_with_sources_and_prompts.py:360-420 | an answered question's transcript is [system instruction, question] followed by well-paired replies and tool messages, ending with the first reply without tool calls, whose content is the answer; its assistant messages are the replies of the responses used, each once, in order |
| GptChat.GptOtherEndings | mcp_chatbot_with_sources_and_prompts.py:379-423 | the apology text, running out, and the unchanged folder, for a whole question |
| GptChat.AskedIsStripped | mcp_chatbot_with_sources_and_prompts.py:437-444 | the question asked is the line without surrounding whitespace, non-empty |
| GptChat.AppChatStep | mcp_chatbot_with_sources_and_prompts.py:435-447 | a quit line stops, an empty line is skipped, any other is asked with the current folder |
| GptChat.AppChatShape | mcp_chatbot_with_sources_and_prompts.py:435-447 | one answer per question before the first quit line; it quits iff a quit line exists; no question leaves the folder alone |
| GptChat.AppChatAsks | mcp_chatbot_with_sources_and_prompts.py:435-447 | the k-th answer is the k-th question's, asked with the folder the previous question left |
| GptChat.ChatLoop | mcp_chatbot_with_sources_and_prompts.py:435-454 | the loop computes AppChatFrom with Classify, each question asked with this variant's instruction, `json.loads` and the router: answers, final folder, quit flag |
| GptChat.ChatLines | mcp_chatbot_with_sources_and_prompts.py:435-454 | the same loop for any line classifier |
| GptChat.ChatLine | mcp_chatbot_with_sources_and_prompts.py:436-447 | one pass consumes one line and keeps the loop's result unchanged |
| Conversation.Descriptors | mcp_client.py:118-125 | one descriptor per listed tool, in order, copying name, description and input schema |
| Conversation.CallBlockWellPaired | mcp_chatbot.py:131-154 | an assistant message with its calls followed by their tool messages in order is well paired |
| Conversation.RoundWellPaired | mcp_chatbot.py:122-154 | a round's messages keep the transcript well paired, with the old transcript as a prefix |
| Conversation.DriveStep | mcp_chatbot.py:118-165 | an answered loop stops here, stops just after one tool round, or continues from the next reply |
| Conversation.DriveTranscript | mcp_chatbot.py:118-165 | an answered query keeps its start as prefix and is well paired |
| Conversation.DriveAppendsOnlyReplies | mcp_chatbot.py:118-154 | only assistant and tool messages are appended |
| Conversation.DriveStops | mcp_chatbot.py:111-165 | the loop stops on the first reply without tool calls, printing its content; every earlier request succeeded with a reply that had calls; stopping on the first reply means its content was shown |
| Conversation.DriveSpins | mcp_chatbot.py:111-131 | the loop spins iff its first request succeeds with a reply that has neither content nor tool calls |
| Conversation.DriveOutOfReplies | mcp_chatbot.py:156-165 | replies run out only if every request succeeded with a reply that had tool calls |
| Conversation.QueryAnswered | mcp_client.py:30-77 | the answered-query facts, from the start of process_query |
| Conversation.QuerySpins | mcp_client.py:24-44 | a query spins iff its first request succeeds with a reply that is empty and has no calls |
| Conversation.QueryOutOfReplies | mcp_client.py:68-77 | a query runs out of replies only if every request succeeded with a reply that had calls |
| Conversation.ContentAndCallsTwice | mcp_chatbot.py:118-165 | any reply of the loop, the first or one after a tool round, that has content and calls appends two assistant messages: the content, then the content with the calls |
| Conversation.ToolRoundIds | mcp_client.py:46-66 | a round's tool messages carry the calls' ids in order |
| Conversation.ToolRoundAnswers | mcp_chatbot.py:133-154 | a round succeeds iff every dispatch does; each call gets its parsed arguments, or `{}` when they do not parse; a failing round reports the first failing call's exception |
| Conversation.KnownToolsNeverRaise | mcp_chatbot.py:111-161 | when every request to the model succeeds, every called tool is known and known tools answer, no query raises |
| Conversation.RequestRaises | mcp_chatbot.py:111-161 | a request to the model that raises ends the loop with its exception, whether it is the first request or the one after a tool round |
| Conversation.ChatFromRuns | mcp_chatbot.py:174-185 | the chat loop's outcomes are those of the inputs in order, and only the last can spin |
| Conversation.ChatFromStops | mcp_chatbot.py:174-185 | the loop stops at the first quit input, after a spinning query, or when the inputs run out, and reports quitting exactly in the first case |
| Conversation.ChatShape | mcp_client.py:86-97 | the whole chat loop: inputs before the first quit, in order; errors do not stop it |
| Chatbot.BindMaps | mcp_chatbot.py:47-48 | every listed name maps to the session; every other name keeps its binding |
| Chatbot.ConnectAllOwner | mcp_chatbot.py:62-69 | a tool name is served by the last server that listed it; an unlisted name keeps its binding |
| Chatbot.ConnectAllOffers | mcp_chatbot.py:47-69 | earlier descriptors and sessions stay in front, and every descriptor of every connected server is offered, duplicates included |
| Chatbot.PartsPointwise | mcp_chatbot.py:79-87 | the parts exist iff each item's part does, one per item, in order |
| Chatbot.EmptyListFormatsEmpty | mcp_chatbot.py:78-88 | empty list content formats to "" |
| Chatbot.TextPartsSplitBack | mcp_chatbot.py:80-88 | text parts without line breaks read back, split at `\n`, as the parts' texts |
| Chatbot.UnknownToolRaises | mcp_chatbot.py:148 | when the first request succeeds, a first call of an unregistered tool raises KeyError (its text is the name's repr) and ends the query |
| Chatbot.RegisteredToolsNeverRaise | mcp_chatbot.py:111-161 | when every request to the model succeeds, registered tools whose sessions answer never make a query raise |
| Chatbot.ChatbotQueryOutcome | mcp_chatbot.py:107-110 | an answered transcript opens with the system instruction and the query, and is well paired |
| Chatbot.ChatBot.constructor | mcp_chatbot.py:19-25 | no sessions, no tools, empty map |
| Chatbot.ChatBot.ConnectToServer | mcp_chatbot.py:28-58 | the registry becomes Connect of the attempt: a refused server changes nothing, one whose list_tools fails adds only its session, a connected one adds its session and its descriptors in order and serves its tool names |
| Chatbot.ChatBot.ConnectToServers | mcp_chatbot.py:60-72 | an unreadable configuration is re-raised before any server is tried; otherwise every server is tried, in order |
| Chatbot.ChatBot.FormatToolContent | mcp_chatbot.py:74-93 | `""` for an empty list, the JSON of a dict, str() of anything else; equals FormattedContent |
| Chatbot.ChatBot.CallTools | mcp_chatbot.py:133-154 | the for loop over calls equals ToolRound with the registry dispatcher |
| Chatbot.ChatBot.ProcessQuery | mcp_chatbot.py:95-165 | process_query equals Query from [system, user] |
| Chatbot.ChatBot.ChatLoop | mcp_chatbot.py:169-185 | chat_loop equals ChatFrom: quit on stripped "quit" in any case; errors are reported and the loop goes on |
| Client.ClientTranscript | mcp_client.py:23 | an answered transcript opens with the user query, has no system message, and is well paired |
| Client.RoundCallsSession | mcp_client.py:46-66 | each call goes to the one session with its own arguments, and its tool message carries the call's id and the result's content |
| Client.NoSessionRaises | mcp_client.py:61 | when the first request succeeds with tool calls and no session is set, the first tool call raises |
| Client.SessionNeverRaises | mcp_client.py:24-73 | when every request to the model succeeds, a session that always answers never makes a query raise |
| Client.ChatBot.constructor | mcp_client.py:16-20 | no session and no tools |
| Client.ChatBot.ConnectToServer | mcp_client.py:106-125 | the session is set and the descriptors are built from the listed tools |
| Client.ChatBot.CallTools | mcp_client.py:46-66 | the for loop over calls equals ToolRound with the session dispatcher |
| Client.ChatBot.ProcessQuery | mcp_client.py:22-77 | process_query equals Query from [user] |
| Client.ChatBot.ChatLoop | mcp_client.py:81-97 | chat_loop equals ChatFrom with the stripped case-insensitive "quit" test |
| Client.ChatBot.ConnectAndRun | mcp_client.py:99-127 | connect, then the chat loop with the session set |

## Left out

- Network and process I/O: arXiv, the OpenAI client, the MCP stdio transport and handshake, `AsyncExitStack`, `nest_asyncio`, `async`/`await`. Their results are parameters.
- Client.ChatBot.ConnectToServer: it has no failure path. In `mcp_client.py` the session is stored before `initialize()` and `list_tools()` run (lines 108-113), so a failure in either propagates out of `main` and the program stops. The model takes the listed tools as given.
- Real files: `os.listdir` order, `os.makedirs` and `open`. The folder is a value, and a new directory is listed last.
- The internals of `json.load`, `json.loads` and `json.dumps`. A document decodes or is corrupt; `loads` is a parameter; dict JSON and `str()` texts of tool results are carried by the values. An extracted record's JSON is written out for the five fields the tools store.
- Documents holding records of any other shape: a page or a count of such a document is outside the model.
- `print`, `logging`, `FastMCP` decorators, `mcp.run`, `__main__`, and the `--server` switch.
- `generate_search_prompt`: a fixed template with the topic and number filled in. Nothing about it needs proof.
- The tools list and `max_tokens` sent to OpenAI: the model's replies are given, so what is sent does not change the replies.
- `max_results`: it is passed to the arXiv oracle unchanged.
- `str.lower`, `str.strip` and `str.title` on non-ASCII text: the model treats those as ASCII only.
- PyValues.ReprChar: `repr()` escapes characters that `str.isprintable()` rejects. The model does this exactly below U+0100. Above U+00FF it shows every character as itself, whereas Python writes non-printable ones (U+2028, U+200B or U+FEFF, for example) as `\uhhhh` or `\Uhhhhhhhh`; the Unicode tables Python consults are not modelled. This affects the count dicts, the KeyError text of an unregistered tool and the `[Errno 17]`/`[Errno 2]` texts.
- ResearchServer.SearchPapers (for a non-empty result only; an empty one returns `[]` for any topic), ResearchApp.SearchPapers and ResearchApp.SearchCallEffect: they require a topic that normalises to a single path component (not empty, `.` or `..`, no `/`). Other topics name paths outside the flat folder model. For such a topic the source writes elsewhere: `""` and `"."` write `papers/papers_info.json`, `".."` writes `./papers_info.json`, and `"ml/nlp"` creates the nested directory `papers/ml/nlp`.
- ResearchServer.PaperCountSpec and ResearchServer.GetPaperCount: they require the same of a non-empty topic. For `"ml/nlp"` the source checks for the nested path `papers/ml/nlp`, and answers `{'ml/nlp': 0}` when it is absent. `"."` and `".."` count `papers/papers_info.json` and `./papers_info.json`. The folder model holds no nested directories and no documents outside a topic directory.
- ResearchApp.GetTopicPapers: it requires the same of its topic. The source reads `papers/<topic>/papers_info.json` for any topic, so `"."` shows a page for `papers/papers_info.json`, and `"ml/nlp"` one for a nested directory.
- GptChat.Router: it answers by the `typeError` text a search_papers or get_paper_count topic that is not a single path component, such as `search_papers("")` or `get_paper_count("ml/nlp")`. Python does not raise for these; what it does is described in the lines above.
- GptChat.Router: three kinds of argument are answered by the `typeError` text. These are a search_papers `topic` that is not a string (Python raises AttributeError on `topic.lower()`), a `paper_id` that is a list or a dict, and any argument that does not bind to the tool's parameters (Python raises TypeError). That text is a parameter; the model does not spell out Python's messages for it. A list or dict `paper_id` raises TypeError (unhashable) only once a readable document is reached; otherwise Python returns the not-saved message naming `str()` of it. A `paper_id` that is null, a boolean or an int is modelled: it gets the not-saved message naming its `str()`. So is get_paper_count's `topic`.
- JSON floating-point numbers: json.loads of a tool call's arguments never yields a float in the model. A float `max_results`, `paper_id` or `topic` is outside it.
- An arXiv search that raises part-way through its results: arXiv yields all results or raises before any.
- The chat loops at end of input: `input()` raising EOFError is caught, printed and retried forever. The model instead ends the loop when its given inputs run out.
- Conversation.Drive and GptChat.GptFrom: a conversation that keeps asking for tools does not terminate in the source. The model ends it when the given replies run out (`OutOfReplies`, `RepliesRanOut`).
- KeyboardInterrupt in the chat loops, and `cleanup`.
