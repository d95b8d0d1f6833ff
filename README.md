# Course assistant core, modelled in Dafny

This project models the logic of a course assistant that answers students'
questions by querying a LightRAG retrieval service, and that drafts,
formats and publishes Moodle forum posts through a Chrome DevTools MCP
server. The model covers four parts of the Python code:

- **LightRAG client** (`lightrag_client.py`). The `query` request is
  assembled from required and optional parameters. HTTP outcomes are mapped
  to a status. Answers are parsed, and each reference's file path becomes a
  lecture, exam or document citation through two ordered lists of regular
  expressions.
- **Moodle helpers** (`moodle_helpers.py`):
  - the snapshot locators that find an element's `uid`;
  - the fallback Markdown-to-HTML converter;
  - the forum-post extractor for drafts;
  - the forum URL validator;
  - the JavaScript string escaper.
- **Course tools** (`course_tools.py`):
  - `lightrag_query`, which turns the client's result into the tool's JSON payload;
  - `generate_forum_draft`;
  - `format_forum_post`;
  - the subject and message normalisation and the guards of `fill_moodle_forum`;
  - `create_cheat_sheet`;
  - `get_tools_by_mode`.
- **MCP client** (`mcp_config.py`). `MCPClient` is a class with mutable
  fields. `connect` polls until a background handshake publishes the tool
  table or the timeout passes. `call_tool` connects on demand and checks the
  tool name. `disconnect` resets every field.

The files are organised as follows:

- `text.dfy` gives the Python string operations the code relies on (`lower`,
  `strip`, `split`, `find`, `str(n)`), restricted to ASCII.
- `regex.dfy` gives the semantics of `re.search` and `re.sub` for the
  pattern shapes the code uses: sequences of quantified character classes.
  It is a backtracking matcher, proved sound and complete against a
  declarative notion of a match, plus an executable scanner proved equal
  to it.
- The other files follow the Python modules: `citations.dfy` (the citation
  parser of `lightrag_client.py`), `lightrag.dfy`, `moodle.dfy`,
  `coursetools.dfy` and `mcp.dfy`.
- `citation_examples.dfy` works the citation patterns through concrete file
  names, and `snapshot_examples.dfy` works the snapshot locators through the
  snapshot line format of the Moodle page.

Where a Python routine works by updating variables in a loop, it is a
`method` with a `while` loop. Each such method is proved equal to a
specification function. The properties are lemmas about those functions.

## Model

| member | source | states |
|---|---|---|
| Regex.SearchSpec | lightrag_client.py:248 | `re.search` returns a match at the leftmost position where the pattern can match, and returns nothing exactly when it can match nowhere |
| Regex.Scan | lightrag_client.py:247-248 | the executable left-to-right scanner returns exactly what `re.search` returns |
| Regex.MatchSound | lightrag_client.py:248 | every match the backtracking matcher reports is a genuine match of the pattern |
| Regex.MatchComplete | lightrag_client.py:248 | the matcher finds a match wherever one exists |
| Regex.SubNoMatch | moodle_helpers.py:236-237 | where the pattern matches nowhere, `re.sub` leaves the text unchanged |
| Regex.GroupChars | lightrag_client.py:250-283 | a one-atom capture group is a run of that atom's characters, of a length its quantifier allows |
| Citations.ExtractSourceInfo | lightrag_client.py:206-314 | there is no citation exactly when the file path is missing or empty; otherwise the citation keeps the reference id and path, and only the base name decides it |
| Citations.DirectoryIgnored | lightrag_client.py:231 | a directory in front of a file name never changes the kind or the citation text |
| Citations.KindByPatterns | lightrag_client.py:234-305 | a name is a lecture exactly when some lecture pattern matches it; it is an exam exactly when no lecture pattern matches and some exam pattern does; otherwise it is a plain document |
| Citations.FirstLectureDecides | lightrag_client.py:247-283 | the citation is built from the first lecture pattern that matches, using the match `re.search` reports |
| Citations.LectureCitation | lightrag_client.py:250-283 | a lecture pattern's match gives a lecture kind; a dated slide deck carries an eight-digit date |
| Citations.ExamCitation | lightrag_client.py:296-305 | an exam pattern's match gives the exam kind |
| Citations.CompactSubsumed | lightrag_client.py:236-242 | whatever the compact `lecture3_slide…` pattern finds, the earlier slides pattern also finds |
| Citations.CompactNeverDecides | lightrag_client.py:234-245 | removing the compact pattern from the lecture list changes no result |
| Citations.SourcesPerReference | lightrag_client.py:199-202 | there is one source per reference with a non-empty path, in reference order, and each is that reference's citation |
| CitationExamples.LectureSlidesExample | lightrag_client.py:236 | `lecture_8_slides_26-27.pdf` is cited as "Lecture 8, Slides 26-27" |
| CitationExamples.ExamExample | lightrag_client.py:287 | `exam_2023_q5.pdf` matches no lecture pattern and is cited as "2023 Exam, Question 5" |
| CitationExamples.DatedSlidesExample | lightrag_client.py:240 | an eight-digit capture is a date: the file is cited as "Course Slides (2025-10-22)" |
| CitationExamples.DatedLectureExample | lightrag_client.py:244 | the date rule also applies to the last lecture pattern, so `lecture_20251022.pdf` is cited as slides of 2025-10-22, not as lecture 20251022 |
| CitationExamples.DocumentExample | lightrag_client.py:307-314 | `README.md` in any directory is cited as a reference document |
| SnapshotExamples.ButtonLineId | moodle_helpers.py:41 | the snapshot line `[uid: button-123] Button: Add discussion topic` has the id `button-123` through the `uid` form |
| SnapshotExamples.ButtonFound | moodle_helpers.py:37-41 | searching that line for "Add discussion topic" among buttons finds `button-123` |
| LightRag.NormalizeBaseUrl | lightrag_client.py:24 | the base URL loses exactly its trailing slashes |
| LightRag.QueryUrlOneSlash | lightrag_client.py:119 | any number of trailing slashes on the configured base gives the same endpoint |
| LightRag.NormalizeIdempotent | lightrag_client.py:24 | normalising twice is normalising once |
| LightRag.LightRagClient.constructor | lightrag_client.py:23-26 | the client keeps the normalised base URL and the API key |
| LightRag.LightRagClient.AddOptional | lightrag_client.py:110-112 | the loop appends exactly the optional entries whose value is neither `None` nor `[]`, in order |
| LightRag.LightRagClient.BuildRequestBody | lightrag_client.py:87-112 | the body is the three required keys followed by the kept optional ones |
| LightRag.RequestBodyContents | lightrag_client.py:87-112 | the body starts with `query`, `mode` and `include_references`; an optional key is present exactly when its value is neither `None` nor `[]`, and then with that value; no key appears twice |
| LightRag.KeptMembers | lightrag_client.py:110-112 | an entry survives the filter exactly when it is present and its value is kept |
| LightRag.DefaultBody | lightrag_client.py:87-112 | with every optional value left at `None`, the body is the required keys alone |
| LightRag.UrlParams | lightrag_client.py:114-116 | the API-key parameter is sent exactly when the key is set and non-empty |
| LightRag.LightRagClient.Query | lightrag_client.py:28-172 | `query` returns the result of the specification function and sends the request it builds |
| LightRag.ShortQueryRefused | lightrag_client.py:79-83 | nothing is sent exactly when the query has fewer than three characters, and then the result is `bad_request` with the fixed message; otherwise the request goes to `<base>/query` |
| LightRag.FromOutcome | lightrag_client.py:125-172 | the status is always one of the six the client defines |
| LightRag.StatusOfOutcome | lightrag_client.py:125-172 | each status names exactly one kind of outcome: success is a 200 JSON object, `bad_request` is 400/422, `timeout` and `connection_error` are the two transport failures |
| LightRag.ErrorDetail | lightrag_client.py:133-147 | a bad request or server error carries the server's `detail`, or else the fixed default |
| LightRag.LightRagClient.ParseResult | lightrag_client.py:174-204 | the loop builds the parsed answer of the specification |
| LightRag.AnswerSources | lightrag_client.py:190-204 | a parsed answer lists one source per reference with a non-empty path, in order |
| MoodleHelpers.ParseSnapshotForText | moodle_helpers.py:18-77 | the scan returns the id of the first candidate line that has one |
| MoodleHelpers.TextUidNone | moodle_helpers.py:43-73 | there is no result exactly when no candidate line yields an id |
| MoodleHelpers.TextUidFound | moodle_helpers.py:43-73 | a result is the id of the first candidate line that yields one; earlier candidates yield none |
| MoodleHelpers.LineIdToken | moodle_helpers.py:58-70 | an id is a token taken from the line; the `uid` form wins whenever it matches |
| MoodleHelpers.ExtractId | moodle_helpers.py:58-70 | the method computes the line's id: the `uid` form, else the `id=` form |
| MoodleHelpers.ParseSnapshotForInput | moodle_helpers.py:80-133 | the loop returns the specification's uid for the labelled input |
| MoodleHelpers.SearchWindow | moodle_helpers.py:116-126 | the window loop returns the first matching input line's uid among the next lines |
| MoodleHelpers.InputUidSpec | moodle_helpers.py:101-129 | a found uid comes from an input line at most five lines below a line holding the label, through the `uid` form, and respects the type filter; without a label line there is none |
| MoodleHelpers.WindowSpec | moodle_helpers.py:116-126 | the window's uid comes from its first input line that the type allows and that carries a uid |
| MoodleHelpers.WindowNone | moodle_helpers.py:116-126 | the window yields nothing exactly when none of its lines is an allowed input line with a uid |
| MoodleHelpers.NearLabelNone | moodle_helpers.py:109-126 | a label line yields nothing exactly when neither it (as an input line with a uid) nor an allowed input line with a uid among the next five serves it |
| MoodleHelpers.NearLabelFound | moodle_helpers.py:109-126 | a label line's uid comes from the first line that serves it, the label line itself checked before the lines below |
| MoodleHelpers.InputUidNone | moodle_helpers.py:101-129 | the result is absent exactly when no line holding the label is served by any line |
| MoodleHelpers.InputUidFound | moodle_helpers.py:101-129 | a result comes from the first label line that some line serves, and from the first line that serves it |
| MoodleHelpers.SimpleMarkdownToHtml | moodle_helpers.py:180-244 | the converter's output is the join of the specification's HTML lines |
| MoodleHelpers.ConvertLines | moodle_helpers.py:196-241 | the loop with its list state emits exactly the specification's lines |
| MoodleHelpers.ConvertLine | moodle_helpers.py:200-237 | one pass opens a list before an item, closes it before anything else, and emits the line's HTML |
| MoodleHelpers.ClassifyLine | moodle_helpers.py:200-230 | the tests run in the converter's order |
| MoodleHelpers.HtmlWellNested | moodle_helpers.py:199-242 | whatever the input, the `<ul>`/`</ul>` markup is well nested |
| MoodleHelpers.HtmlBlocks | moodle_helpers.py:199-242 | apart from the list markers there is exactly one HTML line per input line, in order |
| MoodleHelpers.NoStarUnchanged | moodle_helpers.py:234-237 | a line without `*` is left as it is by the emphasis rules |
| MoodleHelpers.ExtractForumPostFromDraft | moodle_helpers.py:247-304 | the method computes the as-written extraction |
| MoodleHelpers.JsonMessage | moodle_helpers.py:270-282 | the JSON draft's message parts are appended in order |
| MoodleHelpers.JsonSubject | moodle_helpers.py:271 | the subject is the `title` member when there is one, even an empty one, else the default |
| MoodleHelpers.JsonMessageEmpty | moodle_helpers.py:270-282 | the message is empty exactly when none of the three sections is present |
| MoodleHelpers.HeadingMessage | moodle_helpers.py:284-300 | the plain-text path as written: the first `# ` line gives the subject, and the message is cut after the first occurrence of that line's text |
| MoodleHelpers.HeadingFound | moodle_helpers.py:290-297 | the heading text is always found, no later than its own line, so the `idx >= 0` test never fails |
| MoodleHelpers.NoHeadingFallback | moodle_helpers.py:284-300 | without a `# ` line the whole draft is the message under the default subject |
| MoodleHelpers.AsWrittenAgrees | moodle_helpers.py:290-297 | the written and the intended readings agree when the heading text does not occur earlier |
| MoodleHelpers.HeadingLineCut | moodle_helpers.py:284-300 | intended reading: the heading line sits at its own start, and the message is the stripped text after that line |
| MoodleHelpers.HeadingFirst | moodle_helpers.py:284-300 | a draft that opens with `# title` gives the stripped title and the stripped body, under both readings |
| MoodleHelpers.EarlierHeadingText | moodle_helpers.py:290-297 | for `"a# b\n# b"` the written code keeps `# b` as the message, where the intended message is empty |
| MoodleHelpers.ValidateMoodleUrl | moodle_helpers.py:307-338 | an accepted URL starts with `https://` and holds `/forum/` |
| MoodleHelpers.ValidUrlIff | moodle_helpers.py:318-335 | a URL is accepted exactly when it starts with `https://`, mentions `moodle` in some case and holds `/forum/`; the emptiness and `/mod/forum/` tests decide nothing |
| MoodleHelpers.HttpRejected | moodle_helpers.py:326-328 | a plain `http://` URL is always rejected |
| MoodleHelpers.ForumUrlShape | moodle_helpers.py:317 | every HTTPS `…moodle…/mod/forum/…` URL is accepted |
| MoodleHelpers.EscapeIsPerChar | moodle_helpers.py:355-365 | the seven sequential replacements escape each character independently |
| MoodleHelpers.EscapeShape | moodle_helpers.py:341-367 | the escaped text holds no raw line break and is never shorter than the input |
| MoodleHelpers.EscapeRoundTrip | moodle_helpers.py:341-367 | reading the escaped text as a JavaScript string literal gives the original text back |
| MoodleHelpers.ReplaceChar | moodle_helpers.py:355 | `replace` leaves a text without the character unchanged, and adds no other characters |
| CourseTools.FindHeadingSpec | course_tools.py:264 | the heading scanner returns the first match of the MULTILINE heading pattern, and returns nothing exactly when the pattern fits nowhere |
| CourseTools.HeadingAtSpec | course_tools.py:264 | from a line start, the scan finds a match exactly when the pattern fits there, with the longest `\s+` |
| CourseTools.HeadingTitle | course_tools.py:266-268 | the subject taken from a heading match is the stripped text after its marks and spaces |
| CourseTools.NormaliseHeading | course_tools.py:263-274 | with a heading, the subject is the heading text and the message is what follows the match, without leading line breaks |
| CourseTools.NormaliseFirstLine | course_tools.py:276-287 | without a heading, a non-blank first line becomes the subject (at most 100 characters) and is removed from the message; a blank first line changes nothing |
| CourseTools.FirstLineSubject | course_tools.py:277-279 | the first-line subject is at most 100 characters |
| CourseTools.FirstLineRest | course_tools.py:283-286 | the first line is removed only when the message holds a line break |
| CourseTools.NormaliseHeadingLine | course_tools.py:252-274 | a message opening with a heading line, under a subject that asks for a title, gives the heading text as the subject |
| CourseTools.NormaliseExample | course_tools.py:252-274 | "write a post about RAG" with a `## Understanding RAG` first line gives that title and the body text |
| CourseTools.LoneMarkAsWritten | course_tools.py:264-272 | as written, a lone `#` line takes the next line as its heading text and leaves an empty message |
| CourseTools.LoneMarkExample | course_tools.py:264-272 | `"#\nbody text"` gives subject "body text" as written, and subject "#" with the one-line pattern |
| CourseTools.LoneMarkOneLine | course_tools.py:264-287 | with `\s` kept to one line, a lone `#` line is the subject and the next line the message |
| CourseTools.OneLineHeading | course_tools.py:264 | the corrected pattern never takes a line break into the heading |
| CourseTools.FillGuards | course_tools.py:289-316 | the browser step is reached exactly when the tools are available and the chosen URL is valid, and then with the normalised post and that URL |
| CourseTools.FillRefusals | course_tools.py:292-316 | each refusal carries the exact error and advice of the first failing guard |
| CourseTools.FillMoodleForumWith | course_tools.py:250-316 | for either reading of the heading pattern, the browser step is reached exactly when the tools are available and the chosen URL is an HTTPS forum URL mentioning moodle, and then with the re-derived post and that URL; `FillMoodleForumAsWritten` is the code as written and `FillMoodleForum` the one-line reading |
| CourseTools.FillLoneMark | course_tools.py:264-316 | on `"#\nbody text"` under "post" with a valid URL, the browser gets ("body text", "") as written and ("#", "body text") with the one-line reading |
| CourseTools.ForumUrlChoice | course_tools.py:300-301 | a non-empty `forum_url` wins over the setting; the URL is empty exactly when both are missing |
| CourseTools.PayloadShape | course_tools.py:109-128 | only the statuses "error" and "connection_error" give an error payload; every other result gives the answer shape with `query` and `mode` |
| CourseTools.TimeoutLooksAnswered | course_tools.py:96-128 | a timed-out query is reported as an answer with an empty response |
| CourseTools.OnlyNeedContextSent | course_tools.py:96-108 | a sent query always carries `only_need_context`, true or false; a short one sends nothing |
| CourseTools.ContextInBody | course_tools.py:104-105 | `only_need_context` is never `None`, so it is always in the body |
| CourseTools.MarkerFormatsEmpty | course_tools.py:141-208 | the delegation marker carries the conversation unchanged, and formatting it gives the empty "Untitled Question" template |
| CourseTools.FormatLines | course_tools.py:189-203 | with one-line values the post is exactly the fourteen template lines: the title, the three sections in fixed order, the attribution |
| CourseTools.FormatHead | course_tools.py:189-190 | the post opens with `# ` and the title (default "Untitled Question"), then a blank line |
| CourseTools.FormatThenExtract | course_tools.py:175-208 | a formatted post read back by `extract_forum_post_from_draft` recovers the stripped title |
| CourseTools.FormatThenFill | course_tools.py:175-287 | a formatted post given to `fill_moodle_forum` yields its title as the subject and the sections as the message, under either reading of the heading pattern |
| CourseTools.CheatSheetSent | course_tools.py:518-533 | every concept is sent as a hybrid query with the three required keys; a failed query gives an empty sheet |
| CourseTools.ToolsByModeSpec | course_tools.py:547-590 | each mode's tools are distinct members of the full list; the browser tool only in the fallback; retrieval in every mode but "forum" |
| Mcp.ToolTableKeys | mcp_config.py:110 | the tool table has one entry per advertised name |
| Mcp.ToolTableValues | mcp_config.py:110 | each entry holds the last tool advertised under its name |
| Mcp.PutKeys | mcp_config.py:110 | a dict assignment keeps keys distinct and adds an entry only for a new key |
| Mcp.PutValues | mcp_config.py:110 | a dict assignment maps the key to the new value and leaves every other entry in place |
| Mcp.McpClient.constructor | mcp_config.py:39-45 | a fresh client has no session, no tools, no error and no task |
| Mcp.McpClient.Connect | mcp_config.py:47-169 | the polling loop ends in the state and result of the specification, keeping the invariant |
| Mcp.McpClient.Sleep | mcp_config.py:95-131 | one sleep advances the background task by one step |
| Mcp.ConnectWhenReady | mcp_config.py:53-54 | an initialised client returns its table and changes nothing |
| Mcp.ConnectOutcome | mcp_config.py:109-169 | `connect` succeeds exactly when the handshake completes within the timeout, with the tool table; otherwise it raises the timeout error, ends uninitialised and leaves no live task |
| Mcp.ConnectIdempotent | mcp_config.py:53-54 | a second `connect` after a successful one returns the same table and changes nothing |
| Mcp.ConnectKeepsInv | mcp_config.py:47-169 | `connect` keeps the connection error unset, the keys distinct and a session behind initialisation |
| Mcp.McpClient.CallTool | mcp_config.py:171-212 | `call_tool` ends in the state, result and reach of the specification |
| Mcp.CallToolGuards | mcp_config.py:187-212 | the session is reached exactly when the client is, or gets, connected and the name is known; a failed connect is a `RuntimeError`, an unknown name a `ValueError` listing at most five known names |
| Mcp.CallToolKeepsInv | mcp_config.py:171-212 | `call_tool` keeps the invariant |
| Mcp.McpClient.IsConnected | mcp_config.py:214-221 | with the invariant, being connected is being initialised |
| Mcp.ConnectedIsInitialised | mcp_config.py:221 | the session test of `is_connected` never decides anything under the invariant |
| Mcp.McpClient.GetConnectionError | mcp_config.py:223-230 | the connection error is always `None` |
| Mcp.McpClient.Disconnect | mcp_config.py:232-252 | `disconnect` ends in the specification's reset state, awaiting only a live task |
| Mcp.DisconnectResets | mcp_config.py:237-248 | after `disconnect` nothing is connected, the table is empty and there is no task; the next `connect` starts afresh |
| Mcp.DisconnectKeepsInv | mcp_config.py:232-252 | `disconnect` keeps the invariant |

## Left out

- Network I/O. The HTTP exchange of `query` is an `Outcome` parameter: an answer with a status code and body, a timeout, a refused connection, or another exception. The MCP stdio subprocess and session calls are a `Handshake` and a `ToolReply` parameter.
- `insert_text`, `insert_texts`, `get_pipeline_status` and `health_check` in `lightrag_client.py` are HTTP calls with no logic beyond the request. `get_lightrag_client` and the module singletons read environment variables.
- JSON parsing and serialisation. Parsed JSON values are inputs (`Json`, `Draft`), and tool payloads are datatypes rather than JSON text. Only string-valued draft fields are modelled.
- Logging, and the exception-to-`{"success": false}` wrappers of `mcp_tools.py`.
- `markdown_to_moodle_html` wraps the external `markdown` library; only its fallback `simple_markdown_to_html` is modelled.
- The browser half of `fill_moodle_forum` (course_tools.py:318-486): remote calls, a file write, sleeps and generated JavaScript. Line 400 awaits the synchronous `markdown_to_moodle_html`, which raises `TypeError` and is caught at line 473, so the browser steps as written never complete.
- `lightrag_query`'s `except` branch (course_tools.py:130-135): the modelled client never raises.
- `initialize_mcp`, `is_mcp_available` and the global `mcp_client` (mcp_config.py:257-287): they forward to one shared client.
- Mcp.McpClient.Connect: time is the count of 0.1-second polls, so a timeout of `t` seconds allows `10·t` polls. Clock drift and the time each poll takes are not modelled. The handshake's progress is a fixed schedule.
- CourseTools.FillMoodleForum: goes on with the one-line reading of the heading pattern (see Findings), not the code as written; `FillMoodleForumAsWritten` keeps the code as written, and `FillMoodleForumWith` states both. `ExtractForumPostFromDraft` in `moodle.dfy` follows its code as written, with the corrected cut stated by `HeadingLineCut`.
- Concurrency: calls are sequential. Two `connect` calls interleaving on one client are not modelled.
- Text is ASCII. `lower`, `isspace`, `islower`, `\d` and `\s` follow their ASCII meaning, and the Chinese characters in the citation patterns are plain characters.
- Regex: only the pattern shapes the code uses are modelled (sequences of quantified character classes, anchors, a first capture group). The heading pattern of course_tools.py:264 is a dedicated scanner.

## Findings

| source | as written | input that shows it | evidently intended | confidence | as-written member | corrected member |
|---|---|---|---|---|---|---|
| moodle_helpers.py:290-297 | the message is cut after the first occurrence of the heading's text anywhere in the draft | draft `"a# b\n# b"`: subject "b", message "# b" | cut after the heading line itself, giving an empty message | high (not executed) | MoodleHelpers.EarlierHeadingText | MoodleHelpers.HeadingLineCut |
| course_tools.py:264 | `\s+` after the `#` marks of the heading pattern also matches a line break, so a lone `#` line takes the next line as its title | subject "post", message `"#\nbody text"`: subject "body text", message "" | a heading stays on one line; the `#` line is then the first-line subject and "body text" the message | medium (not executed) | CourseTools.LoneMarkAsWritten | CourseTools.LoneMarkOneLine |
