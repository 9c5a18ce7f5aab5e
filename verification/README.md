# Voice-to-Jira story workflow, modelled in Dafny

This project models the core of the voice-to-Jira story tool: the LangGraph
workflow that turns a topic into a Jira story. The workflow asks a model for
a story, validates it and shows a preview. It then asks a human for approval
and creates the issue when the human approves. Around that workflow the
project also models:

- the two story generators (the LangGraph one and the standalone service module);
- the two issue-creation clients, with their issue-type selection and request body;
- the command-line entry point's reading of the final state;
- the HTTP routes' validation and status mapping;
- the approval form's optional-field assembly.

The modules follow the program's structure:

| module | file | models |
|---|---|---|
| `Wrappers` | wrappers.dfy | `Option`, `Result`, JavaScript truthiness of optional strings |
| `Text` | text.dfy | `trim`, `toLowerCase`, `indexOf`, `split`, `join`, `replace` (first match, with `$` patterns) |
| `State` | state.dfy | the agent state, the channel reducers and the merge of a node's partial update |
| `StoryReply` | story_reply.dfy | the model's reply, the greedy `{...}` span, the parsed object |
| `StoryGeneration` | story_generation.dfy | the LangGraph generator: prompt, span, `??` defaulting |
| `IssueTypes` | issue_types.dfy | story-side and subtask issue-type selection |
| `IssuePayload` | issue_payload.dfy | the description document, the request fields, the create result |
| `JiraClient` | jira_client.dfy | the LangGraph issue client |
| `JiraService` | jira_service.dfy | the standalone service module: logical-or defaulting, its type lookup, its create (with its checkbox as written) |
| `Nodes` | nodes.dfy | the four workflow nodes |
| `Graph` | graph.dfy | the edges, the router, whole runs with the recursion limit |
| `JiraAgent` | jira_agent.dfy | the CLI: topic choice and exit code and output |
| `StoryPreview` | story_preview.dfy | the approval form's `handleApprove` |
| `StoryRoutes` | story_routes.dfy | `POST /generate-story` and `POST /create-jira` |

Collaborators the program calls but whose code is outside the model become
function-typed parameters:

- the language model: a prompt to a reply or a thrown message;
- `JSON.parse`: a span to a parsed object or a thrown message;
- the issue POST: the request fields to a key, an HTTP error body or a thrown message;
- the project lookup: the issue types as a list parameter;
- the story generator and issue client that the nodes and routes call;
- the human's typed line.

A run of the graph is a function of the topic and these collaborators. It
uses LangGraph's default recursion limit of 25 node steps as fuel.

### Behaviour worth knowing

- When the reply has no `{...}` span, or when parsing or the model call throws, `generateStory` returns a failure. It never falls back to a degraded story.
- The graph has no error edges. `generate_story -> format_preview -> human_approval` are unconditional, so a failed generation still reaches the preview and the approval prompt. The run's final `error` is then the preview's "Missing story content to format" (after a rejection) or the creation node's "Missing story content" (after an approval). The generation error is overwritten (`Graph.InvokeOutcome`).
- `createJiraNode` passes no optional fields, so the workflow never creates a subtask. It writes `jiraKey`/`jiraUrl` and never writes `createdSubtaskIssues`.
- There is no subtask-generation node and no fan-out. Aggregation over many create runs is modelled only as a fold of the `createdSubtaskIssues` reducer.
- The HTTP routes call the LangGraph generator and client. The standalone service module in jira-service.ts is not on their path.
- A topic of only whitespace passes the route's check, and the generator receives "" (`StoryRoutes.TopicIsTrimmed`).
- An empty criteria array passes the route's check. The client then refuses it with a 500 (`StoryRoutes.EmptyCriteriaReachClient`).

## Model

| member | source | states |
|---|---|---|
| State.InitialState | jira-agent.ts:34-37 | a run starts from the topic and an empty log, every optional channel absent |
| State.ReplaceReducer | langgraph/state.ts:69-71 | a present update becomes the value; an absent update keeps the old value; with both absent the default is used |
| State.ReplaceTopic | langgraph/state.ts:74 | the `topic` channel is never absent |
| State.AppendMessages | langgraph/state.ts:76-79 | the old log is a prefix, the new entries follow it exactly, and the length is the sum |
| State.ConcatCreatedIssues | langgraph/state.ts:82-85 | existing entries stay as a prefix; an array is appended, a single item is appended as one entry, nothing is appended for an absent update |
| State.ReplaceIdempotent | langgraph/state.ts:69-71 | applying the same replace update twice equals applying it once |
| State.ReplaceSequential | langgraph/state.ts:69-71 | two replace updates in a row equal one update where the later present value wins |
| State.DefaultsWhenBothAbsent | langgraph/state.ts:73-74 | with old and new absent, `topic` gives "" while a plain replace channel stays absent |
| State.AppendMessagesAssociative | langgraph/state.ts:76-79 | appending logs is associative, so sequential stages keep their order |
| State.FoldIssuesAppends | langgraph/state.ts:81-85 | folding N single-item updates appends exactly those N issues, in fold order |
| State.FoldIssuesAnyOrder | langgraph/state.ts:81-85 | whatever order the N single-item updates arrive in, the channel gains exactly N entries with the same multiset of issues, and the old entries stay a prefix |
| State.MergeKeepsHistory | langgraph/state.ts:87-100 | merging a node's update never loses log entries or created issues: the old log is a prefix, grown by exactly the update's entries |
| State.MergeReplaceChannels | langgraph/state.ts:87-100 | for each of the ten replace channels (title, description, criteria, parent key, subtasks, approval, key, url, error, and the topic with its "" default), a written value replaces the old one and an unwritten channel keeps its value |
| State.MergeIdempotent | langgraph/state.ts:87-100 | merging an update without log entries twice equals merging it once |
| State.MergeLogMultisets | langgraph/state.ts:87-100 | merging adds exactly the update's entries to each log's multiset |
| State.MergeDisjointCommutes | langgraph/state.ts:87-100 | updates writing disjoint replace channels commute, up to the order of log entries |
| Text.Trim | langgraph/nodes.ts:84 | `trim` leaves neither end whitespace and never lengthens the string |
| Text.TrimStrips | langgraph/nodes.ts:84 | `trim` removes whitespace at the two ends and nothing else |
| Text.TrimOfTrimmed | client/src/StoryPreview.tsx:26 | a string whose ends are not whitespace is unchanged by `trim` |
| Text.TrimIdempotent | server/routes/storyRoutes.ts:31 | trimming twice equals trimming once |
| Text.TrimEmptyIff | client/src/StoryPreview.tsx:22 | `s.trim()` is falsy exactly when `s` is all whitespace |
| Text.ToLower | langgraph/nodes.ts:84 | `toLowerCase` lowercases each character by the modelled one-to-one mappings, in place |
| Text.LowerCharOntoAscii | langgraph/nodes.ts:84-96 | only ASCII letters and U+212A lowercase onto an ASCII letter, so comparing the normalised answer with the ASCII words "yes", "y", "no", "n" decides it exactly |
| Text.LowerExampleLatin1 | langgraph/nodes.ts:84 | "É" lowercases to "é" |
| Text.IndexOf | langgraph/services/story-generation.ts:58 | the result is the first occurrence, and it is absent exactly when there is none |
| Text.Split | client/src/StoryPreview.tsx:26 | joining the pieces with the separator gives the input back, no piece contains the separator, and each cut is at the first occurrence (no occurrence starts inside a piece a separator follows) |
| Text.SplitOverlapping | langgraph/services/jira-client.ts:103 | with an overlapping separator the cut is at the first occurrence: "\n\n\n" on "\n\n" gives "" and "\n" |
| Text.SplitJoin | client/src/StoryPreview.tsx:26 | splitting a join of separator-free parts on a one-character separator gives the parts back |
| Text.TrimmedNonBlank | client/src/StoryPreview.tsx:26 | every kept piece is non-empty and trimmed, and there are no more pieces than in the input |
| Text.TrimmedNonBlankAppend | client/src/StoryPreview.tsx:26 | trimming and filtering distributes over concatenation, so pieces keep their order |
| Text.TrimmedNonBlankMembers | client/src/StoryPreview.tsx:26 | a text is kept exactly when it is the non-empty trim of some piece |
| Text.TrimmedNonBlankOfClean | client/src/StoryPreview.tsx:26 | trimmed, non-empty pieces pass through unchanged |
| Text.ReplaceFirstOnlyFirst | langgraph/services/story-generation.ts:58 | only the first occurrence is replaced; every later occurrence survives, shifted by the change in length |
| Text.ReplaceFirstAbsent | langgraph/services/story-generation.ts:58 | without an occurrence the string is unchanged |
| Text.Substitute | langgraph/services/story-generation.ts:58 | a replacement without `$` is inserted as is |
| Text.JsReplaceAgreesWithoutDollar | langgraph/services/story-generation.ts:58 | JavaScript's `replace` and verbatim insertion agree on every replacement without `$` |
| StoryReply.JsonSpan | langgraph/services/story-generation.ts:62 | the span is absent exactly when no `{` precedes a `}`; otherwise it is the leftmost, and at that start the longest, brace-delimited slice |
| StoryReply.JsonSpanExistsIff | langgraph/services/story-generation.ts:62-65 | a span exists exactly when some `}` follows the first `{` |
| StoryReply.JsonSpanDelimited | langgraph/services/story-generation.ts:62 | the span opens with `{` and closes with `}` |
| StoryGeneration.Prompt | langgraph/services/story-generation.ts:58 | the prompt is the template's head, the topic verbatim, then the template's tail |
| StoryGeneration.PromptAsWritten | langgraph/services/story-generation.ts:58 | the prompt as the code builds it equals the verbatim prompt for every topic without `$` |
| StoryGeneration.PromptAsWrittenExpandsDollars | langgraph/services/story-generation.ts:58 | for the topic `$$` the prompt as written carries a single `$`, not the topic |
| StoryGeneration.NullishDefaults | langgraph/services/story-generation.ts:74-78 | only an absent member gets its default; an empty title or description is kept; a criteria string becomes a one-element list unless empty, which gives no criteria |
| StoryGeneration.GenerateStory | langgraph/services/story-generation.ts:55-87 | the model is asked with the prompt as the code builds it; a thrown model call fails with its message, no span with the parse-failure message, a thrown parse with its message; success exactly when the span parses, with the defaulted story |
| IssueTypes.StorySide | langgraph/services/jira-client.ts:57-59 | the filtered list holds only types not flagged subtask and without "sub" in the lowercased name |
| IssueTypes.Find | langgraph/services/jira-client.ts:60 | a found type is the first in the list that passes the test; nothing found means no type passes |
| IssueTypes.FindStorySide | langgraph/services/jira-client.ts:57-69 | finding in the filtered list is finding the first story-side type that passes |
| IssueTypes.StoryTypeIdIsBestChoice | langgraph/services/jira-client.ts:54-72 | the chosen id is that of the earliest story-side type of the best rank (exact story, exact task, mentions either, any); it is "10001" exactly when no story-side type exists |
| IssueTypes.SubtaskTypeId | langgraph/services/jira-client.ts:75-87 | with a subtask-like type present the id is the first such type's; else with a type mentioning "sub" the first of those; else "10003" |
| IssueTypes.SubtaskTypeIdIsBestChoice | langgraph/services/jira-client.ts:75-87 | against an independent ranking (subtask-like, then "sub", then none), the id is the earliest type of the best rank present, and "10003" exactly when no type is a candidate |
| IssueTypes.SubtaskChoiceIsNotStorySide | langgraph/services/jira-client.ts:79-85 | a type eligible as a subtask is never story-side |
| IssuePayload.DescriptionParagraphs | langgraph/services/jira-client.ts:103-110 | every paragraph is non-empty and trimmed |
| IssuePayload.DescriptionDocLayout | langgraph/services/jira-client.ts:103-126 | the document is the paragraphs, the bold heading exactly once, then one checkbox line per criterion in order |
| IssuePayload.DescriptionKeepsParagraphs | langgraph/services/jira-client.ts:103-110 | every non-blank paragraph of the description appears, trimmed, in the posted document whatever the criteria |
| IssuePayload.SingleParagraph | langgraph/services/jira-client.ts:103-110 | a trimmed description without blank-line breaks is one paragraph, as is |
| IssuePayload.WithOptional | langgraph/services/jira-client.ts:134-141 | `parent`, `duedate` and the start-date field are set exactly for truthy inputs and `labels` exactly for a non-empty list; the other fields are untouched |
| IssuePayload.FieldsWith | langgraph/services/jira-client.ts:128-141 | the fields carry the project, summary, issue type and description document, and a parent exactly for a truthy parent key |
| IssuePayload.BrowseUrl | langgraph/services/jira-client.ts:159 | the link is the base, "/browse/", then the key |
| IssuePayload.ResultFor | langgraph/services/jira-client.ts:157-164 | the result has the key and its link, plus the parent's key and link exactly for a truthy parent key |
| JiraClient.RequestFields | langgraph/services/jira-client.ts:97-141 | the issue type is the subtask type exactly for a truthy parent key, and the parent field is set exactly then |
| JiraClient.FromReply | langgraph/services/jira-client.ts:152-171 | a created key gives success with its result; an HTTP error gives "Jira API error: " and the body; a thrown error gives its message |
| JiraClient.CreateJiraStory | langgraph/services/jira-client.ts:89-172 | missing content fails with "Missing story content"; otherwise the result is the POST reply's reading |
| JiraClient.MissingContentMakesNoRequest | langgraph/services/jira-client.ts:93-95 | without content the result does not depend on the issue types or the POST |
| JiraClient.CreatedResultShape | langgraph/services/jira-client.ts:157-164 | a created issue is reported with its browse link, and with the parent's key and link exactly for a truthy parent key |
| JiraClient.IssueTypeMatchesRequest | langgraph/services/jira-client.ts:98-101 | a subtask request is never typed with a story-side type |
| JiraService.Prompt | jira-service.ts:56-88 | the service's prompt is the same text as the LangGraph generator's verbatim prompt |
| JiraService.FalsyDefaults | jira-service.ts:101-105 | a missing or empty title or description gets its default; a non-empty criteria string becomes one criterion; any other non-array gives the default criterion |
| JiraService.FalsyDefaultsNonEmpty | jira-service.ts:101-105 | title and description are never empty, and criteria are non-empty unless given an empty array |
| JiraService.DefaultingRulesAgreeIff | jira-service.ts:101-105 | the two defaulting rules agree exactly when no member is an empty string |
| JiraService.GenerateStory | jira-service.ts:55-114 | the same failure cases as the LangGraph generator, including a thrown parse, with the logical-or defaulted story on success |
| JiraService.GeneratorsDifferOnlyInDefaulting | jira-service.ts:90-114 | for a topic without `$`, or a model answering both prompts alike, the two generators fail together with the same error, and on success give the `\|\|`- and `??`-defaulted stories of the same parsed reply |
| JiraService.IssueTypeId | jira-service.ts:116-150 | a failed lookup or a project without issue types gives "10001"; otherwise the story-side selection |
| JiraService.RequestFields | jira-service.ts:158-206 | the service always posts the story-side type, with the parent field exactly for a truthy parent key |
| JiraService.CreateJiraStory | jira-service.ts:152-234 | missing content fails with "Missing story content"; otherwise the reading of the reply to posting the fields as the code builds them |
| JiraService.MissingContentMakesNoRequest | jira-service.ts:154-156 | without content the result does not depend on the lookup or the POST |
| JiraService.CreatedResultShape | jira-service.ts:224-229 | a created issue is reported with its browse link, and with the parent's key and link exactly for a truthy parent key |
| JiraService.ServiceMatchesClient | jira-service.ts:158-206 | for a top-level issue the service's fields as built differ from the client's only in the description's checkbox, and its corrected fields equal the client's; with a parent key the issue type differs too |
| JiraService.RequestFieldsAsWritten | jira-service.ts:173-178 | the fields as written differ from the intended ones only in the checkbox of the description |
| JiraService.CheckboxAsWrittenIsGarbled | jira-service.ts:176 | a criterion "done" is posted with the garbled three-character prefix, not the ballot box |
| JiraService.GarbledExactlyWithCriteria | jira-service.ts:173-178 | the garbled checkbox changes the posted description exactly when there is at least one criterion |
| Nodes.GenerateStoryNode | langgraph/nodes.ts:12-31 | a failure writes only `error` and one error message; a success writes title, description and criteria together and one message |
| Nodes.GenerationMergedAllOrNothing | langgraph/nodes.ts:18-30 | after the merge the log grew by one, and the story channels are all the story's or all unchanged |
| Nodes.FormatPreviewNode | langgraph/nodes.ts:33-68 | missing content gives only the error; otherwise only `pending` and one message |
| Nodes.PreviewAfterGeneration | langgraph/nodes.ts:38-40 | a generated story with non-empty title and description reaches `pending`; a failed generation or an empty title ends in the preview's missing-content error |
| Nodes.Decide | langgraph/nodes.ts:89-107 | the decision is approved exactly for "yes" or "y", and never pending |
| Nodes.ApprovalNote | langgraph/nodes.ts:89-107 | the log says "Approved", "Rejected" for "no"/"n", and "Unrecognized: " with the answer otherwise |
| Nodes.HumanApprovalNode | langgraph/nodes.ts:70-108 | the node writes only the decision for the trimmed, lowercased answer, and its note |
| Nodes.ApprovalIsFailClosed | langgraph/nodes.ts:84-107 | after the merge the state is approved exactly for "yes" or "y" after normalising, and rejected otherwise |
| Nodes.NormaliseExample | langgraph/nodes.ts:84 | " Yes\n" normalises to "yes" |
| Nodes.ApprovalExamples | langgraph/nodes.ts:84-107 | " Yes\n" approves; an empty line rejects and is logged as unrecognised |
| Nodes.CreateRequest | langgraph/nodes.ts:119-123 | the payload carries the story content and no optional fields |
| Nodes.CreateJiraNode | langgraph/nodes.ts:110-140 | missing content gives only the error; a client failure gives the error and one message; a success gives key, link and one message |
| Nodes.MissingContentSkipsClient | langgraph/nodes.ts:115-117 | without content the client is not consulted and the log is unchanged |
| Nodes.CreateOutcomeExclusive | langgraph/nodes.ts:125-139 | a key is written exactly on a successful creation, an error never comes with a key, and the subtask channel is never written |
| Nodes.NodeWithClient | langgraph/nodes.ts:119-123 | with the LangGraph client the node creates a top-level issue of the story-side type; an empty criteria list is refused by the client |
| Graph.Route | langgraph/graph.ts:29-33 | approved leads to create_jira, rejected to END, pending or absent back to human_approval |
| Graph.Successor | langgraph/graph.ts:25-35 | the fixed edges START, generate_story, format_preview, human_approval; the router after human_approval; create_jira to END |
| Graph.CreateJiraOnlyAfterApproval | langgraph/graph.ts:29-35 | only human_approval with `approved` in the state leads to create_jira |
| Graph.FixedEdgesIgnoreState | langgraph/graph.ts:25-27 | the unconditional edges do not depend on the state, `error` included |
| Graph.Run | langgraph/graph.ts:20-35 | a finished run's trace starts at its first node and ends at END with the final state |
| Graph.RunChained | langgraph/graph.ts:25-35 | every finished run follows the graph's edges, step by step |
| Graph.CreateJiraFollowsApproval | langgraph/graph.ts:29-35 | along any run, create_jira comes right after human_approval, with `approved` in the state |
| Graph.InvokeCreatesOnlyWhenApproved | langgraph/graph.ts:29-35 | in a run from START, create_jira is entered only right after an approving human_approval |
| Graph.FromHumanApproval | langgraph/graph.ts:29-35 | from human_approval the run goes to create_jira and END on approval, to END otherwise |
| Graph.FromCreateJira | langgraph/graph.ts:35 | create_jira goes straight to END |
| Graph.FromGenerateStory | langgraph/graph.ts:26-27 | from generate_story the run passes format_preview and human_approval whatever the state |
| Graph.InvokePath | langgraph/graph.ts:25-35 | every run from START finishes within the recursion limit, visiting the three fixed nodes once in order, then create_jira exactly on approval, then END |
| Graph.PreviewKeepsStoryAndIssue | langgraph/nodes.ts:33-68 | format_preview changes no story or issue channel, and sets `error` only on missing content |
| Graph.ApprovalKeepsOtherChannels | langgraph/nodes.ts:70-108 | human_approval changes no story, issue or error channel |
| Graph.InvokeOutcome | langgraph/graph.ts:20-35 | the final state records the decision; a failed generation ends without a key and with a missing-content error; a rejection never creates; an approved good story is created without optional fields, with the key exactly when the client succeeds |
| JiraAgent.TopicOf | jira-agent.ts:15-32 | a truthy argument is the topic; otherwise the typed line, trimmed |
| JiraAgent.Interpret | jira-agent.ts:45-62 | a truthy error exits 1 with "Error: ..."; exit 0 exactly for a finished run without error; "key url" is printed exactly when not rejected and both are truthy |
| JiraAgent.Main | jira-agent.ts:14-63 | an empty topic exits 1 before the workflow; otherwise the run's reading |
| JiraAgent.EmptyTopicSkipsWorkflow | jira-agent.ts:29-31 | without a topic the collaborators are never consulted |
| JiraAgent.RunStartsFromTopic | jira-agent.ts:34-37 | the run starts from the topic and an empty log |
| JiraAgent.MainOutcome | jira-agent.ts:42-56 | a failed generation exits 1 with the missing-content error; a rejection exits 0 silently; a created issue prints its key and link |
| StoryPreview.ParseLabels | client/src/StoryPreview.tsx:26 | every parsed label is non-empty and trimmed |
| StoryPreview.HandleApprove | client/src/StoryPreview.tsx:20-29 | the parent key is set exactly when its trim is non-empty, and trimmed; the dates exactly when non-empty; labels exactly when the input's trim is non-empty; nothing else is set |
| StoryPreview.ParsedLabelsAreClean | client/src/StoryPreview.tsx:25-27 | each label is non-empty, trimmed, comma-free and the trim of a piece between commas |
| StoryPreview.LabelsRoundTrip | client/src/StoryPreview.tsx:25-27 | clean labels typed joined by commas come back exactly, in order |
| StoryPreview.BlankFormGivesNothing | client/src/StoryPreview.tsx:20-29 | a blank form gives no optional fields at all |
| StoryRoutes.GenerateStoryRoute | server/routes/storyRoutes.ts:24-42 | 400 exactly for a missing, empty or non-string topic; otherwise 200 with the story or 500 with the error for the trimmed topic |
| StoryRoutes.RejectedTopicSkipsGenerator | server/routes/storyRoutes.ts:27-30 | a rejected topic never reaches the generator |
| StoryRoutes.TopicIsTrimmed | server/routes/storyRoutes.ts:31 | surrounding whitespace does not change the answer; an all-whitespace topic passes and the generator receives "" |
| StoryRoutes.CreateJiraRoute | server/routes/storyRoutes.ts:44-70 | 400 exactly unless title and description are truthy and the criteria an array; otherwise 200 with the result or 500 with the error |
| StoryRoutes.RejectedCreateSkipsClient | server/routes/storyRoutes.ts:48-53 | a rejected request never reaches the client |
| StoryRoutes.EmptyCriteriaReachClient | server/routes/storyRoutes.ts:48-64 | an empty criteria array passes the route and gets a 500 with "Missing story content" |
| StoryRoutes.FormParentKeyMakesSubtask | server/routes/storyRoutes.ts:54-59 | a non-blank parent key typed in the form makes the client request a subtask of the trimmed key |
| StoryRoutes.FormParentKeyInResponse | server/routes/storyRoutes.ts:60-61 | a successful response to such a request names the trimmed parent |

## Left out

- The language model, `JSON.parse`, `fetch` to Jira, Basic-auth headers and `dotenv`: they are foreign calls. They are parameters whose results the model takes as given.
- `fetchIssueTypes`' module-level cache and its network request (langgraph/services/jira-client.ts:26-52): the project's issue types are a list parameter, and a failed fetch is the empty list.
- `readline` prompting in `humanApprovalNode` and in the CLI: the typed line is a string parameter.
- The preview banner (`formattedPreview`, `padEnd` layout) and every `console` line: cosmetic output.
- `MemorySaver` checkpointing, thread ids and the LangGraph runtime: a run is the pure state machine `Graph.Run`.
- The subtask fan-out: no such node exists in the workflow. Only its reducer is modelled (`State.FoldIssuesAnyOrder`).
- Non-string JSON values for `title`, `description` or criteria items in a parsed reply or a request body: members are strings or absent.
- Text.ToLower: models `toLowerCase` only for `A`-`Z`, the Latin-1 capitals, the basic Cyrillic capitals and U+212A. Other capitals (Latin Extended, Greek with its final-sigma rule, and beyond) are kept unchanged. U+0130 lowercases to two characters in the code but stays one unchanged character in the model, so the model always keeps the length. Full Unicode case data is out of scope.
- Nodes.HumanApprovalNode: for an answer with a capital outside those mappings, the stored "Unrecognized: …" note keeps that capital where the code lowercases it. The decision is still exact (`Text.LowerCharOntoAscii`).
- JiraService.GeneratorsDifferOnlyInDefaulting: relates the two generators only when both prompts get the same answer. A topic containing `$` gives the two generators different prompts, and a model may answer them differently.
- The text of LangGraph's recursion-limit error: `JiraAgent.RECURSION_LIMIT_MESSAGE` stands for it. A run never reaches the limit (`Graph.InvokePath`).
- Errors thrown inside `graph.invoke` other than the recursion limit, and the routes' `catch` blocks: the generator and client catch their own errors, so nothing else is thrown in the model.
- The startup checks of environment variables (jira-agent.ts:11-12, langgraph/services/jira-client.ts:15-18).
- The email agent, the voice agent, the audio and speech services, the React UI other than `handleApprove`, and the thin wrappers and re-exports: they are outside the workflow core.
- Graph.InvokeOutcome: states the final state for a failed generation, for a rejection, and for an approved story with non-empty title and description. An approved story with an empty title or description is covered only by `Nodes.PreviewAfterGeneration` and the node contracts.
- JiraAgent.MainOutcome: states the exit for the same cases, with a topic given as an argument.

## Findings

| source | as written | input that shows it | evidently intended | confidence | as-written member | corrected member |
|---|---|---|---|---|---|---|
| jira-service.ts:176 | the checkbox before each criterion is U+201A U+00F2 U+00EA, the UTF-8 bytes of U+2610 read as Mac OS Roman | criteria ["done"]: the last paragraph is posted as "‚òê done" | "☐ done", the ballot box that langgraph/services/jira-client.ts:124 posts | high; not executed | JiraService.RequestFieldsAsWritten, JiraService.CreateJiraStory, JiraService.CheckboxAsWrittenIsGarbled, JiraService.GarbledExactlyWithCriteria | JiraService.RequestFields, JiraService.ServiceMatchesClient |
| langgraph/services/story-generation.ts:58 | the topic is the replacement string of `String.prototype.replace`, so `$$`, `$&`, `` $` `` and `$'` in it are expanded | topic "$$": the prompt carries "$" | the topic inserted verbatim, as the template literal at jira-service.ts:58 does | medium; not executed | StoryGeneration.PromptAsWritten, StoryGeneration.GenerateStory, StoryGeneration.PromptAsWrittenExpandsDollars | StoryGeneration.Prompt, JiraService.Prompt |
