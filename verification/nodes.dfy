/**
 * The workflow's nodes. Each node reads the whole state and returns a
 * partial update; the model generator, the issue client and the human's
 * typed answer are parameters.
 */
module Nodes {
  import opened Wrappers
  import opened Text
  import opened State
  import JiraClient
  import IssueTypes

  const FORMAT_MISSING := "Missing story content to format"
  const CREATE_MISSING := "Missing story content"
  const READY_FOR_APPROVAL := "Story formatted and ready for approval"

  /**
   * The content check of the preview and creation nodes: title and
   * description truthy and criteria present. An empty criteria list passes.
   */
  predicate HasStoryContent(s: AgentState) {
    Truthy(s.title) && Truthy(s.description) && s.acceptanceCriteria.Some?
  }

  // ---------------------------------------------------------------------------
  // generate_story
  // ---------------------------------------------------------------------------

  /**
   * `generateStoryNode`: on failure only `error` and one error message; on
   * success the three story channels together and one system message.
   */
  function GenerateStoryNode(s: AgentState, generate: string -> Result<Story>): (u: Update)
    ensures generate(s.topic).Err? ==>
              && u.error == Some(generate(s.topic).error)
              && u.messages == Some([Message("error", generate(s.topic).error)])
              && u.(error := None, messages := None) == NoChange
    ensures generate(s.topic).Ok? ==>
              && u.title == Some(generate(s.topic).value.title)
              && u.description == Some(generate(s.topic).value.description)
              && u.acceptanceCriteria == Some(generate(s.topic).value.acceptanceCriteria)
              && u.messages == Some([Message("system", "Generated story: " + generate(s.topic).value.title)])
              && u.(title := None, description := None, acceptanceCriteria := None, messages := None) == NoChange
  {
    match generate(s.topic)
    case Err(e) =>
      NoChange.(error := Some(e), messages := Some([Message("error", e)]))
    case Ok(story) =>
      NoChange.(title := Some(story.title), description := Some(story.description),
                acceptanceCriteria := Some(story.acceptanceCriteria),
                messages := Some([Message("system", "Generated story: " + story.title)]))
  }

  /**
   * After merging the generation step the log has grown by exactly one
   * entry, and the story channels are either all the generated story's or
   * all as they were.
   */
  lemma GenerationMergedAllOrNothing(s: AgentState, generate: string -> Result<Story>)
    ensures var s1 := Merge(s, GenerateStoryNode(s, generate));
      && |s1.messages| == |s.messages| + 1 && s.messages <= s1.messages
      && (generate(s.topic).Ok? ==>
            s1.title.Some? && s1.description.Some? && s1.acceptanceCriteria.Some? && s1.error == s.error)
      && (generate(s.topic).Err? ==>
            s1.title == s.title && s1.description == s.description
            && s1.acceptanceCriteria == s.acceptanceCriteria && s1.error.Some?)
  {
  }

  // ---------------------------------------------------------------------------
  // format_preview
  // ---------------------------------------------------------------------------

  /** `formatPreviewNode`, without the banner text: validation, then `pending`. */
  function FormatPreviewNode(s: AgentState): (u: Update)
    ensures !HasStoryContent(s) ==> u == NoChange.(error := Some(FORMAT_MISSING))
    ensures HasStoryContent(s) ==>
              && u.humanApproval == Some(Pending)
              && u.messages == Some([Message("system", READY_FOR_APPROVAL)])
              && u.(humanApproval := None, messages := None) == NoChange
  {
    if !HasStoryContent(s) then NoChange.(error := Some(FORMAT_MISSING))
    else NoChange.(humanApproval := Some(Pending), messages := Some([Message("system", READY_FOR_APPROVAL)]))
  }

  /**
   * What the preview makes of a generation step: a story with a non-empty
   * title and description reaches `pending`; a failed first generation, or
   * an empty title, is reported as missing content (and the generation
   * error is overwritten).
   */
  lemma PreviewAfterGeneration(s: AgentState, generate: string -> Result<Story>)
    requires s == InitialState(s.topic)
    ensures var s1 := Merge(s, GenerateStoryNode(s, generate));
      && (generate(s.topic).Ok? && generate(s.topic).value.title != "" && generate(s.topic).value.description != "" ==>
            FormatPreviewNode(s1).humanApproval == Some(Pending))
      && (generate(s.topic).Err? || generate(s.topic).value.title == "" ==>
            Merge(s1, FormatPreviewNode(s1)).error == Some(FORMAT_MISSING)
            && Merge(s1, FormatPreviewNode(s1)).humanApproval.None?)
  {
  }

  // ---------------------------------------------------------------------------
  // human_approval
  // ---------------------------------------------------------------------------

  /** The typed answer as compared: trimmed, then lowercased. */
  function Normalise(input: string): string {
    ToLower(Trim(input))
  }

  /** The decision for a normalised answer: fail-closed, never `pending`. */
  function Decide(answer: string): (d: Approval)
    ensures d == Approved <==> answer == "yes" || answer == "y"
    ensures d != Pending
  {
    if answer == "yes" || answer == "y" then Approved else Rejected
  }

  /** The log entry for a normalised answer. */
  function ApprovalNote(answer: string): (note: string)
    ensures Decide(answer) == Approved ==> note == "Approved"
    ensures answer == "no" || answer == "n" ==> note == "Rejected"
    ensures Decide(answer) == Rejected && answer != "no" && answer != "n" ==> note == "Unrecognized: " + answer
  {
    if answer == "yes" || answer == "y" then "Approved"
    else if answer == "no" || answer == "n" then "Rejected"
    else "Unrecognized: " + answer
  }

  /** `humanApprovalNode` given the line the human typed. */
  function HumanApprovalNode(s: AgentState, input: string): (u: Update)
    ensures u.humanApproval == Some(Decide(Normalise(input)))
    ensures u.messages == Some([Message("human", ApprovalNote(Normalise(input)))])
    ensures u.(humanApproval := None, messages := None) == NoChange
  {
    var answer := Normalise(input);
    NoChange.(humanApproval := Some(Decide(answer)), messages := Some([Message("human", ApprovalNote(answer))]))
  }

  /** The node approves exactly on "yes" or "y" after trimming and lowercasing, and never leaves the state pending. */
  lemma ApprovalIsFailClosed(s: AgentState, input: string)
    ensures var d := Merge(s, HumanApprovalNode(s, input)).humanApproval;
      && (d == Some(Approved) <==> Normalise(input) == "yes" || Normalise(input) == "y")
      && (d == Some(Rejected) <==> !(Normalise(input) == "yes" || Normalise(input) == "y"))
  {
  }

  /** Surrounding whitespace and capitals do not matter: " Yes\n" reads as "yes". */
  lemma NormaliseExample()
    ensures Normalise(" Yes\n") == "yes"
  {
    TrimExample();
    LowerExample();
  }

  lemma TrimExample()
    ensures Trim(" Yes\n") == "Yes"
  {
    var s := " Yes\n";
    assert SkipLeading(s, 1) == 1 by { assert !IsWhitespace(s[1]); }
    assert SkipLeading(s, 0) == 1;
    assert SkipTrailing(s, 1, 4) == 4 by { assert !IsWhitespace(s[3]); }
    assert SkipTrailing(s, 1, 5) == 4;
    assert s[1..4] == "Yes";
  }

  lemma LowerExample()
    ensures ToLower("Yes") == "yes"
  {
    var r := ToLower("Yes");
    assert |r| == 3 && r[0] == 'y' && r[1] == 'e' && r[2] == 's';
  }

  /** " Yes\n" approves; an empty line rejects and is logged as unrecognised. */
  lemma ApprovalExamples(s: AgentState)
    ensures HumanApprovalNode(s, " Yes\n").humanApproval == Some(Approved)
    ensures HumanApprovalNode(s, "").humanApproval == Some(Rejected)
    ensures HumanApprovalNode(s, "").messages == Some([Message("human", "Unrecognized: ")])
  {
    NormaliseExample();
    assert Normalise("") == "";
    assert "Unrecognized: " + "" == "Unrecognized: ";
  }

  // ---------------------------------------------------------------------------
  // create_jira
  // ---------------------------------------------------------------------------

  /** The payload the node builds: the story content and no optional fields. */
  function CreateRequest(s: AgentState): (p: CreatePayload)
    requires HasStoryContent(s)
    ensures p.optionalFields.None? && !JiraClient.IsSubtaskRequest(p)
    ensures Some(p.title) == s.title && Some(p.description) == s.description
    ensures Some(p.acceptanceCriteria) == s.acceptanceCriteria
  {
    CreatePayload(s.title.value, s.description.value, s.acceptanceCriteria.value, None)
  }

  /** `createJiraNode` with the issue client as a parameter. */
  function CreateJiraNode(s: AgentState, client: CreatePayload -> Result<CreateResult>): (u: Update)
    ensures !HasStoryContent(s) ==> u == NoChange.(error := Some(CREATE_MISSING))
    ensures HasStoryContent(s) && client(CreateRequest(s)).Err? ==>
              && u.error == Some(client(CreateRequest(s)).error)
              && u.messages == Some([Message("error", client(CreateRequest(s)).error)])
              && u.(error := None, messages := None) == NoChange
    ensures HasStoryContent(s) && client(CreateRequest(s)).Ok? ==>
              && u.jiraKey == Some(client(CreateRequest(s)).value.jiraKey)
              && u.jiraUrl == Some(client(CreateRequest(s)).value.jiraUrl)
              && u.messages == Some([Message("system", "Jira story created: " + client(CreateRequest(s)).value.jiraKey)])
              && u.(jiraKey := None, jiraUrl := None, messages := None) == NoChange
  {
    if !HasStoryContent(s) then NoChange.(error := Some(CREATE_MISSING))
    else
      match client(CreateRequest(s))
      case Err(e) => NoChange.(error := Some(e), messages := Some([Message("error", e)]))
      case Ok(r) =>
        NoChange.(jiraKey := Some(r.jiraKey), jiraUrl := Some(r.jiraUrl),
                  messages := Some([Message("system", "Jira story created: " + r.jiraKey)]))
  }

  /** Without story content the client is not consulted. */
  lemma MissingContentSkipsClient(s: AgentState, c1: CreatePayload -> Result<CreateResult>, c2: CreatePayload -> Result<CreateResult>)
    requires !HasStoryContent(s)
    ensures CreateJiraNode(s, c1) == CreateJiraNode(s, c2)
    ensures Merge(s, CreateJiraNode(s, c1)).error == Some(CREATE_MISSING)
    ensures Merge(s, CreateJiraNode(s, c1)).messages == s.messages
  {
  }

  /**
   * A key is recorded only from a successful creation, an error never sets
   * a key, and the node never touches the subtask-issue channel.
   */
  lemma CreateOutcomeExclusive(s: AgentState, client: CreatePayload -> Result<CreateResult>)
    ensures var u := CreateJiraNode(s, client);
      && u.createdSubtaskIssues.NoIssues?
      && (u.jiraKey.Some? <==> HasStoryContent(s) && client(CreateRequest(s)).Ok?)
      && (u.jiraKey.Some? ==> u.error.None?)
      && (u.error.Some? ==> u.jiraKey.None? && u.jiraUrl.None?)
  {
  }

  /**
   * With the LangGraph issue client, the node always creates a top-level
   * issue of the story-side type; an empty criteria list passes the node's
   * check and is refused by the client.
   */
  lemma NodeWithClient(s: AgentState, env: JiraClient.JiraEnv)
    requires HasStoryContent(s)
    ensures JiraClient.RequestFields(CreateRequest(s), env).parent.None?
    ensures JiraClient.RequestFields(CreateRequest(s), env).issueTypeId == IssueTypes.StoryTypeId(env.issueTypes)
    ensures s.acceptanceCriteria == Some([]) ==>
              CreateJiraNode(s, p => JiraClient.CreateJiraStory(p, env)).error == Some(CREATE_MISSING)
  {
  }
}
