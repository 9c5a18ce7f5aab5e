/**
 * The Jira agent's graph state, the partial updates nodes return, and the
 * per-channel reducers that merge an update into the state.
 */
module State {
  import opened Wrappers

  // ---------------------------------------------------------------------------
  // Shared domain records
  // ---------------------------------------------------------------------------

  /** A drafted story; a subtask item has the same shape. */
  datatype Story = Story(title: string, description: string, acceptanceCriteria: seq<string>)

  /**
   * Optional issue fields. `createSubtasks` exists only on the browser's copy
   * of this record; the server never reads it.
   */
  datatype OptionalFields = OptionalFields(
    parentKey: Option<string>,
    dueDate: Option<string>,
    startDate: Option<string>,
    labels: Option<seq<string>>,
    teamId: Option<string>,
    createSubtasks: Option<bool>)

  const NoOptionalFields := OptionalFields(None, None, None, None, None, None)

  /** What the issue clients are asked to create. */
  datatype CreatePayload = CreatePayload(
    title: string,
    description: string,
    acceptanceCriteria: seq<string>,
    optionalFields: Option<OptionalFields>)

  /** What the issue clients report for a created issue. */
  datatype CreateResult = CreateResult(
    jiraKey: string,
    jiraUrl: string,
    parentKey: Option<string>,
    parentUrl: Option<string>)

  datatype CreatedIssue = CreatedIssue(jiraKey: string, jiraUrl: string)

  datatype Message = Message(role: string, content: string)

  datatype Approval = Approved | Rejected | Pending

  // ---------------------------------------------------------------------------
  // Graph state and partial updates
  // ---------------------------------------------------------------------------

  datatype AgentState = AgentState(
    topic: string,
    title: Option<string>,
    description: Option<string>,
    acceptanceCriteria: Option<seq<string>>,
    parentKey: Option<string>,
    subtasks: Option<seq<Story>>,
    createdSubtaskIssues: Option<seq<CreatedIssue>>,
    humanApproval: Option<Approval>,
    jiraKey: Option<string>,
    jiraUrl: Option<string>,
    error: Option<string>,
    messages: seq<Message>)

  /** A `createdSubtaskIssues` update: nothing, one issue, or an array of them. */
  datatype IssuesUpdate = NoIssues | OneIssue(issue: CreatedIssue) | IssueList(issues: seq<CreatedIssue>)

  /** A node's partial state: an absent field is a channel the node does not write. */
  datatype Update = Update(
    topic: Option<string>,
    title: Option<string>,
    description: Option<string>,
    acceptanceCriteria: Option<seq<string>>,
    parentKey: Option<string>,
    subtasks: Option<seq<Story>>,
    createdSubtaskIssues: IssuesUpdate,
    humanApproval: Option<Approval>,
    jiraKey: Option<string>,
    jiraUrl: Option<string>,
    error: Option<string>,
    messages: Option<seq<Message>>)

  const NoChange := Update(None, None, None, None, None, None, NoIssues, None, None, None, None, None)

  /** The state a run starts from: the topic and an empty message log. */
  function InitialState(topic: string): (s: AgentState)
    ensures s.topic == topic && s.messages == []
    ensures s.title.None? && s.description.None? && s.acceptanceCriteria.None?
    ensures s.humanApproval.None? && s.jiraKey.None? && s.jiraUrl.None? && s.error.None?
    ensures s.createdSubtaskIssues.None? && s.parentKey.None? && s.subtasks.None?
  {
    AgentState(topic, None, None, None, None, None, None, None, None, None, None, [])
  }

  // ---------------------------------------------------------------------------
  // Reducers
  // ---------------------------------------------------------------------------

  /** `replaceReducer(d)(x, y)`, that is `y ?? x ?? d`. */
  function ReplaceReducer<T>(default: Option<T>, x: Option<T>, y: Option<T>): (r: Option<T>)
    ensures y.Some? ==> r == y
    ensures y.None? && x.Some? ==> r == x
    ensures y.None? && x.None? ==> r == default
  {
    y.OrElse(x).OrElse(default)
  }

  /** The `replace` reducer: no default. */
  function Replace<T>(x: Option<T>, y: Option<T>): Option<T> {
    ReplaceReducer(None, x, y)
  }

  /** The `topic` channel's reducer, `replaceWithDefault("")`. */
  function ReplaceTopic(x: Option<string>, y: Option<string>): (r: Option<string>)
    ensures r.Some?
  {
    ReplaceReducer(Some(""), x, y)
  }

  /** `appendMessages(x, y)`: the old log followed by the new entries. */
  function AppendMessages(x: Option<seq<Message>>, y: Option<seq<Message>>): (r: seq<Message>)
    ensures |r| == |x.GetOr([])| + |y.GetOr([])|
    ensures x.GetOr([]) <= r
    ensures r[|x.GetOr([])|..] == y.GetOr([])
  {
    x.GetOr([]) + y.GetOr([])
  }

  /** The entries an issues update contributes: the array, the single item wrapped, or none. */
  function IssuesOf(y: IssuesUpdate): seq<CreatedIssue> {
    match y
    case NoIssues => []
    case OneIssue(i) => [i]
    case IssueList(l) => l
  }

  /** `concatCreatedIssues(x, y)`: existing entries kept as a prefix, the update's appended. */
  function ConcatCreatedIssues(x: Option<seq<CreatedIssue>>, y: IssuesUpdate): (r: seq<CreatedIssue>)
    ensures x.GetOr([]) <= r
    ensures y.NoIssues? ==> r == x.GetOr([])
    ensures y.OneIssue? ==> r == x.GetOr([]) + [y.issue]
    ensures y.IssueList? ==> r == x.GetOr([]) + y.issues
  {
    x.GetOr([]) + (match y case IssueList(l) => l case OneIssue(i) => [i] case NoIssues => [])
  }

  /**
   * Merging a node's update into the state, channel by channel, with each
   * channel's reducer. A channel the update does not write keeps its value.
   */
  function Merge(s: AgentState, u: Update): (r: AgentState)
  {
    AgentState(
      topic := ReplaceTopic(Some(s.topic), u.topic).value,
      title := Replace(s.title, u.title),
      description := Replace(s.description, u.description),
      acceptanceCriteria := Replace(s.acceptanceCriteria, u.acceptanceCriteria),
      parentKey := Replace(s.parentKey, u.parentKey),
      subtasks := Replace(s.subtasks, u.subtasks),
      createdSubtaskIssues :=
        if u.createdSubtaskIssues.NoIssues? then s.createdSubtaskIssues
        else Some(ConcatCreatedIssues(s.createdSubtaskIssues, u.createdSubtaskIssues)),
      humanApproval := Replace(s.humanApproval, u.humanApproval),
      jiraKey := Replace(s.jiraKey, u.jiraKey),
      jiraUrl := Replace(s.jiraUrl, u.jiraUrl),
      error := Replace(s.error, u.error),
      messages := if u.messages.None? then s.messages else AppendMessages(Some(s.messages), u.messages))
  }

  // ---------------------------------------------------------------------------
  // Reducer algebra
  // ---------------------------------------------------------------------------

  /** Applying the same replace update twice is applying it once. */
  lemma ReplaceIdempotent<T>(d: Option<T>, x: Option<T>, y: Option<T>)
    ensures ReplaceReducer(d, ReplaceReducer(d, x, y), y) == ReplaceReducer(d, x, y)
  {
  }

  /** Two replace updates in a row act as one update in which the later value wins. */
  lemma ReplaceSequential<T>(x: Option<T>, y1: Option<T>, y2: Option<T>)
    ensures Replace(Replace(x, y1), y2) == Replace(x, y2.OrElse(y1))
  {
  }

  /** The `topic` channel defaults to "" while the plain replace channels stay absent. */
  lemma DefaultsWhenBothAbsent()
    ensures ReplaceTopic(None, None) == Some("")
    ensures Replace<string>(None, None) == None
  {
  }

  /** Message logs of sequential stages keep stage order: appending is associative. */
  lemma AppendMessagesAssociative(x: seq<Message>, y: seq<Message>, z: seq<Message>)
    ensures AppendMessages(Some(AppendMessages(Some(x), Some(y))), Some(z))
         == AppendMessages(Some(x), Some(AppendMessages(Some(y), Some(z))))
  {
  }

  /** Folding single-item updates into the channel, one after another. */
  function FoldIssues(x: Option<seq<CreatedIssue>>, items: seq<CreatedIssue>): seq<CreatedIssue>
    decreases |items|
  {
    if |items| == 0 then x.GetOr([])
    else ConcatCreatedIssues(Some(FoldIssues(x, items[..|items| - 1])), OneIssue(items[|items| - 1]))
  }

  /** Folding N single-item updates appends exactly those N entries, in fold order. */
  lemma {:induction false} FoldIssuesAppends(x: Option<seq<CreatedIssue>>, items: seq<CreatedIssue>)
    ensures FoldIssues(x, items) == x.GetOr([]) + items
    decreases |items|
  {
    if |items| > 0 {
      var init := items[..|items| - 1];
      FoldIssuesAppends(x, init);
      assert init + [items[|items| - 1]] == items;
    }
  }

  /**
   * Whatever order N single-item updates arrive in, the channel ends up with
   * exactly N more entries and the same multiset of issues: none is dropped.
   */
  lemma FoldIssuesAnyOrder(x: Option<seq<CreatedIssue>>, items: seq<CreatedIssue>, arrival: seq<CreatedIssue>)
    requires multiset(arrival) == multiset(items)
    ensures |FoldIssues(x, arrival)| == |x.GetOr([])| + |items|
    ensures multiset(FoldIssues(x, arrival)) == multiset(x.GetOr([])) + multiset(items)
    ensures FoldIssues(x, arrival)[..|x.GetOr([])|] == x.GetOr([])
  {
    FoldIssuesAppends(x, arrival);
    assert |arrival| == |multiset(arrival)| == |multiset(items)| == |items|;
  }

  // ---------------------------------------------------------------------------
  // Merge properties
  // ---------------------------------------------------------------------------

  /** No replace channel is written by both updates. */
  predicate ReplaceChannelsDisjoint(u1: Update, u2: Update) {
    && (u1.topic.None? || u2.topic.None?)
    && (u1.title.None? || u2.title.None?)
    && (u1.description.None? || u2.description.None?)
    && (u1.acceptanceCriteria.None? || u2.acceptanceCriteria.None?)
    && (u1.parentKey.None? || u2.parentKey.None?)
    && (u1.subtasks.None? || u2.subtasks.None?)
    && (u1.humanApproval.None? || u2.humanApproval.None?)
    && (u1.jiraKey.None? || u2.jiraKey.None?)
    && (u1.jiraUrl.None? || u2.jiraUrl.None?)
    && (u1.error.None? || u2.error.None?)
  }

  /**
   * A merge never loses history: the old message log is a prefix of the new
   * one, grown by exactly the update's entries, and the created issues only grow.
   */
  lemma MergeKeepsHistory(s: AgentState, u: Update)
    ensures s.messages <= Merge(s, u).messages
    ensures |Merge(s, u).messages| == |s.messages| + |u.messages.GetOr([])|
    ensures s.createdSubtaskIssues.GetOr([]) <= Merge(s, u).createdSubtaskIssues.GetOr([])
  {
  }

  /** A channel the update does not write keeps its value; one it writes takes the new value. */
  lemma MergeReplaceChannels(s: AgentState, u: Update)
    ensures u.title.Some? ==> Merge(s, u).title == u.title
    ensures u.title.None? ==> Merge(s, u).title == s.title
    ensures u.error.Some? ==> Merge(s, u).error == u.error
    ensures u.error.None? ==> Merge(s, u).error == s.error
    ensures Merge(s, u).description == (if u.description.Some? then u.description else s.description)
    ensures Merge(s, u).acceptanceCriteria == (if u.acceptanceCriteria.Some? then u.acceptanceCriteria else s.acceptanceCriteria)
    ensures Merge(s, u).parentKey == (if u.parentKey.Some? then u.parentKey else s.parentKey)
    ensures Merge(s, u).subtasks == (if u.subtasks.Some? then u.subtasks else s.subtasks)
    ensures Merge(s, u).humanApproval == (if u.humanApproval.Some? then u.humanApproval else s.humanApproval)
    ensures Merge(s, u).jiraKey == (if u.jiraKey.Some? then u.jiraKey else s.jiraKey)
    ensures Merge(s, u).jiraUrl == (if u.jiraUrl.Some? then u.jiraUrl else s.jiraUrl)
    ensures Merge(s, u).topic == u.topic.GetOr(s.topic)
  {
  }

  /** Merging an update that writes no log channel twice is merging it once. */
  lemma MergeIdempotent(s: AgentState, u: Update)
    requires u.messages.None? && u.createdSubtaskIssues.NoIssues?
    ensures Merge(Merge(s, u), u) == Merge(s, u)
  {
  }

  /** Two states equal up to the order of their log entries. */
  predicate SameUpToLogOrder(a: AgentState, b: AgentState) {
    && a.(messages := [], createdSubtaskIssues := None) == b.(messages := [], createdSubtaskIssues := None)
    && multiset(a.messages) == multiset(b.messages)
    && a.createdSubtaskIssues.Some? == b.createdSubtaskIssues.Some?
    && multiset(a.createdSubtaskIssues.GetOr([])) == multiset(b.createdSubtaskIssues.GetOr([]))
  }

  /** Merging adds exactly the update's log entries to each log's multiset. */
  lemma MergeLogMultisets(s: AgentState, u: Update)
    ensures multiset(Merge(s, u).messages) == multiset(s.messages) + multiset(u.messages.GetOr([]))
    ensures multiset(Merge(s, u).createdSubtaskIssues.GetOr([]))
         == multiset(s.createdSubtaskIssues.GetOr([])) + multiset(IssuesOf(u.createdSubtaskIssues))
    ensures Merge(s, u).createdSubtaskIssues.Some?
        <==> s.createdSubtaskIssues.Some? || !u.createdSubtaskIssues.NoIssues?
  {
  }

  /**
   * Updates that write disjoint replace channels can be merged in either
   * order: the results differ at most in the order of log entries.
   */
  lemma MergeDisjointCommutes(s: AgentState, u1: Update, u2: Update)
    requires ReplaceChannelsDisjoint(u1, u2)
    ensures SameUpToLogOrder(Merge(Merge(s, u1), u2), Merge(Merge(s, u2), u1))
  {
    var a, b := Merge(Merge(s, u1), u2), Merge(Merge(s, u2), u1);
    assert a.topic == b.topic && a.title == b.title && a.description == b.description;
    assert a.acceptanceCriteria == b.acceptanceCriteria && a.parentKey == b.parentKey && a.subtasks == b.subtasks;
    assert a.humanApproval == b.humanApproval && a.jiraKey == b.jiraKey && a.jiraUrl == b.jiraUrl && a.error == b.error;
    MergeLogMultisets(s, u1);
    MergeLogMultisets(Merge(s, u1), u2);
    MergeLogMultisets(s, u2);
    MergeLogMultisets(Merge(s, u2), u1);
  }
}
