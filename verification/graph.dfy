/**
 * The compiled workflow as a state machine over node names: fixed edges
 * START -> generate_story -> format_preview -> human_approval, a router on
 * `humanApproval`, and create_jira -> END.
 */
module Graph {
  import opened Wrappers
  import opened State
  import opened Nodes

  datatype Node = Start | GenerateStory | FormatPreview | HumanApproval | CreateJira | End

  /** LangGraph's default `recursionLimit`: the number of node steps a run may take. */
  const RECURSION_LIMIT: nat := 25

  /** The conditional edge out of human_approval. */
  function Route(s: AgentState): (n: Node)
    ensures n == CreateJira <==> s.humanApproval == Some(Approved)
    ensures n == End <==> s.humanApproval == Some(Rejected)
    ensures n == HumanApproval <==> s.humanApproval.None? || s.humanApproval == Some(Pending)
  {
    match s.humanApproval
    case Some(Approved) => CreateJira
    case Some(Rejected) => End
    case _ => HumanApproval
  }

  /**
   * The node that follows `n`, given the state after `n`'s update was
   * merged. Only human_approval looks at the state; nothing leads back to
   * START and END has no successor.
   */
  function Successor(n: Node, s: AgentState): (m: Node)
    requires n != End
    ensures n == Start ==> m == GenerateStory
    ensures n == GenerateStory ==> m == FormatPreview
    ensures n == FormatPreview ==> m == HumanApproval
    ensures n == HumanApproval ==> m == Route(s)
    ensures n == CreateJira ==> m == End
  {
    match n
    case Start => GenerateStory
    case GenerateStory => FormatPreview
    case FormatPreview => HumanApproval
    case HumanApproval => Route(s)
    case CreateJira => End
  }

  /** create_jira is entered only from human_approval, and only with `approved` in the state. */
  lemma CreateJiraOnlyAfterApproval(n: Node, s: AgentState)
    requires n != End && Successor(n, s) == CreateJira
    ensures n == HumanApproval && s.humanApproval == Some(Approved)
  {
  }

  /** The unconditional edges ignore the state, `error` included. */
  lemma FixedEdgesIgnoreState(n: Node, s1: AgentState, s2: AgentState)
    requires n != End && n != HumanApproval
    ensures Successor(n, s1) == Successor(n, s2)
  {
  }

  /** The model generator, the human's typed answer and the issue client. */
  datatype Collaborators = Collaborators(
    generate: string -> Result<Story>,
    answer: string,
    client: CreatePayload -> Result<CreateResult>)

  /** The update a (non-terminal, non-start) node returns. */
  function Execute(n: Node, s: AgentState, c: Collaborators): Update
    requires n != Start && n != End
  {
    match n
    case GenerateStory => GenerateStoryNode(s, c.generate)
    case FormatPreview => FormatPreviewNode(s)
    case HumanApproval => HumanApprovalNode(s, c.answer)
    case CreateJira => CreateJiraNode(s, c.client)
  }

  /** A node entered with the state it saw. */
  datatype Step = Step(node: Node, state: AgentState)

  datatype RunOutcome = Finished(trace: seq<Step>, final: AgentState) | OutOfSteps

  /** The state after running node `n` on `s`. */
  function After(n: Node, s: AgentState, c: Collaborators): AgentState
    requires n != End
  {
    if n == Start then s else Merge(s, Execute(n, s, c))
  }

  /** Running from node `n` with at most `fuel` node steps. */
  function Run(n: Node, s: AgentState, c: Collaborators, fuel: nat): (r: RunOutcome)
    ensures r.Finished? ==> |r.trace| >= 1 && r.trace[0] == Step(n, s)
    ensures r.Finished? ==> r.trace[|r.trace| - 1] == Step(End, r.final)
    decreases fuel, if n == Start then 1 else 0
  {
    if n == End then Finished([Step(End, s)], s)
    else if n != Start && fuel == 0 then OutOfSteps
    else
      var s' := After(n, s, c);
      match Run(Successor(n, s'), s', c, if n == Start then fuel else fuel - 1)
      case OutOfSteps => OutOfSteps
      case Finished(t, f) => Finished([Step(n, s)] + t, f)
  }

  /** Step `b` may follow step `a`: `b`'s node is `a`'s successor, given the state `b` sees. */
  predicate Link(a: Step, b: Step)
  {
    a.node != End && b.node == Successor(a.node, b.state)
  }

  /** Consecutive steps of `t` are linked. */
  ghost predicate Chained(t: seq<Step>)
  {
    forall j, k | 0 <= j && k == j + 1 && k < |t| :: Link(t[j], t[k])
  }

  lemma ConsChained(first: Step, rest: seq<Step>)
    requires Chained(rest) && |rest| > 0 && Link(first, rest[0])
    ensures Chained([first] + rest)
  {
    var t := [first] + rest;
    forall j, k | 0 <= j && k == j + 1 && k < |t|
      ensures Link(t[j], t[k])
    {
      assert t[k] == rest[k - 1];
      if j > 0 {
        assert t[j] == rest[j - 1];
      }
    }
  }

  /** Every finished run follows the graph's edges. */
  lemma {:induction false} RunChained(n: Node, s: AgentState, c: Collaborators, fuel: nat)
    requires Run(n, s, c, fuel).Finished?
    ensures Chained(Run(n, s, c, fuel).trace)
    decreases fuel, if n == Start then 1 else 0
  {
    if n != End {
      var next, s', fuel' := RunUnfold(n, s, c, fuel);
      RunChained(next, s', c, fuel');
      ConsChained(Step(n, s), Run(next, s', c, fuel').trace);
    }
  }

  /**
   * Along any run, every later step into create_jira comes right after
   * human_approval, with `approved` in the state it sees.
   */
  lemma CreateJiraFollowsApproval(n: Node, s: AgentState, c: Collaborators, fuel: nat, i: nat)
    requires Run(n, s, c, fuel).Finished? && 0 < i < |Run(n, s, c, fuel).trace|
    requires Run(n, s, c, fuel).trace[i].node == CreateJira
    ensures Run(n, s, c, fuel).trace[i - 1].node == HumanApproval
    ensures Run(n, s, c, fuel).trace[i].state.humanApproval == Some(Approved)
  {
    var t := Run(n, s, c, fuel).trace;
    RunChained(n, s, c, fuel);
    assert Link(t[i - 1], t[i]);
    CreateJiraOnlyAfterApproval(t[i - 1].node, t[i].state);
  }

  /** A finished run from a non-final node is its first step followed by a finished run. */
  lemma RunUnfold(n: Node, s: AgentState, c: Collaborators, fuel: nat) returns (next: Node, s': AgentState, fuel': nat)
    requires n != End && Run(n, s, c, fuel).Finished?
    ensures next == Successor(n, s') && next != Start
    ensures fuel' == if n == Start then fuel else fuel - 1
    ensures Run(next, s', c, fuel').Finished?
    ensures Run(n, s, c, fuel).trace == [Step(n, s)] + Run(next, s', c, fuel').trace
    ensures Run(next, s', c, fuel').trace[0] == Step(next, s')
  {
    s' := After(n, s, c);
    next := Successor(n, s');
    fuel' := if n == Start then fuel else fuel - 1;
  }


  /** `graph.invoke(initialState)` for a topic. */
  function Invoke(topic: string, c: Collaborators): RunOutcome {
    Run(Start, InitialState(topic), c, RECURSION_LIMIT)
  }

  /** In a run from START, create_jira is entered only right after an approving human_approval. */
  lemma InvokeCreatesOnlyWhenApproved(topic: string, c: Collaborators, i: nat)
    requires Invoke(topic, c).Finished? && i < |Invoke(topic, c).trace|
    requires Invoke(topic, c).trace[i].node == CreateJira
    ensures 0 < i && Invoke(topic, c).trace[i - 1].node == HumanApproval
    ensures Invoke(topic, c).trace[i].state.humanApproval == Some(Approved)
  {
    assert Invoke(topic, c).trace[0].node == Start;
    CreateJiraFollowsApproval(Start, InitialState(topic), c, RECURSION_LIMIT, i);
  }

  /** The node names along a trace. */
  function NodesOf(t: seq<Step>): (ns: seq<Node>)
    ensures |ns| == |t| && forall i | 0 <= i < |t| :: ns[i] == t[i].node
  {
    if |t| == 0 then [] else [t[0].node] + NodesOf(t[1..])
  }

  /** The decision the human's answer leads to. */
  function Decision(c: Collaborators): Approval {
    Decide(Normalise(c.answer))
  }

  /** One step of a run: `n` followed by the run from its successor. */
  lemma RunStep(n: Node, s: AgentState, c: Collaborators, fuel: nat)
    requires n != End && (n != Start ==> fuel > 0)
    requires Run(Successor(n, After(n, s, c)), After(n, s, c), c, if n == Start then fuel else fuel - 1).Finished?
    ensures var rest := Run(Successor(n, After(n, s, c)), After(n, s, c), c, if n == Start then fuel else fuel - 1);
      Run(n, s, c, fuel) == Finished([Step(n, s)] + rest.trace, rest.final)
  {
  }

  /** After human_approval the state holds the decision. */
  lemma DecisionRecorded(s: AgentState, c: Collaborators)
    ensures After(HumanApproval, s, c).humanApproval == Some(Decision(c))
  {
  }

  /** The state at END of a run that enters human_approval with `s`. */
  function Finish(s: AgentState, c: Collaborators): AgentState {
    var s' := After(HumanApproval, s, c);
    if Decision(c) == Approved then After(CreateJira, s', c) else s'
  }

  /** From human_approval: create_jira and END when the answer approves, END otherwise. */
  lemma FromHumanApproval(s: AgentState, c: Collaborators, fuel: nat)
    requires fuel >= 2
    ensures Run(HumanApproval, s, c, fuel).Finished?
    ensures NodesOf(Run(HumanApproval, s, c, fuel).trace) ==
              [HumanApproval] + (if Decision(c) == Approved then [CreateJira, End] else [End])
    ensures Run(HumanApproval, s, c, fuel).final == Finish(s, c)
  {
    var s' := After(HumanApproval, s, c);
    DecisionRecorded(s, c);
    var next := Route(s');
    var tail := Run(next, s', c, fuel - 1);
    if Decision(c) == Approved {
      assert next == CreateJira;
      FromCreateJira(s', c, fuel - 1);
    } else {
      assert next == End;
      assert tail == Finished([Step(End, s')], s');
    }
    RunStep(HumanApproval, s, c, fuel);
    NodesOfCons(Step(HumanApproval, s), tail.trace);
  }

  /** From create_jira: straight to END. */
  lemma FromCreateJira(s: AgentState, c: Collaborators, fuel: nat)
    requires fuel >= 1
    ensures Run(CreateJira, s, c, fuel).Finished?
    ensures NodesOf(Run(CreateJira, s, c, fuel).trace) == [CreateJira, End]
    ensures Run(CreateJira, s, c, fuel).final == After(CreateJira, s, c)
  {
    var s' := After(CreateJira, s, c);
    assert Run(End, s', c, fuel - 1) == Finished([Step(End, s')], s');
    RunStep(CreateJira, s, c, fuel);
    NodesOfCons(Step(CreateJira, s), [Step(End, s')]);
  }


  lemma Cons2<T>(a: T, b: T, t: seq<T>)
    ensures [a] + ([b] + t) == [a, b] + t
  {
  }

  lemma Cons3<T>(a: T, b: T, c: T, t: seq<T>)
    ensures [a] + ([b, c] + t) == [a, b, c] + t
  {
  }

  lemma Cons4<T>(a: T, b: T, c: T, d: T, t: seq<T>)
    ensures [a] + ([b, c, d] + t) == [a, b, c, d] + t
  {
  }

  lemma NodesOfCons(x: Step, t: seq<Step>)
    ensures NodesOf([x] + t) == [x.node] + NodesOf(t)
  {
    assert ([x] + t)[1..] == t;
  }

  /** One fixed edge in front of a run that finishes. */
  lemma FixedStep(n: Node, s: AgentState, c: Collaborators, fuel: nat, next: Node, tail: seq<Node>)
    requires n != Start && n != End && n != HumanApproval && fuel > 0
    requires Successor(n, s) == next
    requires Run(next, After(n, s, c), c, fuel - 1).Finished?
    requires NodesOf(Run(next, After(n, s, c), c, fuel - 1).trace) == tail
    ensures Run(n, s, c, fuel).Finished? && NodesOf(Run(n, s, c, fuel).trace) == [n] + tail
  {
    FixedEdgesIgnoreState(n, s, After(n, s, c));
    RunStep(n, s, c, fuel);
    NodesOfCons(Step(n, s), Run(next, After(n, s, c), c, fuel - 1).trace);
  }

  /** From generate_story: the two fixed edges, whatever the state, then human_approval. */
  lemma FromGenerateStory(s: AgentState, c: Collaborators, fuel: nat)
    requires fuel >= 4
    ensures Run(GenerateStory, s, c, fuel).Finished?
    ensures NodesOf(Run(GenerateStory, s, c, fuel).trace) ==
              [GenerateStory, FormatPreview, HumanApproval] + (if Decision(c) == Approved then [CreateJira, End] else [End])
    ensures Run(GenerateStory, s, c, fuel).final == Finish(After(FormatPreview, After(GenerateStory, s, c), c), c)
  {
    var tail := if Decision(c) == Approved then [CreateJira, End] else [End];
    var s1 := After(GenerateStory, s, c);
    var s2 := After(FormatPreview, s1, c);
    FromHumanApproval(s2, c, fuel - 2);
    FixedStep(FormatPreview, s1, c, fuel - 1, HumanApproval, [HumanApproval] + tail);
    Cons2(FormatPreview, HumanApproval, tail);
    FixedStep(GenerateStory, s, c, fuel, FormatPreview, [FormatPreview, HumanApproval] + tail);
    Cons3(GenerateStory, FormatPreview, HumanApproval, tail);
  }

  /**
   * Every run from START finishes well within the recursion limit and
   * visits generate_story, format_preview and human_approval once each, in
   * that order whatever errors occur, then create_jira exactly when the
   * answer approves, then END.
   */
  lemma InvokePath(topic: string, c: Collaborators)
    ensures Invoke(topic, c).Finished?
    ensures NodesOf(Invoke(topic, c).trace) ==
              [Start, GenerateStory, FormatPreview, HumanApproval]
              + (if Decision(c) == Approved then [CreateJira, End] else [End])
    ensures var s0 := InitialState(topic);
      Invoke(topic, c).final == Finish(After(FormatPreview, After(GenerateStory, s0, c), c), c)
  {
    var s0 := InitialState(topic);
    FromGenerateStory(s0, c, RECURSION_LIMIT);
    RunStep(Start, s0, c, RECURSION_LIMIT);
    NodesOfCons(Step(Start, s0), Run(GenerateStory, s0, c, RECURSION_LIMIT).trace);
    var tail := if Decision(c) == Approved then [CreateJira, End] else [End];
    Cons4(Start, GenerateStory, FormatPreview, HumanApproval, tail);
  }

  /** format_preview writes only `error` (on missing content), `humanApproval` and the log. */
  lemma PreviewKeepsStoryAndIssue(s: AgentState, c: Collaborators)
    ensures var s' := After(FormatPreview, s, c);
      && s'.title == s.title && s'.description == s.description
      && s'.acceptanceCriteria == s.acceptanceCriteria
      && s'.jiraKey == s.jiraKey && s'.jiraUrl == s.jiraUrl
      && s'.error == (if HasStoryContent(s) then s.error else Some(FORMAT_MISSING))
  {
  }

  /** human_approval writes only `humanApproval` and the log. */
  lemma ApprovalKeepsOtherChannels(s: AgentState, c: Collaborators)
    ensures var s' := After(HumanApproval, s, c);
      && s'.title == s.title && s'.description == s.description
      && s'.acceptanceCriteria == s.acceptanceCriteria
      && s'.jiraKey == s.jiraKey && s'.jiraUrl == s.jiraUrl && s'.error == s.error
  {
  }

  /**
   * What a whole run leaves behind. The state records the human's decision;
   * a failed generation ends with no key and with the preview's or the
   * creation node's missing-content error in place of its own; a rejection
   * never creates an issue; an approved story with a non-empty title and
   * description is created with the story content and no optional fields,
   * and the key is recorded exactly when the client succeeds.
   */
  lemma InvokeOutcome(topic: string, c: Collaborators)
    ensures Invoke(topic, c).Finished?
    ensures var f, g := Invoke(topic, c).final, c.generate(topic);
      && f.humanApproval == Some(Decision(c))
      && (g.Err? ==> f.jiraKey.None? && f.error == Some(if Decision(c) == Approved then CREATE_MISSING else FORMAT_MISSING))
      && (Decision(c) == Rejected ==> f.jiraKey.None?)
      && (Decision(c) == Rejected && g.Ok? && g.value.title != "" && g.value.description != "" ==> f.error.None?)
      && (Decision(c) == Approved && g.Ok? && g.value.title != "" && g.value.description != "" ==>
            var r := c.client(CreatePayload(g.value.title, g.value.description, g.value.acceptanceCriteria, None));
            && (f.jiraKey.Some? <==> r.Ok?)
            && (r.Ok? ==> f.jiraKey == Some(r.value.jiraKey) && f.jiraUrl == Some(r.value.jiraUrl) && f.error.None?)
            && (r.Err? ==> f.error == Some(r.error)))
  {
    InvokePath(topic, c);
    var s0 := InitialState(topic);
    var s1 := After(GenerateStory, s0, c);
    var s2 := After(FormatPreview, s1, c);
    var s3 := After(HumanApproval, s2, c);
    GenerationMergedAllOrNothing(s0, c.generate);
    assert s1 == Merge(s0, GenerateStoryNode(s0, c.generate));
    PreviewKeepsStoryAndIssue(s1, c);
    ApprovalKeepsOtherChannels(s2, c);
    DecisionRecorded(s2, c);
    var g := c.generate(topic);
    if g.Err? {
      assert s1.title.None? && s1.error.Some?;
      assert !HasStoryContent(s1) && !HasStoryContent(s3);
    } else {
      assert s1.title == Some(g.value.title) && s1.description == Some(g.value.description);
      assert s1.acceptanceCriteria == Some(g.value.acceptanceCriteria) && s1.error.None? && s1.jiraKey.None?;
    }
    if Decision(c) == Approved && g.Ok? && g.value.title != "" && g.value.description != "" {
      assert HasStoryContent(s3) && CreateRequest(s3) == CreatePayload(g.value.title, g.value.description, g.value.acceptanceCriteria, None);
      assert s3.error.None?;
    }
  }
}
