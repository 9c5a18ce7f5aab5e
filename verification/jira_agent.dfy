/**
 * The command-line entry: choosing the topic, running the workflow once,
 * and turning the final state into an exit code and output.
 */
module JiraAgent {
  import opened Wrappers
  import opened Text
  import opened State
  import Nodes
  import Graph

  /** How the process ends. */
  datatype Exit = Exit(code: int, stdout: string, stderr: string)

  /**
   * Text standing for the message of the error the graph runtime throws
   * when a run exceeds its recursion limit; the runtime's own wording is
   * not part of this model.
   */
  const RECURSION_LIMIT_MESSAGE := "Recursion limit reached"

  /** The topic: the first argument when it is truthy, otherwise the typed line, trimmed. */
  function TopicOf(arg: Option<string>, typed: string): (t: string)
    ensures Truthy(arg) ==> t == arg.value && t != ""
    ensures !Truthy(arg) ==> t == Trim(typed)
  {
    if Truthy(arg) then arg.value else Trim(typed)
  }

  /**
   * Reading the final state: a truthy `error` wins and exits 1; then a
   * rejection exits 0 silently; then "key url" is printed when both are
   * truthy.
   */
  function Interpret(outcome: Graph.RunOutcome): (e: Exit)
    ensures outcome.OutOfSteps? ==> e == Exit(1, "", "Fatal: " + RECURSION_LIMIT_MESSAGE + "\n")
    ensures outcome.Finished? && Truthy(outcome.final.error) ==>
              e == Exit(1, "", "Error: " + outcome.final.error.value + "\n")
    ensures e.code == 0 <==> outcome.Finished? && !Truthy(outcome.final.error)
    ensures e.stdout != "" <==>
              && outcome.Finished? && !Truthy(outcome.final.error)
              && outcome.final.humanApproval != Some(Rejected)
              && Truthy(outcome.final.jiraKey) && Truthy(outcome.final.jiraUrl)
    ensures e.stdout != "" ==> e.stdout == outcome.final.jiraKey.value + " " + outcome.final.jiraUrl.value + "\n"
    ensures e.code == 0 ==> e.stderr == ""
  {
    match outcome
    case OutOfSteps => Exit(1, "", "Fatal: " + RECURSION_LIMIT_MESSAGE + "\n")
    case Finished(_, f) =>
      if Truthy(f.error) then Exit(1, "", "Error: " + f.error.value + "\n")
      else if f.humanApproval == Some(Rejected) then Exit(0, "", "")
      else if Truthy(f.jiraKey) && Truthy(f.jiraUrl) then Exit(0, f.jiraKey.value + " " + f.jiraUrl.value + "\n", "")
      else Exit(0, "", "")
  }

  /** `main()`: an empty typed topic exits 1 before the workflow starts. */
  function Main(arg: Option<string>, typed: string, c: Graph.Collaborators): (e: Exit)
    ensures TopicOf(arg, typed) == "" ==> e == Exit(1, "", "")
    ensures TopicOf(arg, typed) != "" ==> e == Interpret(Graph.Invoke(TopicOf(arg, typed), c))
  {
    var topic := TopicOf(arg, typed);
    if topic == "" then Exit(1, "", "") else Interpret(Graph.Invoke(topic, c))
  }

  /** Without a topic the collaborators are never consulted. */
  lemma EmptyTopicSkipsWorkflow(arg: Option<string>, typed: string, c1: Graph.Collaborators, c2: Graph.Collaborators)
    requires !Truthy(arg) && AllWhitespace(typed)
    ensures Main(arg, typed, c1) == Main(arg, typed, c2) == Exit(1, "", "")
  {
    TrimEmptyIff(typed);
  }

  /** The run starts from the topic and an empty log. */
  lemma RunStartsFromTopic(arg: Option<string>, typed: string, c: Graph.Collaborators)
    requires TopicOf(arg, typed) != ""
    ensures Graph.Invoke(TopicOf(arg, typed), c).Finished?
    ensures var t := Graph.Invoke(TopicOf(arg, typed), c).trace;
      t[0].state.topic == TopicOf(arg, typed) && t[0].state.messages == []
  {
    Graph.InvokePath(TopicOf(arg, typed), c);
  }

  /**
   * End to end: a failed generation exits 1 and reports the missing story
   * content (not the generation error); an approved story that the client
   * creates prints its key and link; a rejected story exits 0 silently.
   */
  lemma MainOutcome(topic: string, c: Graph.Collaborators)
    requires topic != ""
    ensures var e, g := Main(Some(topic), "", c), c.generate(topic);
      && (g.Err? ==> e == Exit(1, "", "Error: "
                                     + (if Graph.Decision(c) == Approved then Nodes.CREATE_MISSING else Nodes.FORMAT_MISSING)
                                     + "\n"))
      && (g.Ok? && g.value.title != "" && g.value.description != "" ==>
            var r := c.client(CreatePayload(g.value.title, g.value.description, g.value.acceptanceCriteria, None));
            && (Graph.Decision(c) == Rejected ==> e == Exit(0, "", ""))
            && (Graph.Decision(c) == Approved && r.Ok? && r.value.jiraKey != "" && r.value.jiraUrl != "" ==>
                  e == Exit(0, r.value.jiraKey + " " + r.value.jiraUrl + "\n", "")))
  {
    var o := Graph.Invoke(topic, c);
    Graph.InvokeOutcome(topic, c);
    assert Main(Some(topic), "", c) == Interpret(o);
    var g := c.generate(topic);
    if g.Err? {
      assert Truthy(o.final.error);
    } else if g.value.title != "" && g.value.description != "" {
      var r := c.client(CreatePayload(g.value.title, g.value.description, g.value.acceptanceCriteria, None));
      if Graph.Decision(c) == Rejected {
        assert o.final.error.None? && o.final.humanApproval == Some(Rejected);
      } else if Graph.Decision(c) == Approved && r.Ok? && r.value.jiraKey != "" && r.value.jiraUrl != "" {
        assert o.final.error.None? && o.final.humanApproval == Some(Approved);
        assert o.final.jiraKey == Some(r.value.jiraKey) && o.final.jiraUrl == Some(r.value.jiraUrl);
      }
    }
  }
}
