/**
 * The standalone service module: story generation
 * with `||` defaulting (an empty member is replaced too), issue-type lookup
 * that always picks a story-side type, and issue creation.
 */
module JiraService {
  import opened Wrappers
  import opened State
  import opened StoryReply
  import opened IssueTypes
  import opened IssuePayload
  import StoryGeneration
  import JiraClient

  /** The prompt: the same template text, with the topic spliced in by a template literal. */
  function Prompt(topic: string): (p: string)
    ensures p == StoryGeneration.Prompt(topic)
  {
    StoryGeneration.PROMPT_HEAD + topic + StoryGeneration.PROMPT_TAIL
  }

  /**
   * Member defaulting with `||`: a missing or empty title or description
   * gets its topic-based default; an array of criteria is kept, a non-empty
   * string becomes a one-element list, anything else the default criterion.
   */
  function FalsyDefaults(p: ParsedStory, topic: string): (s: Story)
    ensures Truthy(p.title) ==> s.title == p.title.value
    ensures !Truthy(p.title) ==> s.title == "Story: " + topic
    ensures Truthy(p.description) ==> s.description == p.description.value
    ensures !Truthy(p.description) ==> s.description == "Story about " + topic
    ensures p.criteria.CriteriaList? ==> s.acceptanceCriteria == p.criteria.items
    ensures p.criteria.CriteriaText? && p.criteria.text != "" ==> s.acceptanceCriteria == [p.criteria.text]
    ensures !p.criteria.CriteriaList? && !(p.criteria.CriteriaText? && p.criteria.text != "") ==>
              s.acceptanceCriteria == [StoryGeneration.DEFAULT_CRITERION]
  {
    Story(
      title := if Truthy(p.title) then p.title.value else "Story: " + topic,
      description := if Truthy(p.description) then p.description.value else "Story about " + topic,
      acceptanceCriteria :=
        match p.criteria
        case CriteriaList(items) => items
        case CriteriaText(t) => if t != "" then [t] else [StoryGeneration.DEFAULT_CRITERION]
        case CriteriaMissing => [StoryGeneration.DEFAULT_CRITERION])
  }

  /** `||` always yields a non-empty title and description, and criteria unless given an empty array. */
  lemma FalsyDefaultsNonEmpty(p: ParsedStory, topic: string)
    ensures FalsyDefaults(p, topic).title != "" && FalsyDefaults(p, topic).description != ""
    ensures p.criteria != CriteriaList([]) ==> |FalsyDefaults(p, topic).acceptanceCriteria| > 0
  {
  }

  /** The two defaulting rules agree exactly when no member is an empty string. */
  lemma DefaultingRulesAgreeIff(p: ParsedStory, topic: string)
    ensures StoryGeneration.NullishDefaults(p, topic) == FalsyDefaults(p, topic) <==>
              p.title != Some("") && p.description != Some("") && p.criteria != CriteriaText("")
  {
    var n, f := StoryGeneration.NullishDefaults(p, topic), FalsyDefaults(p, topic);
    if p.title == Some("") { assert |n.title| < |f.title|; }
    if p.description == Some("") { assert |n.description| < |f.description|; }
    if p.criteria == CriteriaText("") { assert |n.acceptanceCriteria| < |f.acceptanceCriteria|; }
  }

  /** `generateStory(topic)` of the service. */
  function GenerateStory(topic: string, llm: string -> LlmReply, parse: string -> ParseOutcome): (r: Result<Story>)
    ensures var reply := llm(Prompt(topic));
      && (reply.LlmThrew? ==> r == Err(reply.message))
      && (reply.Replied? && JsonSpan(reply.content).None? ==> r == Err(PARSE_FAILURE))
      && (reply.Replied? && JsonSpan(reply.content).Some? && parse(JsonSpan(reply.content).value).ParseThrew? ==>
            r == Err(parse(JsonSpan(reply.content).value).message))
      && (r.Ok? <==> reply.Replied? && JsonSpan(reply.content).Some? && parse(JsonSpan(reply.content).value).Parsed?)
      && (r.Ok? ==> r.value == FalsyDefaults(parse(JsonSpan(reply.content).value).obj, topic))
  {
    match llm(Prompt(topic))
    case LlmThrew(m) => Err(m)
    case Replied(content) =>
      match JsonSpan(content)
      case None => Err(PARSE_FAILURE)
      case Some(span) =>
        match parse(span)
        case ParseThrew(m) => Err(m)
        case Parsed(obj) => Ok(FalsyDefaults(obj, topic))
  }

  /**
   * When the model answers both prompts alike (always, for a topic without
   * `$`, since the prompts are then equal), the two generators fail together
   * and differ only where `??` keeps an empty member that `||` replaces.
   */
  lemma GeneratorsDifferOnlyInDefaulting(topic: string, llm: string -> LlmReply, parse: string -> ParseOutcome)
    ensures '$' !in topic || llm(StoryGeneration.PromptAsWritten(topic)) == llm(Prompt(topic)) ==>
              && GenerateStory(topic, llm, parse).Ok? == StoryGeneration.GenerateStory(topic, llm, parse).Ok?
              && (GenerateStory(topic, llm, parse).Err? ==>
                    GenerateStory(topic, llm, parse) == StoryGeneration.GenerateStory(topic, llm, parse))
              && (GenerateStory(topic, llm, parse).Ok? ==>
                    var obj := parse(JsonSpan(llm(Prompt(topic)).content).value).obj;
                    && GenerateStory(topic, llm, parse).value == FalsyDefaults(obj, topic)
                    && StoryGeneration.GenerateStory(topic, llm, parse).value == StoryGeneration.NullishDefaults(obj, topic))
  {
    var written, literal := StoryGeneration.PromptAsWritten(topic), Prompt(topic);
    if '$' !in topic {
      assert written == literal;
    }
  }

  /** Fetching the project: a failed request or a thrown error, or the project's optional issue types. */
  datatype ProjectLookup = LookupFailed | ProjectFound(issueTypes: Option<seq<IssueType>>)

  /** `getIssueTypes()`: the story-side selection, with "10001" for any failure. */
  function IssueTypeId(lookup: ProjectLookup): (id: string)
    ensures lookup.LookupFailed? || lookup.issueTypes.None? ==> id == DEFAULT_STORY_TYPE_ID
    ensures lookup.ProjectFound? && lookup.issueTypes.Some? ==> id == StoryTypeId(lookup.issueTypes.value)
  {
    match lookup
    case LookupFailed => DEFAULT_STORY_TYPE_ID
    case ProjectFound(None) => DEFAULT_STORY_TYPE_ID
    case ProjectFound(Some(types)) => StoryTypeId(types)
  }

  /** The service's configuration and collaborators. */
  datatype ServiceEnv = ServiceEnv(
    domain: string,
    projectKey: string,
    project: ProjectLookup,
    post: IssueFields -> JiraClient.PostReply)

  /** The fields the service posts: always a story-side issue type, even with a parent key. */
  function RequestFields(payload: CreatePayload, env: ServiceEnv): (f: IssueFields)
    ensures f.issueTypeId == IssueTypeId(env.project)
    ensures f.parent.Some? <==> payload.optionalFields.Some? && Truthy(payload.optionalFields.value.parentKey)
    ensures f.description == DescriptionDoc(payload.description, payload.acceptanceCriteria)
  {
    FieldsWith(CHECKBOX, env.projectKey, payload, IssueTypeId(env.project))
  }

  /** `createJiraStory(payload)` of the service, posting the fields as its source builds them. */
  function CreateJiraStory(payload: CreatePayload, env: ServiceEnv): (r: Result<CreateResult>)
    ensures MissingContent(payload) ==> r == Err(MISSING_CONTENT)
    ensures !MissingContent(payload) ==>
              r == JiraClient.FromReply(env.post(RequestFieldsAsWritten(payload, env)), BaseUrl(env.domain), payload.optionalFields)
  {
    if MissingContent(payload) then Err(MISSING_CONTENT)
    else JiraClient.FromReply(env.post(RequestFieldsAsWritten(payload, env)), BaseUrl(env.domain), payload.optionalFields)
  }

  /** Without content no request is made: the result does not depend on the lookup or the POST. */
  lemma MissingContentMakesNoRequest(payload: CreatePayload, env1: ServiceEnv, env2: ServiceEnv)
    requires MissingContent(payload)
    ensures CreateJiraStory(payload, env1) == CreateJiraStory(payload, env2) == Err(MISSING_CONTENT)
  {
  }

  /**
   * A created issue is reported with its browse link, and with its parent's
   * key and link exactly when a truthy parent key was supplied.
   */
  lemma CreatedResultShape(payload: CreatePayload, env: ServiceEnv)
    requires CreateJiraStory(payload, env).Ok?
    ensures var r := CreateJiraStory(payload, env).value;
      && r.jiraUrl == BaseUrl(env.domain) + "/browse/" + r.jiraKey
      && (r.parentKey.Some? <==> payload.optionalFields.Some? && Truthy(payload.optionalFields.value.parentKey))
      && (r.parentKey.Some? ==> r.parentUrl == Some(BaseUrl(env.domain) + "/browse/" + r.parentKey.value))
  {
  }

  /**
   * With the same issue types, the service's corrected fields for a
   * top-level issue are the LangGraph client's; the fields as the source
   * builds them differ from the client's only in the checkbox of the
   * criteria lines; with a parent key, the service also keeps the
   * story-side type where the client takes a subtask type.
   */
  lemma ServiceMatchesClient(payload: CreatePayload, env: ServiceEnv, types: seq<IssueType>)
    requires env.project == ProjectFound(Some(types))
    ensures var client := JiraClient.RequestFields(payload, JiraClient.JiraEnv(env.domain, env.projectKey, types, env.post));
      var garbled := DescriptionDocWith(CHECKBOX_AS_WRITTEN, payload.description, payload.acceptanceCriteria);
      && (!JiraClient.IsSubtaskRequest(payload) ==>
            && RequestFields(payload, env) == client
            && RequestFieldsAsWritten(payload, env) == client.(description := garbled))
      && (JiraClient.IsSubtaskRequest(payload) ==>
            && RequestFields(payload, env) == client.(issueTypeId := StoryTypeId(types))
            && RequestFieldsAsWritten(payload, env) == client.(issueTypeId := StoryTypeId(types), description := garbled))
  {
  }

  // ---------------------------------------------------------------------------
  // The checkbox as the service's source writes it
  // ---------------------------------------------------------------------------

  /**
   * The checkbox the service's source actually contains: the UTF-8 bytes of
   * U+2610 read as Mac OS Roman, giving U+201A U+00F2 U+00EA, then a space.
   */
  const CHECKBOX_AS_WRITTEN := "\U{201A}\U{00F2}\U{00EA} "

  /** The fields as the service's source builds them, with its garbled checkbox. */
  function RequestFieldsAsWritten(payload: CreatePayload, env: ServiceEnv): (f: IssueFields)
    ensures f == RequestFields(payload, env).(description := DescriptionDocWith(CHECKBOX_AS_WRITTEN, payload.description, payload.acceptanceCriteria))
  {
    FieldsWith(CHECKBOX_AS_WRITTEN, env.projectKey, payload, IssueTypeId(env.project))
  }

  /**
   * With the garbled checkbox a criterion "done" is posted as "‚òê done"
   * where the LangGraph client posts "☐ done".
   */
  lemma CheckboxAsWrittenIsGarbled(payload: CreatePayload, env: ServiceEnv)
    requires payload.acceptanceCriteria == ["done"]
    ensures var asWritten, intended := RequestFieldsAsWritten(payload, env).description, RequestFields(payload, env).description;
      && asWritten[|asWritten| - 1] == Plain("\U{201A}\U{00F2}\U{00EA} done")
      && intended[|intended| - 1] == Plain("\U{2610} done")
      && asWritten != intended
  {
    var asWritten, intended := RequestFieldsAsWritten(payload, env).description, RequestFields(payload, env).description;
    DescriptionDocLayout(CHECKBOX_AS_WRITTEN, payload.description, ["done"]);
    DescriptionDocLayout(CHECKBOX, payload.description, ["done"]);
    assert asWritten[|asWritten| - 1] != intended[|intended| - 1];
  }

  /** The garbled checkbox changes the posted description exactly when there is a criterion. */
  lemma GarbledExactlyWithCriteria(description: string, criteria: seq<string>)
    ensures DescriptionDocWith(CHECKBOX_AS_WRITTEN, description, criteria) == DescriptionDoc(description, criteria)
            <==> criteria == []
  {
    var ps := DescriptionParagraphs(description);
    DescriptionDocLayout(CHECKBOX_AS_WRITTEN, description, criteria);
    DescriptionDocLayout(CHECKBOX, description, criteria);
    if criteria != [] {
      var garbled, intended := DescriptionDocWith(CHECKBOX_AS_WRITTEN, description, criteria), DescriptionDoc(description, criteria);
      assert garbled[|ps| + 1].text[0] != intended[|ps| + 1].text[0];
    }
  }
}
