/**
 * The HTTP API's story routes: request validation and the mapping from a
 * service result to a status code and JSON body.
 */
module StoryRoutes {
  import opened Wrappers
  import opened Text
  import opened State
  import IssuePayload
  import JiraClient
  import StoryPreview

  /** A JSON body member that must be a string: absent, a string, or a value of another JSON type. */
  datatype TopicMember = TopicAbsent | TopicString(s: string) | TopicOther

  /** The `acceptanceCriteria` member: absent, an array of strings, or any other value. */
  datatype CriteriaMember = CriteriaAbsent | CriteriaArray(items: seq<string>) | CriteriaOther

  datatype Body = StoryBody(story: Story) | ResultBody(result: CreateResult) | ErrorBody(error: string)

  datatype Response = Response(status: int, body: Body)

  const INVALID_TOPIC := "Missing or invalid topic"
  const MISSING_FIELDS := "Missing title, description, or acceptanceCriteria"

  /** `!topic || typeof topic !== "string"`. */
  predicate TopicRejected(topic: TopicMember) {
    !topic.TopicString? || topic.s == ""
  }

  /** POST /generate-story with the story generator as a parameter. */
  function GenerateStoryRoute(topic: TopicMember, generate: string -> Result<Story>): (r: Response)
    ensures r.status == 400 <==> TopicRejected(topic)
    ensures TopicRejected(topic) ==> r.body == ErrorBody(INVALID_TOPIC)
    ensures !TopicRejected(topic) && generate(Trim(topic.s)).Ok? ==>
              r == Response(200, StoryBody(generate(Trim(topic.s)).value))
    ensures !TopicRejected(topic) && generate(Trim(topic.s)).Err? ==>
              r == Response(500, ErrorBody(generate(Trim(topic.s)).error))
  {
    if TopicRejected(topic) then Response(400, ErrorBody(INVALID_TOPIC))
    else
      match generate(Trim(topic.s))
      case Ok(story) => Response(200, StoryBody(story))
      case Err(e) => Response(500, ErrorBody(e))
  }

  /** A rejected topic never reaches the generator. */
  lemma RejectedTopicSkipsGenerator(topic: TopicMember, g1: string -> Result<Story>, g2: string -> Result<Story>)
    requires TopicRejected(topic)
    ensures GenerateStoryRoute(topic, g1) == GenerateStoryRoute(topic, g2)
  {
  }

  /**
   * Surrounding whitespace does not change the answer, since the generator
   * sees the trimmed topic; a topic of only whitespace passes validation
   * and reaches the generator as "".
   */
  lemma TopicIsTrimmed(s: string, generate: string -> Result<Story>)
    ensures Trim(s) != "" ==> GenerateStoryRoute(TopicString(s), generate) == GenerateStoryRoute(TopicString(Trim(s)), generate)
    ensures s != "" && AllWhitespace(s) ==>
              GenerateStoryRoute(TopicString(s), generate).status != 400
              && (generate("").Ok? ==> GenerateStoryRoute(TopicString(s), generate) == Response(200, StoryBody(generate("").value)))
  {
    TrimIdempotent(s);
    TrimEmptyIff(s);
  }

  /** `!title || !description || !Array.isArray(acceptanceCriteria)`. */
  predicate CreateRejected(title: Option<string>, description: Option<string>, criteria: CriteriaMember) {
    !Truthy(title) || !Truthy(description) || !criteria.CriteriaArray?
  }

  /** POST /create-jira with the issue client as a parameter. */
  function CreateJiraRoute(title: Option<string>, description: Option<string>, criteria: CriteriaMember,
                           optionalFields: Option<OptionalFields>,
                           create: CreatePayload -> Result<CreateResult>): (r: Response)
    ensures r.status == 400 <==> CreateRejected(title, description, criteria)
    ensures CreateRejected(title, description, criteria) ==> r.body == ErrorBody(MISSING_FIELDS)
    ensures !CreateRejected(title, description, criteria) ==>
              var p := CreatePayload(title.value, description.value, criteria.items, optionalFields);
              && (create(p).Ok? ==> r == Response(200, ResultBody(create(p).value)))
              && (create(p).Err? ==> r == Response(500, ErrorBody(create(p).error)))
  {
    if CreateRejected(title, description, criteria) then Response(400, ErrorBody(MISSING_FIELDS))
    else
      match create(CreatePayload(title.value, description.value, criteria.items, optionalFields))
      case Ok(result) => Response(200, ResultBody(result))
      case Err(e) => Response(500, ErrorBody(e))
  }

  /** A rejected request never reaches the client. */
  lemma RejectedCreateSkipsClient(title: Option<string>, description: Option<string>, criteria: CriteriaMember,
                                  opt: Option<OptionalFields>,
                                  c1: CreatePayload -> Result<CreateResult>, c2: CreatePayload -> Result<CreateResult>)
    requires CreateRejected(title, description, criteria)
    ensures CreateJiraRoute(title, description, criteria, opt, c1) == CreateJiraRoute(title, description, criteria, opt, c2)
  {
  }

  /**
   * An empty criteria array passes the route's check; the issue client then
   * refuses it, and the route answers 500 with "Missing story content".
   */
  lemma EmptyCriteriaReachClient(title: string, description: string, opt: Option<OptionalFields>, env: JiraClient.JiraEnv)
    requires title != "" && description != ""
    ensures CreateJiraRoute(Some(title), Some(description), CriteriaArray([]), opt, p => JiraClient.CreateJiraStory(p, env))
            == Response(500, ErrorBody(IssuePayload.MISSING_CONTENT))
  {
  }

  /**
   * From the approval form to the request: a non-blank parent key typed in
   * the form makes the client request a subtask of the trimmed key.
   */
  lemma FormParentKeyMakesSubtask(title: string, description: string, items: seq<string>,
                                  parentKey: string, dueDate: string, startDate: string, labelsInput: string,
                                  env: JiraClient.JiraEnv)
    requires Trim(parentKey) != ""
    ensures var p := CreatePayload(title, description, items, Some(StoryPreview.HandleApprove(parentKey, dueDate, startDate, labelsInput)));
      && JiraClient.IsSubtaskRequest(p)
      && JiraClient.RequestFields(p, env).parent == Some(Trim(parentKey))
  {
  }

  /** A successful response to an approval with a non-blank parent key names the trimmed parent. */
  lemma FormParentKeyInResponse(title: string, description: string, items: seq<string>,
                                parentKey: string, dueDate: string, startDate: string, labelsInput: string,
                                env: JiraClient.JiraEnv)
    requires Trim(parentKey) != ""
    ensures var opt := StoryPreview.HandleApprove(parentKey, dueDate, startDate, labelsInput);
      var r := CreateJiraRoute(Some(title), Some(description), CriteriaArray(items), Some(opt),
                               q => JiraClient.CreateJiraStory(q, env));
      r.status == 200 ==> r.body.ResultBody? && r.body.result.parentKey == Some(Trim(parentKey))
  {
    var opt := StoryPreview.HandleApprove(parentKey, dueDate, startDate, labelsInput);
    var p := CreatePayload(title, description, items, Some(opt));
    if CreateJiraRoute(Some(title), Some(description), CriteriaArray(items), Some(opt), q => JiraClient.CreateJiraStory(q, env)).status == 200 {
      assert JiraClient.CreateJiraStory(p, env).Ok?;
      JiraClient.CreatedResultShape(p, env);
    }
  }
}
