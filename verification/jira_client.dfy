/**
 * The LangGraph issue client's `createJiraStory`: validate the content,
 * resolve the issue type (a subtask type exactly when a parent key is given),
 * post the fields, and report the key and links.
 */
module JiraClient {
  import opened Wrappers
  import opened State
  import opened IssueTypes
  import opened IssuePayload

  /** What posting the fields yields: the new key, a non-2xx body, or the message of what was thrown. */
  datatype PostReply = Created(key: string) | HttpError(body: string) | PostThrew(message: string)

  /**
   * The client's configuration and collaborators: the Jira domain and
   * project, the project's issue types as fetched, and the POST request.
   */
  datatype JiraEnv = JiraEnv(
    domain: string,
    projectKey: string,
    issueTypes: seq<IssueType>,
    post: IssueFields -> PostReply)

  const API_ERROR_PREFIX := "Jira API error: "

  /** A truthy parent key makes the new issue a subtask of that parent. */
  predicate IsSubtaskRequest(payload: CreatePayload) {
    payload.optionalFields.Some? && Truthy(payload.optionalFields.value.parentKey)
  }

  /** The fields posted for a payload with content. */
  function RequestFields(payload: CreatePayload, env: JiraEnv): (f: IssueFields)
    ensures f.issueTypeId == if IsSubtaskRequest(payload) then SubtaskTypeId(env.issueTypes)
                             else StoryTypeId(env.issueTypes)
    ensures f.parent.Some? <==> IsSubtaskRequest(payload)
    ensures f.summary == payload.title && f.projectKey == env.projectKey
    ensures f.description == DescriptionDoc(payload.description, payload.acceptanceCriteria)
  {
    var typeId := if IsSubtaskRequest(payload) then SubtaskTypeId(env.issueTypes) else StoryTypeId(env.issueTypes);
    FieldsWith(CHECKBOX, env.projectKey, payload, typeId)
  }

  /** How a POST reply becomes the client's result. */
  function FromReply(reply: PostReply, base: string, opt: Option<OptionalFields>): (r: Result<CreateResult>)
    ensures reply.Created? <==> r.Ok?
    ensures reply.Created? ==> r.value == ResultFor(base, reply.key, opt)
    ensures reply.HttpError? ==> r == Err(API_ERROR_PREFIX + reply.body)
    ensures reply.PostThrew? ==> r == Err(reply.message)
  {
    match reply
    case Created(key) => Ok(ResultFor(base, key, opt))
    case HttpError(body) => Err(API_ERROR_PREFIX + body)
    case PostThrew(m) => Err(m)
  }

  /** `createJiraStory(payload)`. */
  function CreateJiraStory(payload: CreatePayload, env: JiraEnv): (r: Result<CreateResult>)
    ensures MissingContent(payload) ==> r == Err(MISSING_CONTENT)
    ensures !MissingContent(payload) ==>
              r == FromReply(env.post(RequestFields(payload, env)), BaseUrl(env.domain), payload.optionalFields)
  {
    if MissingContent(payload) then Err(MISSING_CONTENT)
    else FromReply(env.post(RequestFields(payload, env)), BaseUrl(env.domain), payload.optionalFields)
  }

  /** Without content no request is made: the result does not depend on the issue types or the POST. */
  lemma MissingContentMakesNoRequest(payload: CreatePayload, env1: JiraEnv, env2: JiraEnv)
    requires MissingContent(payload)
    ensures CreateJiraStory(payload, env1) == CreateJiraStory(payload, env2) == Err(MISSING_CONTENT)
  {
  }

  /**
   * A created issue is reported with its browse link, and with its parent's
   * key and link exactly when a truthy parent key was supplied.
   */
  lemma CreatedResultShape(payload: CreatePayload, env: JiraEnv)
    requires CreateJiraStory(payload, env).Ok?
    ensures var r := CreateJiraStory(payload, env).value;
      && r.jiraUrl == BaseUrl(env.domain) + "/browse/" + r.jiraKey
      && (r.parentKey.Some? <==> IsSubtaskRequest(payload))
      && (r.parentKey.Some? ==> r.parentUrl == Some(BaseUrl(env.domain) + "/browse/" + r.parentKey.value))
  {
  }

  /** A subtask request is typed with a subtask-like type or the subtask fallback, never a story-side type. */
  lemma IssueTypeMatchesRequest(payload: CreatePayload, env: JiraEnv)
    ensures var id := RequestFields(payload, env).issueTypeId;
      IsSubtaskRequest(payload) ==>
        id == DEFAULT_SUBTASK_TYPE_ID || exists k | 0 <= k < |env.issueTypes| ::
          env.issueTypes[k].id == id && !IsStorySide(env.issueTypes[k])
  {
    var id := RequestFields(payload, env).issueTypeId;
    if IsSubtaskRequest(payload) && id != DEFAULT_SUBTASK_TYPE_ID {
      var k :| 0 <= k < |env.issueTypes| && env.issueTypes[k].id == id
               && (Passes(env.issueTypes[k], SubtaskLike) || Passes(env.issueTypes[k], MentionsSub));
      SubtaskChoiceIsNotStorySide(env.issueTypes[k]);
    }
  }
}
