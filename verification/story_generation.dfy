/**
 * The LangGraph story generator: the prompt built from a template with a
 * `{{topic}}` placeholder, the JSON span of the reply, and member defaulting
 * with `??` (only an absent or `null` member is replaced).
 */
module StoryGeneration {
  import opened Wrappers
  import opened Text
  import opened State
  import opened StoryReply

  /** The prompt template up to its placeholder, written in pieces short enough to inspect. */
  const PROMPT_HEAD := "You are a professional " + "Product Manager creating " + "a Jira story.\n\nThe user " + "wants a story about: \""

  const TOPIC_PLACEHOLDER := "{{topic}}"

  /** The prompt template after its placeholder. */
  const PROMPT_TAIL :=
    "\"\n"
    + "\n"
    + "Create a well-structured Jira story with:\n"
    + "\n"
    + "1. **Title** (Summary): A clear, concise story title (max 100 characters)\n"
    + "   - Use action-oriented language\n"
    + "   - Focus on the user value or feature\n"
    + "   - Example: \"As a user, I want to filter search results by date\"\n"
    + "\n"
    + "2. **Description**: A detailed description (2-4 paragraphs) that includes:\n"
    + "   - User story format: \"As a [user type], I want [goal] so that [benefit]\"\n"
    + "   - Context and background\n"
    + "   - Technical considerations (if relevant)\n"
    + "   - Dependencies or related work\n"
    + "\n"
    + "3. **Acceptance Criteria**: A list of 3-6 specific, testable criteria\n"
    + "   - Each criterion should be clear and measurable\n"
    + "   - Format: \"Given [condition], when [action], then [result]\"\n"
    + "\n"
    + "Respond in this exact JSON format:\n"
    + "{\n"
    + "  \"title\": \"Story title here\",\n"
    + "  \"description\": \"Full description with user story format and details\",\n"
    + "  \"acceptanceCriteria\": [\n"
    + "    \"Criterion 1\",\n"
    + "    \"Criterion 2\",\n"
    + "    \"Criterion 3\"\n"
    + "  ]\n"
    + "}\n"
    + "\n"
    + "Make it professional, clear, and actionable."

  const STORY_PROMPT := PROMPT_HEAD + TOPIC_PLACEHOLDER + PROMPT_TAIL

  const DEFAULT_CRITERION := "Story is complete"

  lemma PromptHeadHasNoBrace()
    ensures '{' !in PROMPT_HEAD
  {
    assert '{' !in "You are a professional ";
    assert '{' !in "Product Manager creating ";
    assert '{' !in "a Jira story.\n\nThe user ";
    assert '{' !in "wants a story about: \"";
  }

  /** The template's first placeholder sits right after the head. */
  lemma PlaceholderAfterHead()
    ensures IndexOf(STORY_PROMPT, TOPIC_PLACEHOLDER) == Some(|PROMPT_HEAD|)
    ensures STORY_PROMPT[..|PROMPT_HEAD|] == PROMPT_HEAD
    ensures STORY_PROMPT[|PROMPT_HEAD| + |TOPIC_PLACEHOLDER|..] == PROMPT_TAIL
  {
    PromptHeadHasNoBrace();
    FirstOccurrenceAfter(PROMPT_HEAD, TOPIC_PLACEHOLDER, PROMPT_TAIL);
  }

  /**
   * The prompt sent to the model: the topic inserted verbatim in place of
   * the template's first placeholder.
   */
  function Prompt(topic: string): (p: string)
    ensures p == PROMPT_HEAD + topic + PROMPT_TAIL
  {
    PlaceholderAfterHead();
    ReplaceFirst(STORY_PROMPT, TOPIC_PLACEHOLDER, topic)
  }

  /**
   * The prompt as `STORY_PROMPT.replace("{{topic}}", topic)` builds it: the
   * topic is a replacement pattern, so `$$`, `$&`, `` $` `` and `$'` in it
   * are expanded rather than inserted.
   */
  function PromptAsWritten(topic: string): (p: string)
    ensures '$' !in topic ==> p == Prompt(topic)
  {
    assert '$' !in topic ==> JsReplaceFirst(STORY_PROMPT, TOPIC_PLACEHOLDER, topic) == Prompt(topic) by {
      if '$' !in topic { JsReplaceAgreesWithoutDollar(STORY_PROMPT, TOPIC_PLACEHOLDER, topic); }
    }
    JsReplaceFirst(STORY_PROMPT, TOPIC_PLACEHOLDER, topic)
  }

  /** A topic of `$$` reaches the model as a single `$`, so the prompt does not carry the topic verbatim. */
  lemma PromptAsWrittenExpandsDollars()
    ensures PromptAsWritten("$$") == PROMPT_HEAD + "$" + PROMPT_TAIL
    ensures PromptAsWritten("$$") != Prompt("$$")
  {
    PlaceholderAfterHead();
    assert Substitute("$$", TOPIC_PLACEHOLDER, PROMPT_HEAD, PROMPT_TAIL) == "$";
    assert |PromptAsWritten("$$")| != |Prompt("$$")|;
  }

  /**
   * Member defaulting with `??`: an absent title or description gets a
   * topic-based default, a present one (even "") is kept; an array of
   * criteria is kept, a string becomes a one-element list unless it is "",
   * and an absent member becomes the default criterion.
   */
  function NullishDefaults(p: ParsedStory, topic: string): (s: Story)
    ensures p.title.Some? ==> s.title == p.title.value
    ensures p.title.None? ==> s.title == "Story: " + topic
    ensures p.description.Some? ==> s.description == p.description.value
    ensures p.description.None? ==> s.description == "Story about " + topic
    ensures p.criteria.CriteriaList? ==> s.acceptanceCriteria == p.criteria.items
    ensures p.criteria.CriteriaText? && p.criteria.text != "" ==> s.acceptanceCriteria == [p.criteria.text]
    ensures p.criteria == CriteriaText("") ==> s.acceptanceCriteria == []
    ensures p.criteria.CriteriaMissing? ==> s.acceptanceCriteria == [DEFAULT_CRITERION]
  {
    Story(
      title := p.title.GetOr("Story: " + topic),
      description := p.description.GetOr("Story about " + topic),
      acceptanceCriteria :=
        match p.criteria
        case CriteriaList(items) => items
        case CriteriaText(t) => if t == "" then [] else [t]
        case CriteriaMissing => [DEFAULT_CRITERION])
  }

  /**
   * `generateStory(topic)`: ask the model with the prompt as the source
   * builds it, take the JSON span of its reply, parse it and default its
   * members. A thrown model call or parse and a reply without a span are
   * failures; there is no fallback story.
   */
  function GenerateStory(topic: string, llm: string -> LlmReply, parse: string -> ParseOutcome): (r: Result<Story>)
    ensures var reply := llm(PromptAsWritten(topic));
      && (reply.LlmThrew? ==> r == Err(reply.message))
      && (reply.Replied? && JsonSpan(reply.content).None? ==> r == Err(PARSE_FAILURE))
      && (reply.Replied? && JsonSpan(reply.content).Some? && parse(JsonSpan(reply.content).value).ParseThrew? ==>
            r == Err(parse(JsonSpan(reply.content).value).message))
      && (r.Ok? <==> reply.Replied? && JsonSpan(reply.content).Some? && parse(JsonSpan(reply.content).value).Parsed?)
      && (r.Ok? ==> r.value == NullishDefaults(parse(JsonSpan(reply.content).value).obj, topic))
  {
    match llm(PromptAsWritten(topic))
    case LlmThrew(m) => Err(m)
    case Replied(content) =>
      match JsonSpan(content)
      case None => Err(PARSE_FAILURE)
      case Some(span) =>
        match parse(span)
        case ParseThrew(m) => Err(m)
        case Parsed(obj) => Ok(NullishDefaults(obj, topic))
  }
}
