/**
 * The request body both issue clients post to create an issue: the
 * description document, the issue type, the optional fields, and the result
 * they report back.
 */
module IssuePayload {
  import opened Wrappers
  import opened Text
  import opened State

  /** One paragraph of the description document: plain text, or bold text. */
  datatype Paragraph = Plain(text: string) | Strong(text: string)

  const PARAGRAPH_SEPARATOR := "\n\n"
  const CRITERIA_HEADING := "Acceptance Criteria:"
  /** U+2610 BALLOT BOX and a space, in front of each criterion. */
  const CHECKBOX := "\U{2610} "
  const MISSING_CONTENT := "Missing story content"

  /** The issue fields of the create request; `teamId` has no field. */
  datatype IssueFields = IssueFields(
    projectKey: string,
    summary: string,
    description: seq<Paragraph>,
    issueTypeId: string,
    parent: Option<string>,
    dueDate: Option<string>,
    startDate: Option<string>,
    labels: Option<seq<string>>)

  /** The description's paragraphs: split on blank lines, trimmed, blank ones dropped. */
  function DescriptionParagraphs(description: string): (ps: seq<string>)
    ensures forall k | 0 <= k < |ps| :: ps[k] != "" && IsTrimmed(ps[k])
  {
    TrimmedNonBlank(Split(description, PARAGRAPH_SEPARATOR))
  }

  /** Plain paragraphs for the texts, in order. */
  function PlainAll(texts: seq<string>): (r: seq<Paragraph>)
    ensures |r| == |texts|
    ensures forall k | 0 <= k < |texts| :: r[k] == Plain(texts[k])
  {
    if |texts| == 0 then [] else [Plain(texts[0])] + PlainAll(texts[1..])
  }

  /** `box` in front of every criterion. */
  function Checkboxed(box: string, criteria: seq<string>): (r: seq<string>)
    ensures |r| == |criteria|
    ensures forall k | 0 <= k < |criteria| :: r[k] == box + criteria[k]
  {
    if |criteria| == 0 then [] else [box + criteria[0]] + Checkboxed(box, criteria[1..])
  }

  /**
   * The description document: one plain paragraph per non-blank description
   * paragraph, then the bold heading, then one checkbox line per criterion,
   * with `box` as the checkbox.
   */
  function DescriptionDocWith(box: string, description: string, criteria: seq<string>): (doc: seq<Paragraph>)
  {
    PlainAll(DescriptionParagraphs(description)) + [Strong(CRITERIA_HEADING)] + PlainAll(Checkboxed(box, criteria))
  }

  function DescriptionDoc(description: string, criteria: seq<string>): seq<Paragraph> {
    DescriptionDocWith(CHECKBOX, description, criteria)
  }

  /**
   * The document is the paragraphs, the heading exactly once, and the
   * criteria lines in order: the heading is its only bold paragraph, and it
   * separates what came from the description from what came from the criteria.
   */
  lemma DescriptionDocLayout(box: string, description: string, criteria: seq<string>)
    ensures var doc, ps := DescriptionDocWith(box, description, criteria), DescriptionParagraphs(description);
      && |doc| == |ps| + 1 + |criteria|
      && (forall k | 0 <= k < |ps| :: doc[k] == Plain(ps[k]))
      && doc[|ps|] == Strong(CRITERIA_HEADING)
      && (forall k | 0 <= k < |criteria| :: doc[|ps| + 1 + k] == Plain(box + criteria[k]))
      && (forall k | 0 <= k < |doc| && doc[k].Strong? :: k == |ps|)
  {
  }

  /** Every non-blank paragraph of the description appears in the document, trimmed, whatever the criteria. */
  lemma DescriptionKeepsParagraphs(description: string, criteria: seq<string>, p: string)
    requires p in Split(description, PARAGRAPH_SEPARATOR) && Trim(p) != ""
    ensures Plain(Trim(p)) in DescriptionDoc(description, criteria)
  {
    var pieces := Split(description, PARAGRAPH_SEPARATOR);
    KeptPiece(pieces, p);
    PlainIn(DescriptionParagraphs(description), Trim(p), [Strong(CRITERIA_HEADING)] + PlainAll(Checkboxed(CHECKBOX, criteria)));
  }

  lemma KeptPiece(pieces: seq<string>, p: string)
    requires p in pieces && Trim(p) != ""
    ensures Trim(p) in TrimmedNonBlank(pieces)
  {
    TrimmedNonBlankMembers(pieces, Trim(p));
  }

  lemma PlainIn(ps: seq<string>, t: string, rest: seq<Paragraph>)
    requires t in ps
    ensures Plain(t) in PlainAll(ps) + rest
  {
    var k :| 0 <= k < |ps| && ps[k] == t;
    assert (PlainAll(ps) + rest)[k] == Plain(t);
  }

  /** A description without blank-line breaks and without outer whitespace is one paragraph, as is. */
  lemma SingleParagraph(description: string)
    requires description != "" && IsTrimmed(description) && !Contains(description, PARAGRAPH_SEPARATOR)
    ensures DescriptionParagraphs(description) == [description]
  {
    assert IndexOf(description, PARAGRAPH_SEPARATOR).None?;
    assert Split(description, PARAGRAPH_SEPARATOR) == [description];
    TrimOfTrimmed(description);
  }

  /**
   * The optional part of the fields: `parent` for a truthy parent key,
   * `duedate` and `customfield_10015` for truthy dates, `labels` for a
   * non-empty list; nothing at all without optional fields.
   */
  function WithOptional(f: IssueFields, opt: Option<OptionalFields>): (r: IssueFields)
    ensures r.(parent := None, dueDate := None, startDate := None, labels := None)
         == f.(parent := None, dueDate := None, startDate := None, labels := None)
    ensures r.parent.Some? <==> opt.Some? && Truthy(opt.value.parentKey)
    ensures r.parent.Some? ==> r.parent == opt.value.parentKey
    ensures r.dueDate.Some? <==> opt.Some? && Truthy(opt.value.dueDate)
    ensures r.dueDate.Some? ==> r.dueDate == opt.value.dueDate
    ensures r.startDate.Some? <==> opt.Some? && Truthy(opt.value.startDate)
    ensures r.startDate.Some? ==> r.startDate == opt.value.startDate
    ensures r.labels.Some? <==> opt.Some? && opt.value.labels.Some? && |opt.value.labels.value| > 0
    ensures r.labels.Some? ==> r.labels == opt.value.labels
  {
    var bare := f.(parent := None, dueDate := None, startDate := None, labels := None);
    match opt
    case None => bare
    case Some(o) =>
      bare.(
        parent := if Truthy(o.parentKey) then o.parentKey else None,
        dueDate := if Truthy(o.dueDate) then o.dueDate else None,
        startDate := if Truthy(o.startDate) then o.startDate else None,
        labels := if o.labels.Some? && |o.labels.value| > 0 then o.labels else None)
  }

  /** The request fields for a payload whose issue type has been resolved. */
  function FieldsWith(box: string, projectKey: string, payload: CreatePayload, issueTypeId: string): (f: IssueFields)
    ensures f.projectKey == projectKey && f.summary == payload.title && f.issueTypeId == issueTypeId
    ensures f.description == DescriptionDocWith(box, payload.description, payload.acceptanceCriteria)
    ensures f.parent.Some? <==> payload.optionalFields.Some? && Truthy(payload.optionalFields.value.parentKey)
  {
    var base := IssueFields(projectKey, payload.title,
      DescriptionDocWith(box, payload.description, payload.acceptanceCriteria), issueTypeId,
      None, None, None, None);
    WithOptional(base, payload.optionalFields)
  }

  /** `https://<domain>.atlassian.net`. */
  function BaseUrl(domain: string): string {
    "https://" + domain + ".atlassian.net"
  }

  /** The browse link of an issue key. */
  function BrowseUrl(base: string, key: string): (url: string)
    ensures |url| == |base| + 8 + |key|
    ensures url[..|base|] == base && url[|base|..|base| + 8] == "/browse/" && url[|base| + 8..] == key
  {
    base + "/browse/" + key
  }

  /** The create result: the key and its link, plus the parent's when a truthy parent key was given. */
  function ResultFor(base: string, key: string, opt: Option<OptionalFields>): (r: CreateResult)
    ensures r.jiraKey == key && r.jiraUrl == BrowseUrl(base, key)
    ensures r.parentKey.Some? <==> opt.Some? && Truthy(opt.value.parentKey)
    ensures r.parentKey.Some? ==>
              r.parentKey == opt.value.parentKey && r.parentUrl == Some(BrowseUrl(base, opt.value.parentKey.value))
    ensures r.parentKey.None? ==> r.parentUrl.None?
  {
    if opt.Some? && Truthy(opt.value.parentKey) then
      CreateResult(key, BrowseUrl(base, key), opt.value.parentKey, Some(BrowseUrl(base, opt.value.parentKey.value)))
    else
      CreateResult(key, BrowseUrl(base, key), None, None)
  }

  /** `!title || !description || !acceptanceCriteria?.length`. */
  predicate MissingContent(payload: CreatePayload) {
    payload.title == "" || payload.description == "" || |payload.acceptanceCriteria| == 0
  }
}
