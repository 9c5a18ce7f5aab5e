/**
 * The approval form: assembling the optional issue fields from the four
 * text inputs, with comma-separated label parsing.
 */
module StoryPreview {
  import opened Wrappers
  import opened Text
  import opened State

  const LABEL_SEPARATOR := ","

  /** `labelsInput.split(",").map(l => l.trim()).filter(Boolean)`. */
  function ParseLabels(input: string): (labels: seq<string>)
    ensures forall k | 0 <= k < |labels| :: labels[k] != "" && IsTrimmed(labels[k])
  {
    TrimmedNonBlank(Split(input, LABEL_SEPARATOR))
  }

  /** `handleApprove`: the optional fields the form hands to the approval callback. */
  function HandleApprove(parentKey: string, dueDate: string, startDate: string, labelsInput: string): (o: OptionalFields)
    ensures o.parentKey.Some? <==> Trim(parentKey) != ""
    ensures o.parentKey.Some? ==> o.parentKey.value == Trim(parentKey) && IsTrimmed(o.parentKey.value)
    ensures o.dueDate.Some? <==> dueDate != ""
    ensures o.dueDate.Some? ==> o.dueDate.value == dueDate
    ensures o.startDate.Some? <==> startDate != ""
    ensures o.startDate.Some? ==> o.startDate.value == startDate
    ensures o.labels.None? <==> Trim(labelsInput) == ""
    ensures o.labels.Some? ==> o.labels.value == ParseLabels(labelsInput)
    ensures o.teamId.None? && o.createSubtasks.None?
  {
    OptionalFields(
      parentKey := if Trim(parentKey) != "" then Some(Trim(parentKey)) else None,
      dueDate := if dueDate != "" then Some(dueDate) else None,
      startDate := if startDate != "" then Some(startDate) else None,
      labels := if Trim(labelsInput) != "" then Some(ParseLabels(labelsInput)) else None,
      teamId := None,
      createSubtasks := None)
  }

  /** Every character of `s.trim()` comes from `s`. */
  lemma TrimKeepsChars(s: string, c: char)
    ensures c in Trim(s) ==> c in s
  {
    if c in Trim(s) {
      CharOfTrim(s, c);
    }
  }

  lemma CharOfTrim(s: string, c: char)
    requires c in Trim(s)
    ensures c in s
  {
    var a := SkipLeading(s, 0);
    var r := Trim(s);
    var i :| 0 <= i < |r| && r[i] == c;
    assert s[a + i] == c;
  }

  /** A comma in a piece is an occurrence of the separator. */
  lemma CommaIsSeparator(p: string)
    ensures ',' in p ==> Contains(p, LABEL_SEPARATOR)
  {
    if ',' in p {
      var i :| 0 <= i < |p| && p[i] == ',';
      assert OccursAt(p, LABEL_SEPARATOR, i) by {
        assert p[i..i + 1] == [p[i]];
      }
    }
  }

  /** Each parsed label is non-empty, trimmed, comma-free, and is the trim of some piece between commas. */
  lemma ParsedLabelsAreClean(input: string, t: string)
    requires t in ParseLabels(input)
    ensures t != "" && IsTrimmed(t) && ',' !in t
    ensures exists p | p in Split(input, LABEL_SEPARATOR) :: Trim(p) == t
  {
    var pieces := Split(input, LABEL_SEPARATOR);
    TrimmedNonBlankMembers(pieces, t);
    var p :| p in pieces && Trim(p) == t;
    var k :| 0 <= k < |pieces| && pieces[k] == p;
    CommaIsSeparator(p);
    TrimKeepsChars(p, ',');
  }

  lemma JoinStartsWithFirst(parts: seq<string>, sep: string)
    requires |parts| >= 1
    ensures parts[0] <= Join(parts, sep)
  {
  }

  /**
   * Clean labels survive a round trip through the text box: typing them
   * joined by commas gives back exactly those labels, in order.
   */
  lemma LabelsRoundTrip(labels: seq<string>)
    requires |labels| >= 1
    requires forall k | 0 <= k < |labels| :: labels[k] != "" && IsTrimmed(labels[k]) && ',' !in labels[k]
    ensures HandleApprove("", "", "", Join(labels, LABEL_SEPARATOR)).labels == Some(labels)
  {
    var input := Join(labels, LABEL_SEPARATOR);
    SplitJoin(labels, LABEL_SEPARATOR);
    TrimmedNonBlankOfClean(labels);
    JoinStartsWithFirst(labels, LABEL_SEPARATOR);
    assert input[0] == labels[0][0] && !IsWhitespace(input[0]);
    TrimEmptyIff(input);
  }

  /** Blank inputs give no optional fields at all. */
  lemma BlankFormGivesNothing(parentKey: string, labelsInput: string)
    requires AllWhitespace(parentKey) && AllWhitespace(labelsInput)
    ensures HandleApprove(parentKey, "", "", labelsInput) == NoOptionalFields
  {
    TrimEmptyIff(parentKey);
    TrimEmptyIff(labelsInput);
  }
}
