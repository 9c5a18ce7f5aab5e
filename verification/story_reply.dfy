/**
 * What the two story generators share: the abstract LLM reply, the
 * extraction of the JSON object span with the greedy pattern `/\{[\s\S]*\}/`,
 * and the parsed object of optional fields.
 */
module StoryReply {
  import opened Wrappers

  /** The LLM's answer to a prompt: its text, or the message of what it threw. */
  datatype LlmReply = Replied(content: string) | LlmThrew(message: string)

  /** The `acceptanceCriteria` member of the parsed object. */
  datatype CriteriaField = CriteriaMissing | CriteriaText(text: string) | CriteriaList(items: seq<string>)

  /** The parsed reply object; `None` is a member that is absent or `null`. */
  datatype ParsedStory = ParsedStory(title: Option<string>, description: Option<string>, criteria: CriteriaField)

  /**
   * `JSON.parse` of the extracted span. The span starts with `{`, so when
   * it parses at all the value is an object.
   */
  datatype ParseOutcome = Parsed(obj: ParsedStory) | ParseThrew(message: string)

  const PARSE_FAILURE := "Failed to parse LLM response as JSON"

  /** The regular expression matches `reply[a..b + 1]`: a `{` at `a`, a `}` at `b`. */
  predicate BraceMatch(reply: string, a: int, b: int) {
    0 <= a < b < |reply| && reply[a] == '{' && reply[b] == '}'
  }

  /** The first index of `c` in `s` at or after `k`. */
  function FirstIndexFrom(s: string, c: char, k: nat): (r: Option<nat>)
    ensures r.Some? ==> k <= r.value < |s| && s[r.value] == c
    ensures r.Some? ==> forall j | k <= j < r.value :: s[j] != c
    ensures r.None? ==> forall j | k <= j < |s| :: s[j] != c
    decreases |s| - k
  {
    if k >= |s| then None
    else if s[k] == c then Some(k)
    else FirstIndexFrom(s, c, k + 1)
  }

  /** The last index of `c` in `s[..n]`. */
  function LastIndexBelow(s: string, c: char, n: nat): (r: Option<nat>)
    requires n <= |s|
    ensures r.Some? ==> r.value < n && s[r.value] == c
    ensures r.Some? ==> forall j | r.value < j < n :: s[j] != c
    ensures r.None? ==> forall j | 0 <= j < n :: s[j] != c
  {
    if n == 0 then None
    else if s[n - 1] == c then Some(n - 1)
    else LastIndexBelow(s, c, n - 1)
  }

  /**
   * `reply.match(/\{[\s\S]*\}/)?.[0]`: the leftmost match, and at that start
   * the longest one, which runs from the first `{` to the last `}`.
   */
  function JsonSpan(reply: string): (r: Option<string>)
    ensures r.None? <==> forall a, b :: !BraceMatch(reply, a, b)
    ensures r.Some? ==> exists a, b :: BraceMatch(reply, a, b) && r.value == reply[a..b + 1]
                          && forall a', b' :: BraceMatch(reply, a', b') ==> a < a' || (a == a' && b' <= b)
  {
    match FirstIndexFrom(reply, '{', 0)
    case None => None
    case Some(a) =>
      match LastIndexBelow(reply, '}', |reply|)
      case None => None
      case Some(b) =>
        if b <= a then None
        else
          assert BraceMatch(reply, a, b);
          Some(reply[a..b + 1])
  }

  /** The span exists exactly when some `}` follows the first `{`. */
  lemma JsonSpanExistsIff(reply: string)
    ensures JsonSpan(reply).Some? <==>
              exists a | 0 <= a < |reply| :: reply[a] == '{' && '{' !in reply[..a] && '}' in reply[a + 1..]
  {
    if JsonSpan(reply).Some? {
      var a := FirstIndexFrom(reply, '{', 0).value;
      var b := LastIndexBelow(reply, '}', |reply|).value;
      assert reply[a + 1..][b - a - 1] == '}';
      assert '{' !in reply[..a];
    } else {
      forall a | 0 <= a < |reply| && reply[a] == '{' && '{' !in reply[..a]
        ensures '}' !in reply[a + 1..]
      {
        forall k | a < k < |reply| ensures reply[k] != '}' {
          assert !BraceMatch(reply, a, k);
        }
        var rest := reply[a + 1..];
        assert forall j | 0 <= j < |rest| :: rest[j] == reply[a + 1 + j];
      }
    }
  }

  /** The extracted span is a brace-delimited text: it opens with `{` and closes with `}`. */
  lemma JsonSpanDelimited(reply: string)
    requires JsonSpan(reply).Some?
    ensures var t := JsonSpan(reply).value; |t| >= 2 && t[0] == '{' && t[|t| - 1] == '}'
  {
  }
}
