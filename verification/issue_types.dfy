/**
 * Choosing the issue type a new issue is created with, from the project's
 * issue types: a story-like type for a top-level issue, a subtask type for a
 * child issue, each with a fixed fallback id.
 */
module IssueTypes {
  import opened Wrappers
  import opened Text

  /** A project issue type; an absent `subtask` flag is `false`. */
  datatype IssueType = IssueType(name: string, id: string, subtask: bool)

  const DEFAULT_STORY_TYPE_ID := "10001"
  const DEFAULT_SUBTASK_TYPE_ID := "10003"

  function LowerName(t: IssueType): string {
    ToLower(t.name)
  }

  /** Eligible for a top-level issue: not flagged subtask, and no "sub" in the lowercased name. */
  predicate IsStorySide(t: IssueType) {
    !t.subtask && !Contains(LowerName(t), "sub")
  }

  /** The name tests the selection tries, in priority order. */
  datatype Test = NamedStory | NamedTask | MentionsStoryOrTask | AnyType | SubtaskLike | MentionsSub

  predicate Passes(t: IssueType, test: Test) {
    match test
    case NamedStory => LowerName(t) == "story"
    case NamedTask => LowerName(t) == "task"
    case MentionsStoryOrTask => Contains(LowerName(t), "story") || Contains(LowerName(t), "task")
    case AnyType => true
    case SubtaskLike => t.subtask || LowerName(t) == "sub-task" || LowerName(t) == "subtask"
    case MentionsSub => Contains(LowerName(t), "sub")
  }

  /** `types.filter(it => !it.subtask && !it.name.toLowerCase().includes("sub"))`. */
  function StorySide(types: seq<IssueType>): (r: seq<IssueType>)
    ensures |r| <= |types|
    ensures forall k | 0 <= k < |r| :: IsStorySide(r[k])
  {
    if |types| == 0 then []
    else (if IsStorySide(types[0]) then [types[0]] else []) + StorySide(types[1..])
  }

  /** `types.find(test)`: the first type passing `test`. */
  function Find(types: seq<IssueType>, test: Test): (r: Option<IssueType>)
    ensures r.Some? ==> exists k | 0 <= k < |types| ::
              types[k] == r.value && Passes(types[k], test) && forall j | 0 <= j < k :: !Passes(types[j], test)
    ensures r.None? ==> forall k | 0 <= k < |types| :: !Passes(types[k], test)
  {
    if |types| == 0 then None
    else if Passes(types[0], test) then Some(types[0])
    else
      var r := Find(types[1..], test);
      assert r.Some? ==> exists k | 0 <= k < |types| ::
               types[k] == r.value && Passes(types[k], test) && forall j | 0 <= j < k :: !Passes(types[j], test)
      by {
        if r.Some? {
          var k :| 0 <= k < |types| - 1 && types[1..][k] == r.value && Passes(types[1..][k], test)
                   && forall j | 0 <= j < k :: !Passes(types[1..][j], test);
          assert types[k + 1] == r.value;
          forall j | 0 <= j < k + 1 ensures !Passes(types[j], test) {
            if j > 0 { assert types[j] == types[1..][j - 1]; }
          }
        }
      }
      assert r.None? ==> forall k | 0 <= k < |types| :: !Passes(types[k], test) by {
        if r.None? {
          forall k | 0 < k < |types| ensures !Passes(types[k], test) { assert types[k] == types[1..][k - 1]; }
        }
      }
      r
  }

  /** The index of the first type at or after `k` that passes `test` (and is story-side, when `storySide`). */
  function FirstFrom(types: seq<IssueType>, test: Test, storySide: bool, k: nat): (r: Option<nat>)
    ensures r.Some? ==> k <= r.value < |types| && Passes(types[r.value], test)
    ensures r.Some? && storySide ==> IsStorySide(types[r.value])
    ensures r.Some? ==> forall j | k <= j < r.value :: !(Passes(types[j], test) && (storySide ==> IsStorySide(types[j])))
    ensures r.None? ==> forall j | k <= j < |types| :: !(Passes(types[j], test) && (storySide ==> IsStorySide(types[j])))
    decreases |types| - k
  {
    if k >= |types| then None
    else if Passes(types[k], test) && (storySide ==> IsStorySide(types[k])) then Some(k)
    else FirstFrom(types, test, storySide, k + 1)
  }

  function IdAt(types: seq<IssueType>, i: Option<nat>): Option<string>
    requires i.Some? ==> i.value < |types|
  {
    if i.Some? then Some(types[i.value].id) else None
  }

  function IdOf(t: Option<IssueType>): Option<string> {
    if t.Some? then Some(t.value.id) else None
  }

  /** Finding in the filtered list is finding the first story-side type that passes. */
  lemma {:induction false} FindStorySide(types: seq<IssueType>, test: Test, k: nat)
    requires k <= |types|
    ensures IdOf(Find(StorySide(types[k..]), test)) == IdAt(types, FirstFrom(types, test, true, k))
    decreases |types| - k
  {
    if k < |types| {
      var rest := types[k..];
      assert rest[1..] == types[k + 1..];
      FindStorySide(types, test, k + 1);
      if IsStorySide(types[k]) {
        assert StorySide(rest) == [types[k]] + StorySide(types[k + 1..]);
      } else {
        assert StorySide(rest) == StorySide(types[k + 1..]);
      }
    }
  }

  /**
   * `getIssueTypeId()` / the selection in `getIssueTypes()`: among the
   * story-side types, an exact "story", else an exact "task", else a name
   * mentioning either, else the first; "10001" when none is left.
   */
  function StoryTypeId(types: seq<IssueType>): (id: string)
  {
    if |types| == 0 then DEFAULT_STORY_TYPE_ID
    else
      var eligible := StorySide(types);
      match Find(eligible, NamedStory)
      case Some(t) => t.id
      case None =>
        match Find(eligible, NamedTask)
        case Some(t) => t.id
        case None =>
          match Find(eligible, MentionsStoryOrTask)
          case Some(t) => t.id
          case None => if |eligible| > 0 then eligible[0].id else DEFAULT_STORY_TYPE_ID
  }

  /** Preference among story-side types: exact story, exact task, mentions either, anything. */
  function Rank(t: IssueType): nat {
    if LowerName(t) == "story" then 0
    else if LowerName(t) == "task" then 1
    else if Contains(LowerName(t), "story") || Contains(LowerName(t), "task") then 2
    else 3
  }

  /** `types[i]` is the earliest story-side type of the best rank present. */
  predicate IsBestChoice(types: seq<IssueType>, i: int) {
    && 0 <= i < |types| && IsStorySide(types[i])
    && forall j | 0 <= j < |types| && IsStorySide(types[j]) ::
         Rank(types[i]) < Rank(types[j]) || (Rank(types[i]) == Rank(types[j]) && i <= j)
  }

  predicate HasStorySide(types: seq<IssueType>) {
    exists k | 0 <= k < |types| :: IsStorySide(types[k])
  }

  lemma RankTest(t: IssueType)
    ensures Rank(t) == 0 <==> Passes(t, NamedStory)
    ensures Rank(t) == 1 <==> Passes(t, NamedTask)
    ensures Rank(t) <= 2 <==> Passes(t, MentionsStoryOrTask)
  {
    var n := LowerName(t);
    if n == "story" { assert OccursAt(n, "story", 0); }
    if n == "task" { assert OccursAt(n, "task", 0); }
  }

  /**
   * The story type is the earliest story-side type of the best rank, and
   * the fallback id exactly when there is no story-side type: it is never a
   * type flagged as a subtask or named with "sub".
   */
  lemma StoryTypeIdIsBestChoice(types: seq<IssueType>)
    ensures HasStorySide(types) ==> exists i :: IsBestChoice(types, i) && StoryTypeId(types) == types[i].id
    ensures !HasStorySide(types) ==> StoryTypeId(types) == DEFAULT_STORY_TYPE_ID
  {
    assert types[0..] == types;
    FindStorySide(types, NamedStory, 0);
    FindStorySide(types, NamedTask, 0);
    FindStorySide(types, MentionsStoryOrTask, 0);
    FindStorySide(types, AnyType, 0);
    var eligible := StorySide(types);
    assert |eligible| > 0 <==> Find(eligible, AnyType).Some?;
    forall k | 0 <= k < |types| ensures 0 <= Rank(types[k]) <= 3 { RankTest(types[k]); }
    if HasStorySide(types) {
      var f0, f1 := FirstFrom(types, NamedStory, true, 0), FirstFrom(types, NamedTask, true, 0);
      var f2, f3 := FirstFrom(types, MentionsStoryOrTask, true, 0), FirstFrom(types, AnyType, true, 0);
      assert f3.Some?;
      if f0.Some? {
        RankTest(types[f0.value]);
        forall j | 0 <= j < |types| && IsStorySide(types[j]) ensures Rank(types[f0.value]) < Rank(types[j]) || (Rank(types[f0.value]) == Rank(types[j]) && f0.value <= j) {
          RankTest(types[j]);
        }
        assert IsBestChoice(types, f0.value);
      } else if f1.Some? {
        RankTest(types[f1.value]);
        forall j | 0 <= j < |types| && IsStorySide(types[j]) ensures Rank(types[f1.value]) < Rank(types[j]) || (Rank(types[f1.value]) == Rank(types[j]) && f1.value <= j) {
          RankTest(types[j]);
        }
        assert IsBestChoice(types, f1.value);
      } else if f2.Some? {
        RankTest(types[f2.value]);
        forall j | 0 <= j < |types| && IsStorySide(types[j]) ensures Rank(types[f2.value]) < Rank(types[j]) || (Rank(types[f2.value]) == Rank(types[j]) && f2.value <= j) {
          RankTest(types[j]);
        }
        assert IsBestChoice(types, f2.value);
      } else {
        forall j | 0 <= j < |types| && IsStorySide(types[j]) ensures Rank(types[f3.value]) < Rank(types[j]) || (Rank(types[f3.value]) == Rank(types[j]) && f3.value <= j) {
          RankTest(types[j]);
          RankTest(types[f3.value]);
        }
        assert IsBestChoice(types, f3.value);
      }
    }
  }

  /**
   * `getSubtaskIssueTypeId()`: the first type flagged subtask or named
   * "sub-task"/"subtask", else the first whose name mentions "sub", else "10003".
   */
  function SubtaskTypeId(types: seq<IssueType>): (id: string)
    ensures (exists k | 0 <= k < |types| :: Passes(types[k], SubtaskLike)) ==>
              exists k | 0 <= k < |types| :: types[k].id == id && Passes(types[k], SubtaskLike)
                && forall j | 0 <= j < k :: !Passes(types[j], SubtaskLike)
    ensures (forall k | 0 <= k < |types| :: !Passes(types[k], SubtaskLike))
            && (exists k | 0 <= k < |types| :: Passes(types[k], MentionsSub)) ==>
              exists k | 0 <= k < |types| :: types[k].id == id && Passes(types[k], MentionsSub)
                && forall j | 0 <= j < k :: !Passes(types[j], MentionsSub)
    ensures (forall k | 0 <= k < |types| :: !Passes(types[k], SubtaskLike) && !Passes(types[k], MentionsSub)) ==>
              id == DEFAULT_SUBTASK_TYPE_ID
  {
    if |types| == 0 then DEFAULT_SUBTASK_TYPE_ID
    else
      match Find(types, SubtaskLike)
      case Some(t) => t.id
      case None =>
        match Find(types, MentionsSub)
        case Some(t) => t.id
        case None => DEFAULT_SUBTASK_TYPE_ID
  }

  /** Preference among subtask candidates: subtask-like, then mentioning "sub", then not a candidate. */
  function SubRank(t: IssueType): nat {
    if t.subtask || LowerName(t) == "sub-task" || LowerName(t) == "subtask" then 0
    else if Contains(LowerName(t), "sub") then 1
    else 2
  }

  /** `types[i]` is the earliest subtask candidate of the best rank present. */
  predicate IsBestSubtask(types: seq<IssueType>, i: int) {
    && 0 <= i < |types| && SubRank(types[i]) < 2
    && forall j | 0 <= j < |types| ::
         SubRank(types[i]) < SubRank(types[j]) || (SubRank(types[i]) == SubRank(types[j]) && i <= j)
  }

  /**
   * The subtask type is the earliest candidate of the best rank, and the
   * fallback id exactly when no type is a candidate.
   */
  lemma SubtaskTypeIdIsBestChoice(types: seq<IssueType>)
    ensures (exists k | 0 <= k < |types| :: SubRank(types[k]) < 2) ==>
              exists i :: IsBestSubtask(types, i) && SubtaskTypeId(types) == types[i].id
    ensures (forall k | 0 <= k < |types| :: SubRank(types[k]) == 2) ==> SubtaskTypeId(types) == DEFAULT_SUBTASK_TYPE_ID
  {
    var id := SubtaskTypeId(types);
    if exists k | 0 <= k < |types| :: Passes(types[k], SubtaskLike) {
      var i :| 0 <= i < |types| && types[i].id == id && Passes(types[i], SubtaskLike)
               && forall j | 0 <= j < i :: !Passes(types[j], SubtaskLike);
      assert SubRank(types[i]) == 0;
      forall j | 0 <= j < |types| ensures SubRank(types[i]) < SubRank(types[j]) || (SubRank(types[i]) == SubRank(types[j]) && i <= j) {
        if j < i { assert !Passes(types[j], SubtaskLike); }
      }
      assert IsBestSubtask(types, i);
    } else if exists k | 0 <= k < |types| :: Passes(types[k], MentionsSub) {
      var i :| 0 <= i < |types| && types[i].id == id && Passes(types[i], MentionsSub)
               && forall j | 0 <= j < i :: !Passes(types[j], MentionsSub);
      assert !Passes(types[i], SubtaskLike);
      assert SubRank(types[i]) == 1;
      forall j | 0 <= j < |types| ensures SubRank(types[i]) < SubRank(types[j]) || (SubRank(types[i]) == SubRank(types[j]) && i <= j) {
        assert !Passes(types[j], SubtaskLike);
        if j < i { assert !Passes(types[j], MentionsSub); }
      }
      assert IsBestSubtask(types, i);
    } else {
      forall k | 0 <= k < |types| ensures SubRank(types[k]) == 2 {
        assert !Passes(types[k], SubtaskLike) && !Passes(types[k], MentionsSub);
      }
    }
  }

  /** A type picked for a subtask is never story-side, so the two choices never pick the same type. */
  lemma SubtaskChoiceIsNotStorySide(t: IssueType)
    requires Passes(t, SubtaskLike) || Passes(t, MentionsSub)
    ensures !IsStorySide(t)
  {
    var n := LowerName(t);
    if n == "sub-task" || n == "subtask" { assert OccursAt(n, "sub", 0); }
  }
}
