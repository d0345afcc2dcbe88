/** The rows of the five remote tables, as the stores receive them back
    from an insert, update or select. Nullable columns are `Option`s. */
module Schema {
  import opened Wrappers

  /** A row of `goals`. */
  datatype GoalRow = GoalRow(
    id: string,
    userId: string,
    title: string,
    description: string,
    targetDate: Option<string>,
    durationWeeks: Option<int>,
    isAchieved: bool,
    achievementNotes: Option<string>,
    createdAt: string,
    updatedAt: string)

  /** A row of `skills`. The seed skills carry neither owner nor goal. */
  datatype SkillRow = SkillRow(
    id: string,
    userId: Option<string>,
    goalId: Option<string>,
    title: string,
    description: string,
    status: string,
    targetDate: Option<string>,
    notes: string,
    createdAt: string,
    updatedAt: string,
    lastReviewedAt: string)

  /** A row of `topics`. */
  datatype TopicRow = TopicRow(
    id: string,
    userId: string,
    skillId: string,
    title: string,
    description: Option<string>,
    status: string,
    orderIndex: Option<int>,
    createdAt: string,
    updatedAt: string)

  /** A row of `notes`. */
  datatype NoteRow = NoteRow(
    id: string,
    userId: string,
    topicId: string,
    content: string,
    createdAt: string,
    updatedAt: string)

  /** A row of `skill_content`; `kind` is the `type` column ('text' or 'topic'). */
  datatype ContentRow = ContentRow(
    id: string,
    userId: string,
    skillId: string,
    kind: string,
    title: string,
    content: string,
    orderIndex: Option<int>,
    createdAt: string,
    updatedAt: string)

  /** `value || fallback` for a string that may be missing or empty. */
  function OrElse(value: string, fallback: string): (r: string)
    ensures value != "" ==> r == value
    ensures value == "" ==> r == fallback
  {
    if value == "" then fallback else value
  }

  /** `value || null` for an optional string: the empty string becomes null. */
  function NonEmpty(value: Option<string>): (r: Option<string>)
    ensures r.Some? <==> value.Some? && value.value != ""
    ensures r.Some? ==> r == value
  {
    if value.Some? && value.value != "" then value else None
  }

  /** `value || null` for an optional number: zero becomes null. */
  function NonZero(value: Option<int>): (r: Option<int>)
    ensures r.Some? <==> value.Some? && value.value != 0
    ensures r.Some? ==> r == value
  {
    if value.Some? && value.value != 0 then value else None
  }
}
