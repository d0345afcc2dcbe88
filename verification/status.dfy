/** The skill status vocabulary and its three display maps: progress value,
    badge colour and badge label. Unknown statuses fall through to a
    default in every map. */
module Status {

  const NotStarted := "not_started"
  const InProgress := "in_progress"
  const Done := "done"

  /** One of the three statuses the maps know. */
  predicate Known(status: string) {
    status == NotStarted || status == InProgress || status == Done
  }

  /** `getProgressValue`: 0, 50 or 100. Only 'done' is complete, only
      'in_progress' is half-way, and every other status, known or not,
      counts as no progress. */
  function ProgressValue(status: string): (p: int)
    ensures p == 100 <==> status == Done
    ensures p == 50 <==> status == InProgress
    ensures p == 0 <==> status != Done && status != InProgress
    ensures 0 <= p <= 100
  {
    if status == NotStarted then 0
    else if status == InProgress then 50
    else if status == Done then 100
    else 0
  }

  /** `getStatusColor`: gray, yellow or green, gray for anything unknown. */
  function StatusColor(status: string): (c: string)
    ensures c == "green" <==> status == Done
    ensures c == "yellow" <==> status == InProgress
    ensures c == "gray" <==> status != Done && status != InProgress
  {
    if status == NotStarted then "gray"
    else if status == InProgress then "yellow"
    else if status == Done then "green"
    else "gray"
  }

  /** `getStatusLabel`: the three known labels, 'Unknown' otherwise. */
  function StatusLabel(status: string): (l: string)
    ensures Known(status) ==> l != "Unknown"
    ensures !Known(status) ==> l == "Unknown"
    ensures status == NotStarted <==> l == "Not Started"
    ensures status == InProgress <==> l == "In Progress"
    ensures status == Done <==> l == "Completed"
  {
    if status == NotStarted then "Not Started"
    else if status == InProgress then "In Progress"
    else if status == Done then "Completed"
    else "Unknown"
  }

  /** The label tells the known statuses apart: different known statuses
      get different labels, none of which is 'Unknown'. */
  lemma LabelsDistinct(a: string, b: string)
    requires Known(a) && Known(b) && a != b
    ensures StatusLabel(a) != StatusLabel(b)
    ensures StatusLabel(a) != "Unknown"
  {
  }

  /** Progress and colour agree: for every status, progress is 0 exactly
      when the badge is gray, 50 exactly when yellow, 100 exactly when green. */
  lemma ProgressMatchesColor(status: string)
    ensures ProgressValue(status) == 0 <==> StatusColor(status) == "gray"
    ensures ProgressValue(status) == 50 <==> StatusColor(status) == "yellow"
    ensures ProgressValue(status) == 100 <==> StatusColor(status) == "green"
  {
  }
}
