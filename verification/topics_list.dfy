/** The decisions of the topic list: the status button's cycle, the inline
    editor's form, the displayed ordinal and notes count, and the status
    badge. Topics use their own status vocabulary, which ends in
    'completed' where skills end in 'done'. */
module TopicsList {
  import opened Wrappers
  import opened Schema
  import opened Status

  /** The topic status after 'in_progress'. */
  const Completed := "completed"

  /** The statuses the cycle moves through. */
  predicate InCycle(status: string) {
    status == NotStarted || status == InProgress || status == Completed
  }

  /** The status the button sets: not_started → in_progress → completed,
      and anything else (including 'completed') back to not_started. */
  function NextStatus(status: string): (n: string)
    ensures InCycle(n)
    ensures status == NotStarted ==> n == InProgress
    ensures status == InProgress ==> n == Completed
    ensures status != NotStarted && status != InProgress ==> n == NotStarted
  {
    if status == NotStarted then InProgress
    else if status == InProgress then Completed
    else NotStarted
  }

  /** The cycle has period three: three presses bring every cycle status
      back, and one press always moves it. An unrecognised status enters
      the cycle at not_started. */
  lemma CycleHasPeriodThree(status: string)
    ensures InCycle(status) ==> NextStatus(NextStatus(NextStatus(status))) == status
    ensures InCycle(status) ==> NextStatus(status) != status
    ensures !InCycle(status) ==> NextStatus(status) == NotStarted
  {
  }

  /** The editor: the id of the topic being edited, if any, and the form. */
  datatype Form = Form(title: string, description: string)
  datatype Editor = Editor(editing: Option<string>, form: Form)

  const Idle := Editor(None, Form("", ""))

  /** `handleEditStart`: edit this topic, with the form holding its title
      and its description, or '' when it has none. */
  function EditStart(t: TopicRow): (e: Editor)
    ensures e.editing == Some(t.id)
    ensures e.form.title == t.title
    ensures t.description.Some? ==> e.form.description == t.description.value
    ensures t.description.None? ==> e.form.description == ""
  {
    Editor(Some(t.id), Form(t.title, t.description.GetOr("")))
  }

  /** `handleEditCancel`: leave edit mode and clear the form. */
  function EditCancel(e: Editor): (r: Editor)
    ensures r.editing.None? && r.form.title == "" && r.form.description == ""
  {
    Idle
  }

  /** Cancelling an edit returns the editor to its initial state, whatever
      was being edited. */
  lemma CancelUndoesStart(t: TopicRow)
    ensures EditCancel(EditStart(t)) == Idle
  {
  }

  /** The ordinal shown beside each topic: its 1-based position. */
  function Ordinals(count: nat): (r: seq<nat>)
    ensures |r| == count
    ensures forall i :: 0 <= i < count ==> r[i] >= 1 && r[i] - 1 == i
  {
    seq(count, i requires 0 <= i < count => i + 1)
  }

  /** The ordinals run 1..n without repeats. */
  lemma OrdinalsDistinct(count: nat)
    ensures forall i, j :: 0 <= i < count && 0 <= j < count && i != j ==> Ordinals(count)[i] != Ordinals(count)[j]
    ensures count > 0 ==> Ordinals(count)[0] == 1 && Ordinals(count)[count - 1] == count
  {
  }

  /** `topic.notes_count || 0`. */
  function NotesShown(notesCount: Option<nat>): (n: nat)
    ensures notesCount.Some? ==> n == notesCount.value
    ensures notesCount.None? ==> n == 0
  {
    notesCount.GetOr(0)
  }

  /** What a badge shows: its colour variant and its text. */
  datatype Badge = Badge(color: string, text: string)

  /** The colour of the status icon on the cycle button: green for
      'completed', yellow for 'in_progress', gray otherwise. */
  function IconColor(status: string): (c: string)
    ensures c == "green" <==> status == Completed
    ensures c == "yellow" <==> status == InProgress
    ensures c == "gray" <==> status != Completed && status != InProgress
  {
    if status == Completed then "green"
    else if status == InProgress then "yellow"
    else "gray"
  }

  /** The badge as written: the skill-status maps applied to a topic status. */
  function BadgeAsWritten(status: string): (b: Badge)
    ensures b.color == StatusColor(status) && b.text == StatusLabel(status)
  {
    Badge(StatusColor(status), StatusLabel(status))
  }

  /** The skill maps do not know 'completed': a topic the cycle has moved
      to 'completed' is badged gray 'Unknown', while its icon is green. */
  lemma CompletedTopicBadgedUnknown()
    ensures NextStatus(InProgress) == Completed
    ensures BadgeAsWritten(Completed) == Badge("gray", "Unknown")
    ensures IconColor(Completed) == "green"
  {
  }

  /** The badge for the topic vocabulary: 'completed' is green 'Completed';
      every other status is badged as the skill maps badge it. */
  function TopicBadge(status: string): (b: Badge)
    ensures status == Completed ==> b == Badge("green", "Completed")
    ensures status != Completed ==> b == BadgeAsWritten(status)
  {
    if status == Completed then Badge("green", "Completed") else BadgeAsWritten(status)
  }

  /** Every status the cycle can produce gets a known label, distinct for
      distinct statuses, and for every cycle status the badge colour agrees
      with the icon colour. */
  lemma TopicBadgeCoversCycle(a: string, b: string)
    requires InCycle(a) && InCycle(b)
    ensures TopicBadge(a).text != "Unknown"
    ensures a != b ==> TopicBadge(a).text != TopicBadge(b).text
    ensures TopicBadge(a).color == IconColor(a)
  {
  }
}
