/** Skill templates for a goal: four fixed roadmaps, a first-match keyword
    classifier over the lower-cased goal title, and the expansion of the
    chosen roadmap into skill records for a goal and a user. */
module Templates {
  import opened Text

  /** One roadmap entry: a skill title and description, an estimate in
      days and the entry's position in the roadmap. */
  datatype Entry = Entry(title: string, description: string, durationDays: nat, position: nat)

  /** The four roadmaps, by the key they have in the template table. */
  datatype Kind = Senior | FullStack | Frontend | Default

  /** The 'senior software engineer' roadmap. */
  const SeniorRoadmap: seq<Entry> := [
    Entry("Advanced React Patterns",
          "Master hooks, context, performance optimization, and component design patterns", 21, 0),
    Entry("System Design Fundamentals",
          "Learn scalability, load balancing, databases, caching, and microservices", 28, 1),
    Entry("Data Structures & Algorithms",
          "Practice common interview questions, time/space complexity, and problem-solving", 42, 2),
    Entry("Leadership & Communication",
          "Develop mentoring skills, technical communication, and project leadership", 14, 3)
  ]

  /** The 'full stack developer' roadmap. */
  const FullStackRoadmap: seq<Entry> := [
    Entry("Frontend Framework Mastery",
          "Deep dive into React/Vue/Angular with state management and routing", 30, 0),
    Entry("Backend API Development",
          "Build RESTful APIs and GraphQL endpoints with Node.js/Python/Java", 25, 1),
    Entry("Database Design & Management",
          "Learn SQL, NoSQL, database optimization, and data modeling", 20, 2),
    Entry("DevOps & Deployment",
          "Master CI/CD, containerization, cloud services, and monitoring", 18, 3)
  ]

  /** The 'frontend developer' roadmap. */
  const FrontendRoadmap: seq<Entry> := [
    Entry("Modern JavaScript/TypeScript",
          "ES6+, async/await, modules, and TypeScript fundamentals", 14, 0),
    Entry("React Ecosystem",
          "React, Next.js, state management (Redux/Zustand), and testing", 28, 1),
    Entry("CSS Architecture & Design",
          "Tailwind/Styled Components, responsive design, and animations", 14, 2),
    Entry("Performance & Accessibility",
          "Web vitals, SEO, WCAG guidelines, and optimization techniques", 10, 3)
  ]

  /** The 'default' roadmap. */
  const DefaultRoadmap: seq<Entry> := [
    Entry("Foundation Knowledge", "Build the core understanding needed for your goal", 14, 0),
    Entry("Practical Application", "Apply knowledge through hands-on projects and practice", 21, 1),
    Entry("Advanced Concepts", "Master complex topics and edge cases", 18, 2),
    Entry("Real-World Implementation", "Implement solutions in production-like environments", 14, 3)
  ]

  /** `skillTemplates[key]`. */
  function Roadmap(k: Kind): seq<Entry> {
    match k
    case Senior => SeniorRoadmap
    case FullStack => FullStackRoadmap
    case Frontend => FrontendRoadmap
    case Default => DefaultRoadmap
  }

  /** Every roadmap has four entries, each recording its own position, and
      every entry has a title and a positive estimate. */
  lemma RoadmapsWellFormed(k: Kind)
    ensures |Roadmap(k)| == 4
    ensures forall i :: 0 <= i < 4 ==> Roadmap(k)[i].position == i
    ensures forall i :: 0 <= i < 4 ==> Roadmap(k)[i].title != "" && Roadmap(k)[i].durationDays > 0
  {
  }

  /** The keyword tests, on an already lower-cased title. */
  predicate SeniorWords(t: string) {
    Contains(t, "senior") && (Contains(t, "software") || Contains(t, "engineer"))
  }

  predicate FullStackWords(t: string) {
    Contains(t, "full stack") || Contains(t, "fullstack")
  }

  predicate FrontendWords(t: string) {
    Contains(t, "frontend") || Contains(t, "front-end") || Contains(t, "react")
  }

  /** `getSkillTemplatesForGoal`'s choice: the first keyword test that
      holds on the lower-cased title decides, in the order senior,
      full stack, frontend; a title passing none gets the default. */
  function Classify(goalTitle: string): (k: Kind)
    ensures k == Senior <==> SeniorWords(ToLower(goalTitle))
    ensures k == FullStack <==> !SeniorWords(ToLower(goalTitle)) && FullStackWords(ToLower(goalTitle))
    ensures k == Frontend <==>
      !SeniorWords(ToLower(goalTitle)) && !FullStackWords(ToLower(goalTitle)) && FrontendWords(ToLower(goalTitle))
    ensures k == Default <==>
      !SeniorWords(ToLower(goalTitle)) && !FullStackWords(ToLower(goalTitle)) && !FrontendWords(ToLower(goalTitle))
  {
    var t := ToLower(goalTitle);
    if SeniorWords(t) then Senior
    else if FullStackWords(t) then FullStack
    else if FrontendWords(t) then Frontend
    else Default
  }

  /** `getSkillTemplatesForGoal(goalTitle)`. */
  function TemplatesFor(goalTitle: string): (r: seq<Entry>)
    ensures |r| == 4
    ensures forall i :: 0 <= i < 4 ==> r[i].position == i
  {
    RoadmapsWellFormed(Classify(goalTitle));
    Roadmap(Classify(goalTitle))
  }

  /** The choice ignores letter case: two titles that lower-case alike get
      the same roadmap, and a title gets the same roadmap as its lower-cased
      form. */
  lemma ClassifyIgnoresCase(a: string, b: string)
    requires ToLower(a) == ToLower(b)
    ensures Classify(a) == Classify(b)
    ensures Classify(ToLower(a)) == Classify(a)
  {
    ToLowerIdempotent(a);
  }

  /** 'Senior Software Engineer Role' gets the senior roadmap. */
  lemma SeniorTitleExample()
    ensures Classify("Senior Software Engineer Role") == Senior
  {
    var t := ToLower("Senior Software Engineer Role");
    assert t[..6] == "senior";
    assert OccursAt(t, "engineer", 16);
    ContainsAt(t, "engineer");
    assert StartsWith(t, "senior");
  }

  /** The senior test comes first: 'Senior React Engineer' names React too
      but still gets the senior roadmap. */
  lemma SeniorBeatsFrontend()
    ensures Classify("Senior React Engineer") == Senior
  {
    var t := ToLower("Senior React Engineer");
    assert StartsWith(t, "senior");
    assert OccursAt(t, "engineer", 13);
    ContainsAt(t, "engineer");
  }

  /** The hyphenated 'full-stack' matches no keyword at all and so gets
      the default roadmap, not the full-stack one. */
  lemma HyphenatedFullStackIsDefault()
    ensures Classify("full-stack") == Default
  {
    LowerHyphenated();
    HyphenatedHasNoKeyword();
  }

  /** 'full-stack' has no upper-case letter. */
  lemma LowerHyphenated()
    ensures ToLower("full-stack") == "full-stack"
  {
  }

  /** None of the keyword tests holds on 'full-stack': it has no 'e', no
      'r' and no space, which rules out every keyword but 'fullstack'. */
  lemma HyphenatedHasNoKeyword()
    ensures !SeniorWords("full-stack") && !FullStackWords("full-stack") && !FrontendWords("full-stack")
  {
    HyphenatedNotSenior();
    HyphenatedNotFullStack();
    HyphenatedNotFrontend();
  }

  /** 'senior' does not occur in 'full-stack', which has no 'e'. */
  lemma HyphenatedNotSenior()
    ensures !SeniorWords("full-stack")
  {
    MissingChar("full-stack", "senior", 'e');
  }

  /** Neither full-stack keyword occurs in 'full-stack'. */
  lemma HyphenatedNotFullStack()
    ensures !FullStackWords("full-stack")
  {
    NoFullstackInHyphenated();
    NoSpacedFullStackInHyphenated();
  }

  /** 'full stack' does not occur in 'full-stack': they differ at the
      hyphen, and no later position leaves room for it. */
  lemma NoSpacedFullStackInHyphenated()
    ensures !Contains("full-stack", "full stack")
  {
    var t := "full-stack";
    assert !StartsWith(t, "full stack") by { assert t[..10][4] == '-'; }
    TooLongMissing(t[1..], "full stack");
  }

  /** No frontend keyword occurs in 'full-stack'. */
  lemma HyphenatedNotFrontend()
    ensures !FrontendWords("full-stack")
  {
    MissingChar("full-stack", "frontend", 'r');
    MissingChar("full-stack", "front-end", 'r');
    MissingChar("full-stack", "react", 'r');
  }

  /** 'fullstack' does not occur in 'full-stack'. */
  lemma NoFullstackInHyphenated()
    ensures !Contains("full-stack", "fullstack")
  {
    var t := "full-stack";
    assert !StartsWith(t, "fullstack") by { assert t[..9][4] == '-'; }
    assert !StartsWith(t[1..], "fullstack") by { assert t[1..][..9][0] == 'u'; }
    TooLongMissing(t[2..], "fullstack");
    assert t[1..][1..] == t[2..];
  }

  /** A skill record `generateSkillsForGoal` builds: the roadmap entry's
      fields plus the goal, the user, the status and the stamps. */
  datatype GeneratedSkill = GeneratedSkill(
    entry: Entry, goalId: string, userId: string, status: string,
    id: string, createdAt: string, updatedAt: string, lastReviewedAt: string)

  /** The temporary id `temp-${Date.now()}-${index}`. */
  function TempId(stamp: nat, index: nat): (r: string)
    ensures StartsWith(r, "temp-")
    ensures |r| > 5 + |NatToString(index)| && r[|r| - |NatToString(index)| - 1] == '-'
    ensures r[|r| - |NatToString(index)|..] == NatToString(index)
  {
    "temp-" + NatToString(stamp) + "-" + NatToString(index)
  }

  /** Two temporary ids are equal only for equal indices, whatever clock
      readings they carry: the decimal index after the last '-' holds only
      digits, so it is recovered from the id. */
  lemma {:induction false} TempIdInjective(s: nat, t: nat, i: nat, j: nat)
    requires TempId(s, i) == TempId(t, j)
    ensures i == j
  {
    var a, b := NatToString(i), NatToString(j);
    if |a| < |b| {
      assert false;
    } else if |b| < |a| {
      assert false;
    }
    NatToStringInjective(i, j);
  }

  /** What one record reads from the clock: `Date.now()` for its id and
      `new Date().toISOString()` three times for its stamps. */
  datatype Reading = Reading(stamp: nat, createdAt: string, updatedAt: string, lastReviewedAt: string)

  /** `generateSkillsForGoal(goalTitle, goalId, userId)`, with `clock(i)`
      the readings record `i` takes: one 'not_started' skill per entry of
      the chosen roadmap, in roadmap order, each tied to the goal and the
      user and carrying its own readings. */
  function Generate(goalTitle: string, goalId: string, userId: string, clock: nat -> Reading): (r: seq<GeneratedSkill>)
    ensures |r| == |TemplatesFor(goalTitle)| == 4
    ensures forall i :: 0 <= i < |r| ==>
      r[i].entry == TemplatesFor(goalTitle)[i] && r[i].entry.position == i &&
      r[i].goalId == goalId && r[i].userId == userId && r[i].status == "not_started"
    ensures forall i :: 0 <= i < |r| ==>
      r[i].id == TempId(clock(i).stamp, i) && r[i].createdAt == clock(i).createdAt &&
      r[i].updatedAt == clock(i).updatedAt && r[i].lastReviewedAt == clock(i).lastReviewedAt
  {
    var entries := TemplatesFor(goalTitle);
    seq(|entries|, i requires 0 <= i < |entries| =>
      var c := clock(i);
      GeneratedSkill(entries[i], goalId, userId, "not_started", TempId(c.stamp, i),
                     c.createdAt, c.updatedAt, c.lastReviewedAt))
  }

  /** The generated ids are pairwise distinct within one call, even when
      the clock moves on between records. */
  lemma GeneratedIdsDistinct(goalTitle: string, goalId: string, userId: string, clock: nat -> Reading)
    ensures var r := Generate(goalTitle, goalId, userId, clock);
      forall i, j :: 0 <= i < |r| && 0 <= j < |r| && i != j ==> r[i].id != r[j].id
  {
    var r := Generate(goalTitle, goalId, userId, clock);
    forall i, j | 0 <= i < |r| && 0 <= j < |r| && r[i].id == r[j].id
      ensures i == j
    {
      TempIdInjective(clock(i).stamp, clock(j).stamp, i, j);
    }
  }
}
