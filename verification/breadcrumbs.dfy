/** The top bar's breadcrumbs, derived from the path: Dashboard, then the
    section named by the first path segment, then a detail crumb for a
    second segment. */
module Breadcrumbs {
  import opened Text

  /** One crumb: its text, and whether it is drawn as the current page. */
  datatype Crumb = Crumb(text: string, isLast: bool)

  /** The crumbs after Dashboard for a section with a detail page: the
      section crumb (current when it is the only segment) and, when a
      second segment exists, the detail crumb. */
  function Section(segs: seq<string>, title: string, detail: string): (r: seq<Crumb>)
    requires |segs| >= 1
    ensures |r| == if |segs| >= 2 then 2 else 1
    ensures r[0] == Crumb(title, |segs| == 1)
    ensures |segs| >= 2 ==> r[1] == Crumb(detail, true)
  {
    [Crumb(title, |segs| == 1)] + (if |segs| >= 2 then [Crumb(detail, true)] else [])
  }

  /** The crumbs after Dashboard: goals distinguish 'new' from a goal id;
      skills and topics have one kind of detail page; any other first
      segment adds nothing. */
  function SectionCrumbs(segs: seq<string>): seq<Crumb> {
    if |segs| == 0 then []
    else if segs[0] == "goals" then
      Section(segs, "Goals", if |segs| >= 2 && segs[1] == "new" then "New Goal" else "Goal Details")
    else if segs[0] == "skills" then Section(segs, "Skills", "Skill Details")
    else if segs[0] == "topics" then Section(segs, "Topics", "Topic Details")
    else []
  }

  /** `getBreadcrumbs(pathname)`. */
  function Crumbs(path: string): (r: seq<Crumb>)
    ensures path == "/" ==> r == [Crumb("Dashboard", true)]
    ensures path != "/" ==> |r| >= 1 && r[0] == Crumb("Dashboard", false)
    ensures 1 <= |r| <= 3
    ensures forall i :: 0 <= i < |r| && r[i].isLast ==> i == |r| - 1
  {
    if path == "/" then [Crumb("Dashboard", true)]
    else [Crumb("Dashboard", false)] + SectionCrumbs(Segments(path))
  }

  /** The goals crumbs: 'Goals' is current exactly when it is the only
      segment; a second segment 'new' adds 'New Goal' and any other second
      segment adds 'Goal Details'. Skills and topics follow the same rule
      with their own detail crumb. */
  lemma SectionRules(path: string)
    requires path != "/"
    ensures var segs, r := Segments(path), Crumbs(path);
      |segs| >= 1 && segs[0] in {"goals", "skills", "topics"} ==>
        |r| >= 2 && r[1].isLast == (|segs| == 1) &&
        (|segs| >= 2 <==> |r| == 3) &&
        (|segs| >= 2 ==> r[2].isLast)
    ensures var segs, r := Segments(path), Crumbs(path);
      |segs| >= 1 && segs[0] == "goals" ==>
        r[1].text == "Goals" &&
        (|segs| >= 2 ==> r[2].text == (if segs[1] == "new" then "New Goal" else "Goal Details"))
    ensures var segs, r := Segments(path), Crumbs(path);
      |segs| >= 1 && segs[0] == "skills" ==>
        r[1].text == "Skills" && (|segs| >= 2 ==> r[2].text == "Skill Details")
    ensures var segs, r := Segments(path), Crumbs(path);
      |segs| >= 1 && segs[0] == "topics" ==>
        r[1].text == "Topics" && (|segs| >= 2 ==> r[2].text == "Topic Details")
  {
  }

  /** A path whose first segment names no section, or that has no segment
      at all, gets only the Dashboard crumb, and nothing is current. */
  lemma UnknownSectionOnlyDashboard(path: string)
    requires path != "/"
    requires |Segments(path)| == 0 || Segments(path)[0] !in {"goals", "skills", "topics"}
    ensures Crumbs(path) == [Crumb("Dashboard", false)]
  {
  }

  /** '/goals/new' ends in a current 'New Goal' crumb. */
  lemma GoalsNewCrumbs()
    ensures Crumbs("/goals/new") == [Crumb("Dashboard", false), Crumb("Goals", false), Crumb("New Goal", true)]
  {
    GoalsNewSegments();
    assert "/goals/new" != "/" by { assert |"/goals/new"| != 1; }
  }

  /** A goal id after '/goals' ends in a current 'Goal Details' crumb. */
  lemma GoalDetailCrumbs()
    ensures Crumbs("/goals/7") == [Crumb("Dashboard", false), Crumb("Goals", false), Crumb("Goal Details", true)]
  {
    assert JoinPath(["goals", "7"]) == "/goals/7";
    SegmentsOfJoin(["goals", "7"]);
    assert "/goals/7" != "/" by { assert |"/goals/7"| != 1; }
    assert "7" != "new" by { assert |"7"| != 3; }
  }

  /** '/settings' names no section, so only Dashboard is shown. */
  lemma SettingsCrumbs()
    ensures Crumbs("/settings") == [Crumb("Dashboard", false)]
  {
    assert JoinPath(["settings"]) == "/settings";
    SegmentsOfJoin(["settings"]);
    assert "/settings" != "/" by { assert |"/settings"| != 1; }
    assert "settings" != "goals" && "settings" != "skills" && "settings" != "topics" by {
      assert "settings"[1] == 'e';
    }
  }

  /** A trailing slash changes nothing: '/goals/' and '/goals' give the
      same crumbs. */
  lemma TrailingSlashIgnored(path: string)
    requires path != "" && path != "/"
    ensures Crumbs(path + "/") == Crumbs(path)
  {
    SegmentsTrailingSlash(path);
    assert path + "/" != "/" by {
      assert |path + "/"| >= 2;
    }
  }
}
