/** The sidebar's decisions: which navigation item is active for a path,
    the avatar's initial, and the collapse toggle. */
module Sidebar {
  import opened Wrappers
  import opened Text

  /** A navigation entry: its name and the path it leads to. */
  datatype NavItem = NavItem(name: string, href: string)

  /** The three navigation entries, in display order. */
  const NavItems: seq<NavItem> := [NavItem("Dashboard", "/"), NavItem("Goals", "/goals"), NavItem("Skills", "/skills")]

  /** An item is active on its own path, and (except Dashboard) on every
      path that starts with its href. */
  predicate IsActive(path: string, href: string) {
    path == href || (href != "/" && StartsWith(path, href))
  }

  /** Dashboard is active only on exactly '/'; Goals and Skills on every
      path with their href as a raw prefix. */
  lemma ActiveRules(path: string)
    ensures IsActive(path, "/") <==> path == "/"
    ensures IsActive(path, "/goals") <==> StartsWith(path, "/goals")
    ensures IsActive(path, "/skills") <==> StartsWith(path, "/skills")
  {
  }

  /** For every path at most one navigation item is active. */
  lemma AtMostOneActive(path: string)
    ensures forall i, j :: 0 <= i < j < |NavItems| ==>
      !(IsActive(path, NavItems[i].href) && IsActive(path, NavItems[j].href))
  {
    if StartsWith(path, "/goals") {
      PrefixChar(path, "/goals", 1);
    }
    if StartsWith(path, "/skills") {
      PrefixChar(path, "/skills", 1);
    }
  }

  /** `user.email?.[0]?.toUpperCase() || 'U'`: one character, the email's
      first upper-cased, or 'U' when there is no email or it is empty. */
  function AvatarInitial(email: Option<string>): (s: string)
    ensures |s| == 1
    ensures !('a' <= s[0] <= 'z')
    ensures email.None? || email.value == "" ==> s == "U"
    ensures email.Some? && email.value != "" ==> LowerChar(s[0]) == LowerChar(email.value[0])
  {
    if email.Some? && email.value != "" then [UpperChar(email.value[0])] else "U"
  }

  /** The collapse button flips the sidebar between collapsed and expanded. */
  function ToggleCollapsed(collapsed: bool): (r: bool)
    ensures r != collapsed
  {
    !collapsed
  }

  /** Pressing the collapse button twice restores the sidebar. */
  lemma ToggleTwiceRestores(collapsed: bool)
    ensures ToggleCollapsed(ToggleCollapsed(collapsed)) == collapsed
  {
  }
}
