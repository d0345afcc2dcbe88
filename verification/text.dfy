/** String helpers with JavaScript's meaning: `startsWith`, `includes`,
    `toLowerCase`/`toUpperCase` (on ASCII letters), `split('/')` with the
    empty pieces dropped, and the decimal form of a number. */
module Text {

  /** `s.startsWith(prefix)`. */
  predicate StartsWith(s: string, prefix: string) {
    |prefix| <= |s| && s[..|prefix|] == prefix
  }

  /** `startsWith` compares position by position: `s` starts with `prefix`
      exactly when it is at least as long and agrees on every position of
      `prefix`. */
  lemma StartsWithChars(s: string, prefix: string)
    ensures StartsWith(s, prefix) <==>
      |prefix| <= |s| && forall k :: 0 <= k < |prefix| ==> s[k] == prefix[k]
  {
    if |prefix| <= |s| && forall k :: 0 <= k < |prefix| ==> s[k] == prefix[k] {
      assert s[..|prefix|] == prefix;
    }
  }

  /** A string that starts with `prefix` agrees with it position by position. */
  lemma PrefixChar(s: string, prefix: string, k: nat)
    requires StartsWith(s, prefix) && k < |prefix|
    ensures s[k] == prefix[k]
  {
    assert s[..|prefix|][k] == s[k];
  }

  /** `s.includes(sub)`: `sub` occurs at some position of `s`. */
  predicate Contains(s: string, sub: string)
    decreases |s|
  {
    StartsWith(s, sub) || (|s| > 0 && Contains(s[1..], sub))
  }

  /** `sub` starts at position `i` of `s`. */
  predicate OccursAt(s: string, sub: string, i: int) {
    0 <= i <= |s| - |sub| && s[i..i + |sub|] == sub
  }

  /** `Contains` finds exactly the positions where `sub` starts. */
  lemma {:induction false} ContainsAt(s: string, sub: string)
    ensures Contains(s, sub) <==> exists i :: OccursAt(s, sub, i)
    decreases |s|
  {
    if StartsWith(s, sub) {
      assert OccursAt(s, sub, 0);
    } else if |s| > 0 {
      ContainsAt(s[1..], sub);
      if Contains(s[1..], sub) {
        var i :| OccursAt(s[1..], sub, i);
        assert s[i + 1..i + 1 + |sub|] == s[1..][i..i + |sub|];
        assert OccursAt(s, sub, i + 1);
      }
      if i :| OccursAt(s, sub, i) {
        assert i != 0;
        assert s[1..][i - 1..i - 1 + |sub|] == s[i..i + |sub|];
        assert OccursAt(s[1..], sub, i - 1);
      }
    }
  }

  /** Every character of a contained string occurs in the containing one,
      so a string holding a character `s` lacks is never found in `s`. */
  lemma ContainsChar(s: string, sub: string, c: char)
    requires Contains(s, sub) && c in sub
    ensures c in s
  {
    ContainsAt(s, sub);
    var i :| OccursAt(s, sub, i);
    var k :| 0 <= k < |sub| && sub[k] == c;
    assert s[i + k] == sub[k];
  }

  /** A string longer than `s` is never found in it. */
  lemma {:induction false} TooLongMissing(s: string, sub: string)
    requires |s| < |sub|
    ensures !Contains(s, sub)
    decreases |s|
  {
    if |s| > 0 {
      TooLongMissing(s[1..], sub);
    }
  }

  /** A string holding a character that `s` lacks is not found in `s`. */
  lemma MissingChar(s: string, sub: string, c: char)
    requires c in sub && c !in s
    ensures !Contains(s, sub)
  {
    if Contains(s, sub) {
      ContainsChar(s, sub, c);
    }
  }

  /** A lower-case ASCII letter for an upper-case one; every other
      character is left alone. */
  function LowerChar(c: char): (r: char)
    ensures 'A' <= c <= 'Z' ==> 'a' <= r <= 'z' && r as int - c as int == 32
    ensures !('A' <= c <= 'Z') ==> r == c
  {
    if 'A' <= c <= 'Z' then (c as int + 32) as char else c
  }

  /** An upper-case ASCII letter for a lower-case one. */
  function UpperChar(c: char): (r: char)
    ensures 'a' <= c <= 'z' ==> 'A' <= r <= 'Z' && LowerChar(r) == c
    ensures !('a' <= c <= 'z') ==> r == c
  {
    if 'a' <= c <= 'z' then (c as int - 32) as char else c
  }

  /** `s.toLowerCase()` on ASCII letters. */
  function ToLower(s: string): (r: string)
    ensures |r| == |s|
    ensures forall i :: 0 <= i < |s| ==> r[i] == LowerChar(s[i])
  {
    seq(|s|, i requires 0 <= i < |s| => LowerChar(s[i]))
  }

  /** Lower-casing twice is lower-casing once. */
  lemma ToLowerIdempotent(s: string)
    ensures ToLower(ToLower(s)) == ToLower(s)
  {
    var once := ToLower(s);
    var twice := ToLower(once);
    assert forall i :: 0 <= i < |s| ==> twice[i] == LowerChar(LowerChar(s[i])) == once[i];
  }

  /** The piece of `p` being read into `cur`, as a list of at most one
      non-empty segment. */
  function Flush(cur: string): seq<string> {
    if cur == "" then [] else [cur]
  }

  /** The non-empty pieces of `cur + p` between '/' characters, where
      `cur` is the segment read so far. */
  function SplitFrom(p: string, cur: string): (r: seq<string>)
    requires '/' !in cur
    ensures forall k :: 0 <= k < |r| ==> r[k] != "" && '/' !in r[k]
    decreases |p|
  {
    if |p| == 0 then Flush(cur)
    else if p[0] == '/' then Flush(cur) + SplitFrom(p[1..], "")
    else SplitFrom(p[1..], cur + [p[0]])
  }

  /** `p.split('/').filter(Boolean)`: the path's non-empty segments. */
  function Segments(p: string): (r: seq<string>)
    ensures forall k :: 0 <= k < |r| ==> r[k] != "" && '/' !in r[k]
  {
    SplitFrom(p, "")
  }

  /** A piece without '/' read after `cur` ends as one segment, `cur + a`
      (none when both are empty). */
  lemma {:induction false} SplitFromPiece(a: string, cur: string)
    requires '/' !in a && '/' !in cur
    ensures SplitFrom(a, cur) == Flush(cur + a)
    decreases |a|
  {
    if |a| == 0 {
      assert cur + a == cur;
    } else {
      assert a[0] in a;
      assert (cur + [a[0]]) + a[1..] == cur + a;
      SplitFromPiece(a[1..], cur + [a[0]]);
    }
  }

  /** A '/' closes the segment being read: what comes after it is split
      on its own. */
  lemma {:induction false} SplitFromSlash(a: string, b: string, cur: string)
    requires '/' !in a && '/' !in cur
    ensures SplitFrom(a + "/" + b, cur) == Flush(cur + a) + SplitFrom(b, "")
    decreases |a|
  {
    var p := a + "/" + b;
    if |a| == 0 {
      assert p == "/" + b && p[1..] == b;
      assert cur + a == cur;
    } else {
      assert a[0] in a;
      assert p[0] == a[0] && p[1..] == a[1..] + "/" + b;
      assert (cur + [a[0]]) + a[1..] == cur + a;
      SplitFromSlash(a[1..], b, cur + [a[0]]);
    }
  }

  /** A segment list that a path can have: non-empty pieces without '/'. */
  predicate ValidSegments(segs: seq<string>) {
    forall k :: 0 <= k < |segs| ==> segs[k] != "" && '/' !in segs[k]
  }

  /** The path '/s0/s1/...' made of `segs`. */
  function JoinPath(segs: seq<string>): string {
    if |segs| == 0 then "" else "/" + segs[0] + JoinPath(segs[1..])
  }

  /** A segment followed by the path of further segments splits into that
      segment and then those segments. */
  lemma {:induction false} SplitJoined(s: string, tail: seq<string>)
    requires s != "" && '/' !in s && ValidSegments(tail)
    ensures SplitFrom(s + JoinPath(tail), "") == [s] + tail
    decreases |tail|
  {
    if |tail| == 0 {
      assert s + JoinPath(tail) == s;
      SplitFromPiece(s, "");
      assert "" + s == s;
    } else {
      var rest := tail[0] + JoinPath(tail[1..]);
      assert s + JoinPath(tail) == s + "/" + rest;
      SplitFromSlash(s, rest, "");
      assert "" + s == s;
      SplitJoined(tail[0], tail[1..]);
      assert [tail[0]] + tail[1..] == tail;
    }
  }

  /** Splitting undoes joining: the segments of the path built from a
      valid segment list are exactly that list, in order. */
  lemma {:induction false} SegmentsOfJoin(segs: seq<string>)
    requires ValidSegments(segs)
    ensures Segments(JoinPath(segs)) == segs
  {
    if |segs| > 0 {
      var p := JoinPath(segs);
      var rest := segs[0] + JoinPath(segs[1..]);
      assert p == "/" + rest && p[0] == '/' && p[1..] == rest;
      SplitJoined(segs[0], segs[1..]);
    }
  }

  /** '/goals/new' has the segments 'goals' and 'new'. */
  lemma GoalsNewSegments()
    ensures Segments("/goals/new") == ["goals", "new"]
  {
    assert JoinPath(["goals", "new"]) == "/goals/new";
    SegmentsOfJoin(["goals", "new"]);
  }

  /** A trailing '/' adds no segment. */
  lemma {:induction false} SplitFromTrailingSlash(p: string, cur: string)
    requires '/' !in cur
    ensures SplitFrom(p + "/", cur) == SplitFrom(p, cur)
    decreases |p|
  {
    if |p| == 0 {
      assert p + "/" == "/";
      assert SplitFrom("/", cur) == Flush(cur) + SplitFrom("", "");
    } else {
      assert (p + "/")[0] == p[0];
      assert (p + "/")[1..] == p[1..] + "/";
      if p[0] == '/' {
        SplitFromTrailingSlash(p[1..], "");
      } else {
        SplitFromTrailingSlash(p[1..], cur + [p[0]]);
      }
    }
  }

  lemma SegmentsTrailingSlash(p: string)
    ensures Segments(p + "/") == Segments(p)
  {
    SplitFromTrailingSlash(p, "");
  }

  /** The decimal digit for `d`. */
  function Digit(d: nat): (r: char)
    requires d < 10
    ensures '0' <= r <= '9'
  {
    ('0' as int + d) as char
  }

  /** `String(n)` for a non-negative integer: its decimal digits. */
  function NatToString(n: nat): (r: string)
    ensures |r| >= 1
    ensures n >= 10 ==> |r| >= 2
    ensures forall k :: 0 <= k < |r| ==> '0' <= r[k] <= '9'
  {
    if n < 10 then [Digit(n)] else NatToString(n / 10) + [Digit(n % 10)]
  }

  /** Different numbers have different decimal forms. */
  lemma {:induction false} NatToStringInjective(a: nat, b: nat)
    requires NatToString(a) == NatToString(b)
    ensures a == b
  {
    if a >= 10 && b >= 10 {
      var sa, sb := NatToString(a), NatToString(b);
      assert sa[|sa| - 1] == Digit(a % 10);
      assert sb[|sb| - 1] == Digit(b % 10);
      assert sa[..|sa| - 1] == NatToString(a / 10);
      assert sb[..|sb| - 1] == NatToString(b / 10);
      NatToStringInjective(a / 10, b / 10);
    }
  }
}
