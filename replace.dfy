/** The regular-expression replacements the two slug transforms are built from, each as a
    function on strings: deleting a character class, replacing each maximal run of a class
    by one "-", and `replace(/^-|-$/g, "")`. */
module Replace {

  predicate IsDash(c: char) { c == '-' }

  /** No "-" is directly followed by another. */
  predicate NoDoubleDash(s: string) {
    forall i :: 0 <= i < |s| - 1 ==> !(s[i] == '-' && s[i + 1] == '-')
  }

  /** Neither end is "-". */
  predicate NoEdgeDash(s: string) {
    |s| > 0 ==> s[0] != '-' && s[|s| - 1] != '-'
  }

  /** `replace(/[^...]/g, "")`: keeps exactly the characters `keep` accepts, in order. */
  function Filter(s: string, keep: char -> bool): (r: string)
    ensures |r| <= |s|
    ensures forall i :: 0 <= i < |r| ==> keep(r[i]) && r[i] in s
    ensures (forall i :: 0 <= i < |s| ==> keep(s[i])) ==> r == s
    decreases |s|
  {
    if |s| == 0 then ""
    else if keep(s[0]) then [s[0]] + Filter(s[1..], keep)
    else Filter(s[1..], keep)
  }

  /** `s` with its leading run of `p` characters removed. */
  function DropRun(s: string, p: char -> bool): (r: string)
    ensures |r| <= |s| && r == s[|s| - |r|..]
    ensures |r| > 0 ==> !p(r[0])
    ensures forall i :: 0 <= i < |s| - |r| ==> p(s[i])
    decreases |s|
  {
    if |s| > 0 && p(s[0]) then DropRun(s[1..], p) else s
  }

  /** `replace(/[class]+/g, "-")`: each maximal run of `p` characters becomes one "-". */
  function CollapseRuns(s: string, p: char -> bool): (r: string)
    ensures |r| <= |s|
    ensures forall i :: 0 <= i < |r| ==> r[i] == '-' || (!p(r[i]) && r[i] in s)
    ensures |s| > 0 && !p(s[0]) ==> |r| > 0 && r[0] == s[0]
    ensures |s| > 0 && p(s[0]) ==> |r| > 0 && r[0] == '-'
    decreases |s|
  {
    if |s| == 0 then ""
    else if p(s[0]) then
      var rest := DropRun(s, p);
      assert forall c :: c in rest ==> c in s;
      "-" + CollapseRuns(rest, p)
    else
      [s[0]] + CollapseRuns(s[1..], p)
  }

  /** When "-" itself belongs to the class, the result has no "--": each emitted "-" is
      followed by a character outside the class. */
  lemma {:induction false} CollapseNoDoubleDash(s: string, p: char -> bool)
    requires p('-')
    ensures NoDoubleDash(CollapseRuns(s, p))
    decreases |s|
  {
    if |s| > 0 {
      if p(s[0]) {
        CollapseNoDoubleDash(DropRun(s, p), p);
      } else {
        CollapseNoDoubleDash(s[1..], p);
      }
    }
  }

  /** Without any class character there is nothing to replace. */
  lemma {:induction false} CollapseFixesClean(s: string, p: char -> bool)
    requires forall i :: 0 <= i < |s| ==> !p(s[i])
    ensures CollapseRuns(s, p) == s
    decreases |s|
  {
    if |s| > 0 {
      assert forall i :: 0 <= i < |s[1..]| ==> s[1..][i] == s[i + 1];
      CollapseFixesClean(s[1..], p);
    }
  }

  /** A string whose only class characters are single dashes is left as it is: every run is
      already one "-". */
  lemma {:induction false} CollapseFixesSingleDashes(s: string, p: char -> bool)
    requires forall i :: 0 <= i < |s| && p(s[i]) ==> s[i] == '-'
    requires NoDoubleDash(s)
    ensures CollapseRuns(s, p) == s
    decreases |s|
  {
    if |s| > 0 {
      assert NoDoubleDash(s[1..]) by {
        forall i | 0 <= i < |s[1..]| - 1 ensures !(s[1..][i] == '-' && s[1..][i + 1] == '-') {
          assert s[1..][i] == s[i + 1] && s[1..][i + 1] == s[i + 2];
        }
      }
      assert forall i :: 0 <= i < |s[1..]| ==> s[1..][i] == s[i + 1];
      CollapseFixesSingleDashes(s[1..], p);
      if p(s[0]) {
        assert DropRun(s, p) == s[1..];
      }
    }
  }

  /** `replace(/^-|-$/g, "")`: one leading "-", then one trailing "-", is removed. */
  function TrimDashes(s: string): (r: string)
    ensures |r| <= |s|
    ensures forall i :: 0 <= i < |r| ==> r[i] in s
    ensures NoEdgeDash(s) ==> r == s
    ensures NoDoubleDash(s) ==> NoDoubleDash(r) && NoEdgeDash(r)
  {
    var t := if |s| > 0 && s[0] == '-' then s[1..] else s;
    assert forall i :: 0 <= i < |t| ==> t[i] in s;
    if |t| > 0 && t[|t| - 1] == '-' then t[..|t| - 1] else t
  }
}
