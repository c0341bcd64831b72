/** Trimming, as the string functions of Python and Rust do it. */
module Strings {

  function LeftTrim(s: string, drop: char -> bool): string {
    if s == "" || !drop(s[0]) then s else LeftTrim(s[1..], drop)
  }

  function RightTrim(s: string, drop: char -> bool): string {
    if s == "" || !drop(s[|s| - 1]) then s else RightTrim(s[..|s| - 1], drop)
  }

  /** `s` without the characters at its ends that are to be dropped. */
  function Trim(s: string, drop: char -> bool): string {
    RightTrim(LeftTrim(s, drop), drop)
  }

  lemma {:induction false} RightTrimMeans(s: string, drop: char -> bool)
    ensures var r := RightTrim(s, drop);
            && r <= s
            && (r != "" ==> !drop(r[|r| - 1]))
            && (forall i :: |r| <= i < |s| ==> drop(s[i]))
  {
    if s != "" && drop(s[|s| - 1]) {
      RightTrimMeans(s[..|s| - 1], drop);
    }
  }

  lemma {:induction false} LeftTrimMeans(s: string, drop: char -> bool)
    ensures var r := LeftTrim(s, drop);
            && |r| <= |s| && r == s[|s| - |r|..]
            && (r != "" ==> !drop(r[0]))
            && (forall i :: 0 <= i < |s| - |r| ==> drop(s[i]))
  {
    if s != "" && drop(s[0]) {
      LeftTrimMeans(s[1..], drop);
      var r := LeftTrim(s[1..], drop);
      var n := |s| - |r|;
      assert s[1..][n - 1..] == s[n..];
      forall i | 0 <= i < n ensures drop(s[i]) {
        assert i > 0 ==> s[i] == s[1..][i - 1];
      }
    } else {
      assert s[0..] == s;
    }
  }

  /** What is left is the part between two ends that are to be dropped. */
  ghost predicate IsTrimmed(t: string, s: string, drop: char -> bool) {
    exists i, j :: 0 <= i <= j <= |s| && t == s[i..j] && AllDropped(s[..i], drop) && AllDropped(s[j..], drop)
                   && (i < j ==> !drop(s[i]) && !drop(s[j - 1]))
  }

  predicate AllDropped(s: string, drop: char -> bool) {
    forall i :: 0 <= i < |s| ==> drop(s[i])
  }

  lemma TrimIsTrimmed(s: string, drop: char -> bool)
    ensures IsTrimmed(Trim(s, drop), s, drop)
  {
    var l := LeftTrim(s, drop);
    LeftTrimMeans(s, drop);
    RightTrimMeans(l, drop);
    hide LeftTrim, RightTrim;
    var i, j := |s| - |l|, |s| - |l| + |Trim(s, drop)|;
    assert Trim(s, drop) == l[..|Trim(s, drop)|] && l == s[i..];
    assert s[i..j] == Trim(s, drop);
    assert s[j..] == l[|Trim(s, drop)|..];
    assert forall k :: 0 <= k < |s[j..]| ==> s[j..][k] == l[|Trim(s, drop)| + k];
    assert AllDropped(s[..i], drop) && AllDropped(s[j..], drop);
  }

  /** Nothing is left exactly when everything is to be dropped. */
  lemma BlankIff(s: string, drop: char -> bool)
    ensures Trim(s, drop) == "" <==> AllDropped(s, drop)
  {
    TrimIsTrimmed(s, drop);
    hide Trim;
    var i, j :| 0 <= i <= j <= |s| && Trim(s, drop) == s[i..j] && AllDropped(s[..i], drop)
                && AllDropped(s[j..], drop) && (i < j ==> !drop(s[i]) && !drop(s[j - 1]));
    if i == j {
      forall k | 0 <= k < |s| ensures drop(s[k]) {
        assert if k < i then s[..i][k] == s[k] else s[j..][k - j] == s[k];
      }
    }
  }
}
