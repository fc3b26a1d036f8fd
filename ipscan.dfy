/**
 * `re.findall(r'(\d+\.\d+\.\d+\.\d+)', text)`: the dotted quads of a text,
 * leftmost first and non-overlapping. `\d` is taken as the ASCII digits.
 * A run of digits can never be followed by a digit, so the greedy `\d+`
 * never needs to backtrack and the match at each position is unique.
 */
module IpScan {
  import opened Wrappers
  import opened Text

  /** End of the run of digits that starts at `i`. */
  function DigitsEnd(s: string, i: nat): (j: nat)
    requires i <= |s|
    ensures i <= j <= |s|
    ensures forall k :: i <= k < j ==> IsDigit(s[k])
    ensures j < |s| ==> !IsDigit(s[j])
    decreases |s| - i
  {
    if i < |s| && IsDigit(s[i]) then DigitsEnd(s, i + 1) else i
  }

  /** Where a digit group followed by `n` more `.`-digit groups, starting at `i`, ends. */
  function GroupsEnd(s: string, i: nat, n: nat): (r: Option<nat>)
    requires i <= |s|
    ensures r.Some? ==> i < r.value <= |s|
    decreases n
  {
    var j := DigitsEnd(s, i);
    if j == i then None
    else if n == 0 then Some(j)
    else if j < |s| && s[j] == '.' then GroupsEnd(s, j + 1, n - 1)
    else None
  }

  /** `DigitsEnd` is the only end of a digit run: all digits before it, none at it. */
  lemma {:induction false} DigitsEndUnique(s: string, i: nat, j: nat)
    requires i <= j <= |s|
    requires forall k :: i <= k < j ==> IsDigit(s[k])
    requires j < |s| ==> !IsDigit(s[j])
    ensures DigitsEnd(s, i) == j
    decreases j - i
  {
    if i < j {
      DigitsEndUnique(s, i + 1, j);
    }
  }

  /** A digit group followed by `n` more `.`-digit groups, spanning all of `t`. */
  predicate DigitGroups(t: string, n: nat)
    decreases n
  {
    var j := DigitsEnd(t, 0);
    0 < j && if n == 0 then j == |t| else j < |t| && t[j] == '.' && DigitGroups(t[j + 1..], n - 1)
  }

  /** Four non-empty digit groups joined by dots. */
  predicate IsQuad(t: string) {
    DigitGroups(t, 3)
  }

  /** Cutting `s` at `i` and at any point at or after its digit run leaves that run in place. */
  lemma SliceDigitsEnd(s: string, i: nat, e: nat)
    requires i <= e <= |s| && DigitsEnd(s, i) <= e
    ensures DigitsEnd(s[i..e], 0) == DigitsEnd(s, i) - i
  {
    var j := DigitsEnd(s, i);
    var t := s[i..e];
    forall k | 0 <= k < j - i
      ensures IsDigit(t[k])
    {
      assert t[k] == s[i + k];
    }
    if j < e {
      assert t[j - i] == s[j];
    }
    DigitsEndUnique(t, 0, j - i);
  }

  /** The text matched by `GroupsEnd` consists of `n + 1` dot-separated digit groups. */
  lemma {:induction false} GroupsEndSplits(s: string, i: nat, n: nat)
    requires i <= |s| && GroupsEnd(s, i, n).Some?
    ensures DigitGroups(s[i..GroupsEnd(s, i, n).value], n)
    decreases n
  {
    var e := GroupsEnd(s, i, n).value;
    var j := DigitsEnd(s, i);
    var t := s[i..e];
    SliceDigitsEnd(s, i, e);
    if n > 0 {
      assert t[j - i] == s[j];
      GroupsEndSplits(s, j + 1, n - 1);
      assert t[j - i + 1..] == s[j + 1..e];
    }
  }

  /** `re.findall` of dotted quads over `s[from..]`: every match is a dotted quad. */
  function FindAllFrom(s: string, from: nat): (r: seq<string>)
    requires from <= |s|
    ensures forall k :: 0 <= k < |r| ==> IsQuad(r[k])
    decreases |s| - from
  {
    if from == |s| then []
    else match GroupsEnd(s, from, 3)
      case Some(e) =>
        GroupsEndSplits(s, from, 3);
        [s[from..e]] + FindAllFrom(s, e)
      case None => FindAllFrom(s, from + 1)
  }

  /** The dotted quads of `s`, leftmost first. */
  function FindIPs(s: string): seq<string> {
    FindAllFrom(s, 0)
  }
}
