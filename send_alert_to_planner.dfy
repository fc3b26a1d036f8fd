/**
 * The manual planner trigger's alert picker: the most recent human-readable
 * SLIPS alert line of an `alerts.log`. JSON lines and heartbeat lines are
 * never picked; a file that cannot be read yields nothing.
 */
module SendAlertToPlanner {
  import opened Wrappers
  import opened Text
  import opened Json

  const HEARTBEAT_MARK: string := "\"note\":\"heartbeat\""

  /** A stripped line the picker keeps: non-empty, no heartbeat mark, not JSON, and alert-like. */
  predicate Qualifies(t: string, parse: Parser) {
    && t != []
    && !Contains(t, HEARTBEAT_MARK)
    && parse(t).None?
    && (Contains(t, "Detected") || Contains(t, "threat level:"))
  }

  /** The lines of `ts` that pass `q`, in order. */
  function Keep(ts: seq<string>, q: string -> bool): (ks: seq<string>)
    ensures |ks| <= |ts|
    ensures forall k :: 0 <= k < |ks| ==> q(ks[k])
    decreases |ts|
  {
    if ts == [] then []
    else
      var init := Keep(ts[..|ts| - 1], q);
      var t := ts[|ts| - 1];
      if q(t) then init + [t] else init
  }

  /** The qualifying stripped lines, in file order. */
  function Kept(ts: seq<string>, parse: Parser): (ks: seq<string>)
    ensures |ks| <= |ts|
    ensures forall k :: 0 <= k < |ks| ==> Qualifies(ks[k], parse)
  {
    Keep(ts, t => Qualifies(t, parse))
  }

  /** Nothing is kept exactly when no line passes. */
  lemma {:induction false} KeepEmpty(ts: seq<string>, q: string -> bool)
    ensures Keep(ts, q) == [] <==> forall i :: 0 <= i < |ts| ==> !q(ts[i])
    decreases |ts|
  {
    if ts != [] {
      var init := ts[..|ts| - 1];
      KeepEmpty(init, q);
      assert forall i :: 0 <= i < |init| ==> init[i] == ts[i];
    }
  }

  /** `ts[i]` passes and no later line does. */
  predicate LastPassing(ts: seq<string>, q: string -> bool, i: int) {
    0 <= i < |ts| && q(ts[i]) && forall j :: i < j < |ts| ==> !q(ts[j])
  }

  /** A line that fails keeps the last passing line of what came before. */
  lemma LastPassingExtend(ts: seq<string>, q: string -> bool, i: int)
    requires ts != [] && !q(ts[|ts| - 1]) && LastPassing(ts[..|ts| - 1], q, i)
    ensures LastPassing(ts, q, i)
  {
    var init := ts[..|ts| - 1];
    assert init[i] == ts[i];
    assert forall j :: i < j < |init| ==> init[j] == ts[j];
  }

  /** The last kept line is a passing line after which no line passes. */
  lemma {:induction false} KeepLast(ts: seq<string>, q: string -> bool)
    requires Keep(ts, q) != []
    ensures var ks := Keep(ts, q); exists i :: LastPassing(ts, q, i) && ks[|ks| - 1] == ts[i]
    decreases |ts|
  {
    var n := |ts| - 1;
    var init := ts[..n];
    if q(ts[n]) {
      assert LastPassing(ts, q, n);
    } else {
      assert Keep(ts, q) == Keep(init, q);
      KeepLast(init, q);
      var ks := Keep(init, q);
      var i :| LastPassing(init, q, i) && ks[|ks| - 1] == init[i];
      LastPassingExtend(ts, q, i);
      assert init[i] == ts[i];
    }
  }

  /** Nothing is kept exactly when no line qualifies. */
  lemma KeptEmpty(ts: seq<string>, parse: Parser)
    ensures Kept(ts, parse) == [] <==> forall i :: 0 <= i < |ts| ==> !Qualifies(ts[i], parse)
  {
    KeepEmpty(ts, t => Qualifies(t, parse));
  }

  /** The last kept line is a qualifying line after which no line qualifies. */
  lemma KeptLast(ts: seq<string>, parse: Parser)
    requires Kept(ts, parse) != []
    ensures var ks := Kept(ts, parse);
      exists i :: 0 <= i < |ts| && ks[|ks| - 1] == ts[i] && Qualifies(ts[i], parse)
        && forall j :: i < j < |ts| ==> !Qualifies(ts[j], parse)
  {
    var q := t => Qualifies(t, parse);
    KeepLast(ts, q);
    var i :| LastPassing(ts, q, i) && Keep(ts, q)[|Keep(ts, q)| - 1] == ts[i];
    assert Qualifies(ts[i], parse);
  }

  /**
   * `get_latest_alert_from_file` on the stripped lines that were read: the
   * last qualifying one, or `None` when none qualifies.
   */
  function LatestOf(ts: seq<string>, parse: Parser): (r: Option<string>)
    ensures r.None? <==> forall i :: 0 <= i < |ts| ==> !Qualifies(ts[i], parse)
    ensures r.Some? ==> parse(r.value).None? && !Contains(r.value, HEARTBEAT_MARK)
    ensures r.Some? ==>
      exists i :: 0 <= i < |ts| && r.value == ts[i] && Qualifies(ts[i], parse)
        && forall j :: i < j < |ts| ==> !Qualifies(ts[j], parse)
  {
    KeptEmpty(ts, parse);
    var ks := Kept(ts, parse);
    if ks == [] then None
    else
      KeptLast(ts, parse);
      Some(ks[|ks| - 1])
  }

  /**
   * The picker's loop: every line is stripped and kept when it qualifies;
   * the answer is the last kept one. `file` is `None` when reading failed.
   */
  method LatestAlert(file: Option<seq<string>>, parse: Parser) returns (r: Option<string>)
    ensures file.None? ==> r.None?
    ensures file.Some? ==> r == LatestOf(StripAll(file.value), parse)
  {
    if file.None? {
      return None;
    }
    var lines := file.value;
    ghost var ts := StripAll(lines);
    var alerts: seq<string> := [];
    var i := 0;
    while i < |lines|
      invariant 0 <= i <= |lines|
      invariant alerts == Kept(ts[..i], parse)
    {
      assert ts[..i + 1][..i] == ts[..i];
      var t := Strip(lines[i]);
      assert t == ts[i];
      if t != [] && !Contains(t, HEARTBEAT_MARK) {
        if parse(t).None? {
          if Contains(t, "Detected") || Contains(t, "threat level:") {
            alerts := alerts + [t];
          }
        }
      }
      i := i + 1;
    }
    assert ts[..i] == ts;
    if alerts == [] {
      return None;
    }
    r := Some(alerts[|alerts| - 1]);
  }
}
