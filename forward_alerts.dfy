/**
 * The alert forwarder: for each SLIPS `alerts.log` it remembers how far it
 * has forwarded, posts every new non-blank line to the defender, and only
 * moves its offset past the lines once all of them were posted. A file is
 * read as one snapshot whose characters are its bytes.
 */
module ForwardAlerts {
  import opened Wrappers
  import opened Text
  import opened Json

  /** The payload posted for a stripped line: the decoded value, or the raw line when it is not JSON. */
  function Payload(line: string, parse: Parser, runId: string): (v: Value)
    ensures parse(line).Some? ==> v == parse(line).value
    ensures parse(line).None? ==> v == Obj(map["raw" := Str(line), "run_id" := Str(runId)])
  {
    match parse(line)
    case Some(v) => v
    case None => Obj(map["raw" := Str(line), "run_id" := Str(runId)])
  }

  /** The payloads of the non-empty stripped lines, in order. */
  function Payloads(ts: seq<string>, parse: Parser, runId: string): (ps: seq<Value>)
    ensures |ps| <= |ts|
    decreases |ts|
  {
    if ts == [] then []
    else
      var init := Payloads(ts[..|ts| - 1], parse, runId);
      var t := ts[|ts| - 1];
      if t == [] then init else init + [Payload(t, parse, runId)]
  }

  /** Blank lines contribute nothing, so a file of blank lines posts nothing. */
  lemma BlankLinesPostNothing(lines: seq<string>, parse: Parser, runId: string)
    requires forall i :: 0 <= i < |lines| ==> IsBlank(lines[i])
    ensures Payloads(StripAll(lines), parse, runId) == []
  {
    forall i | 0 <= i < |lines| {
      StripBlank(lines[i]);
    }
    EmptyLinesPostNothing(StripAll(lines), parse, runId);
  }

  lemma {:induction false} EmptyLinesPostNothing(ts: seq<string>, parse: Parser, runId: string)
    requires forall i :: 0 <= i < |ts| ==> ts[i] == []
    ensures Payloads(ts, parse, runId) == []
    decreases |ts|
  {
    if ts != [] {
      EmptyLinesPostNothing(ts[..|ts| - 1], parse, runId);
    }
  }

  /** The number of leading posts that succeed, out of `n`. */
  function FirstFailure(n: nat, postOk: nat -> bool, from: nat): (f: nat)
    requires from <= n
    ensures from <= f <= n
    ensures forall j :: from <= j < f ==> postOk(j)
    ensures f < n ==> !postOk(f)
    decreases n - from
  {
    if from == n then n
    else if !postOk(from) then from
    else FirstFailure(n, postOk, from + 1)
  }

  /**
   * The posting loop over the stripped lines read: the j-th post succeeds
   * when `postOk(j)`. It stops at the first failure, which it attempted;
   * `success` says none failed.
   */
  method PostLines(ts: seq<string>, parse: Parser, runId: string, postOk: nat -> bool)
    returns (posted: seq<Value>, success: bool)
    ensures var ps := Payloads(ts, parse, runId);
      var f := FirstFailure(|ps|, postOk, 0);
      && (success <==> f == |ps|)
      && posted == ps[..if success then |ps| else f + 1]
  {
    posted := [];
    success := true;
    var i := 0;
    while i < |ts|
      invariant 0 <= i <= |ts|
      invariant posted == Payloads(ts[..i], parse, runId)
      invariant forall j :: 0 <= j < |posted| ==> postOk(j)
    {
      assert ts[..i + 1][..i] == ts[..i] && ts[..i + 1][i] == ts[i];
      var t := ts[i];
      if t != [] {
        var payload := Payload(t, parse, runId);
        if !postOk(|posted|) {
          posted := posted + [payload];
          success := false;
          PayloadsPrefix(ts, i + 1, parse, runId);
          ghost var ps := Payloads(ts, parse, runId);
          assert posted == ps[..|posted|];
          FirstFailureAt(|ps|, postOk, |posted| - 1);
          return;
        }
        posted := posted + [payload];
      }
      i := i + 1;
    }
    assert ts[..i] == ts;
    FirstFailureNone(|posted|, postOk, 0);
  }

  /** The payloads of a prefix of the lines are a prefix of the payloads. */
  lemma {:induction false} PayloadsPrefix(ts: seq<string>, k: nat, parse: Parser, runId: string)
    requires k <= |ts|
    ensures var p := Payloads(ts[..k], parse, runId);
      var ps := Payloads(ts, parse, runId);
      |p| <= |ps| && p == ps[..|p|]
    decreases |ts| - k
  {
    if k < |ts| {
      PayloadsPrefix(ts, k + 1, parse, runId);
      assert ts[..k + 1][..k] == ts[..k];
      var p0 := Payloads(ts[..k], parse, runId);
      var p1 := Payloads(ts[..k + 1], parse, runId);
      assert p0 == p1[..|p0|];
    } else {
      assert ts[..k] == ts;
    }
  }

  lemma {:induction false} FirstFailureAt(n: nat, postOk: nat -> bool, k: nat)
    requires k < n && !postOk(k) && forall j :: 0 <= j < k ==> postOk(j)
    ensures FirstFailure(n, postOk, 0) == k
  {
  }

  lemma FirstFailureNone(n: nat, postOk: nat -> bool, from: nat)
    requires from <= n && forall j :: from <= j < n ==> postOk(j)
    ensures FirstFailure(n, postOk, from) == n
  {
  }

  /** The forwarder's offset table, keyed by log path. */
  class Forwarder {
    var positions: map<string, nat>

    constructor ()
      ensures positions == map[]
    {
      positions := map[];
    }

    /**
     * One file of a poll of `main`. `content` is `None` when the file
     * vanished. A shrunken file is read from 0; a file whose size equals
     * the offset is skipped; otherwise the lines after the offset are
     * posted, and the offset moves to the end only if every post succeeded.
     */
    method ForwardFile(path: string, content: Option<string>, parse: Parser, runId: string, postOk: nat -> bool)
      returns (posted: seq<Value>)
      modifies this
      ensures content.None? ==> posted == [] && positions == old(positions)
      ensures content.Some? ==>
        var size := |content.value|;
        var previous := if path in old(positions) then old(positions)[path] else 0;
        var start := if size < previous then 0 else previous;
        var ps := Payloads(StripAll(Split(content.value[start..], '\n')), parse, runId);
        var f := FirstFailure(|ps|, postOk, 0);
        if size == start then posted == [] && positions == old(positions)
        else
          && posted == ps[..if f == |ps| then |ps| else f + 1]
          && positions == old(positions)[path := if f == |ps| then size else start]
    {
      if content.None? {
        return [];
      }
      var data := content.value;
      var previous := if path in positions then positions[path] else 0;
      if |data| < previous {
        previous := 0;
      }
      if |data| == previous {
        return [];
      }
      var startPos := previous;
      var success;
      posted, success := PostLines(StripAll(Split(data[previous..], '\n')), parse, runId, postOk);
      if success {
        positions := positions[path := |data|];
      } else {
        positions := positions[path := startPos];
      }
    }
  }
}
