/**
 * The capture watcher: which capture files it hands to SLIPS, the markers
 * that keep it from handing the same file over twice, the libpcap record
 * walk that finds a capture's first and last timestamps, and the guarded
 * rename of the SLIPS output directory. Active-capture snapshots are off
 * (`PROCESS_ACTIVE` is false), so only that configuration is modelled.
 */
module WatchPcaps {
  import opened Wrappers
  import opened Text

  newtype byte = x: int | 0 <= x < 256

  const PROCESS_ACTIVE: bool := false
  const SKIP_ACTIVE: set<string> := {"router.pcap", "router_stream.pcap", "switch_stream.pcap", "server.pcap"}
  const SKIP_PREFIXES: seq<string> := ["router_stream", "switch_stream", "server_stream"]

  /** A directory entry as `stat` sees it; `size` is `None` when the file vanished before `stat`. */
  datatype FileInfo = FileInfo(name: string, isFile: bool, size: Option<nat>, mtime: int)

  /** The index of the dot that starts `Path.suffix`, or `|name|` when there is no suffix. */
  function SuffixStart(name: string): (i: nat)
    ensures i <= |name|
    ensures i < |name| ==> 0 < i < |name| - 1 && name[i] == '.' && '.' !in name[i + 1..]
  {
    var j := LastDot(name, |name|);
    if j.Some? && 0 < j.value < |name| - 1 then j.value else |name|
  }

  /** The last dot before index `n`. */
  function LastDot(name: string, n: nat): (r: Option<nat>)
    requires n <= |name|
    ensures r.Some? ==> r.value < n && name[r.value] == '.' && forall k :: r.value < k < n ==> name[k] != '.'
    ensures r.None? ==> forall k :: 0 <= k < n ==> name[k] != '.'
  {
    if n == 0 then None
    else if name[n - 1] == '.' then Some(n - 1)
    else LastDot(name, n - 1)
  }

  function Suffix(name: string): string {
    name[SuffixStart(name)..]
  }

  function Stem(name: string): string {
    name[..SuffixStart(name)]
  }

  /** `Path.suffix == ".gz"` holds exactly for names of more than three characters ending in ".gz". */
  lemma GzSuffix(name: string)
    ensures Suffix(name) == ".gz" <==> |name| > 3 && EndsWith(name, ".gz")
  {
    var i := SuffixStart(name);
    if |name| > 3 && EndsWith(name, ".gz") {
      assert name[|name| - 3..] == ".gz";
      assert name[|name| - 3] == '.' && name[|name| - 2] == 'g' && name[|name| - 1] == 'z';
      var j := LastDot(name, |name|);
      assert j == Some(|name| - 3);
    }
    if Suffix(name) == ".gz" {
      assert i == |name| - 3;
    }
  }

  predicate HasSkipPrefix(name: string) {
    exists p | p in SKIP_PREFIXES :: StartsWith(name, p)
  }

  /**
   * `_eligible`: the first reason that applies, in the order active capture,
   * stream prefix, not a regular file, compressed, vanished, empty.
   */
  function EligibleCheck(f: FileInfo): (r: (bool, string))
    ensures r.0 <==> !(f.name in SKIP_ACTIVE) && !HasSkipPrefix(f.name) && f.isFile && Suffix(f.name) != ".gz"
                     && f.size.Some? && f.size.value > 0
    ensures r.0 ==> r.1 == ""
    ensures f.name in SKIP_ACTIVE ==> r == (false, "skip_active")
    ensures f.name !in SKIP_ACTIVE && HasSkipPrefix(f.name) ==> r == (false, "skip_prefix")
    ensures f.name !in SKIP_ACTIVE && !HasSkipPrefix(f.name) && !f.isFile ==> r == (false, "not_file")
  {
    if f.name in SKIP_ACTIVE && !PROCESS_ACTIVE then (false, "skip_active")
    else if HasSkipPrefix(f.name) then (false, "skip_prefix")
    else if !f.isFile then (false, "not_file")
    else if Suffix(f.name) == ".gz" then (false, "gzip")
    else match f.size
      case None => (false, "missing")
      case Some(n) => if n == 0 then (false, "empty") else (true, "")
  }

  /** The marker `name:mtime:size` of a file that `stat` could read. */
  function Marker(f: FileInfo): string
    requires f.size.Some?
  {
    f.name + ":" + IntToString(f.mtime) + ":" + NatToString(f.size.value)
  }

  /**
   * Reference definition of one poll of `main`: the markers of the files it
   * hands to SLIPS, in order. Success, timeout and failure alike add the
   * marker, so a marker is handed over once.
   */
  function RunMarkers(processed: set<string>, files: seq<FileInfo>): seq<string>
    decreases |files|
  {
    if files == [] then []
    else
      var f := files[0];
      if EligibleCheck(f).0 && Marker(f) !in processed then [Marker(f)] + RunMarkers(processed + {Marker(f)}, files[1..])
      else RunMarkers(processed, files[1..])
  }

  /** A poll never hands over a processed marker, nor the same marker twice. */
  lemma {:induction false} RunMarkersFresh(processed: set<string>, files: seq<FileInfo>)
    ensures forall m :: m in RunMarkers(processed, files) ==> m !in processed
    ensures forall i, j :: 0 <= i < j < |RunMarkers(processed, files)| ==>
      RunMarkers(processed, files)[i] != RunMarkers(processed, files)[j]
    decreases |files|
  {
    if files != [] {
      var f := files[0];
      if EligibleCheck(f).0 && Marker(f) !in processed {
        RunMarkersFresh(processed + {Marker(f)}, files[1..]);
        var rest := RunMarkers(processed + {Marker(f)}, files[1..]);
        assert RunMarkers(processed, files) == [Marker(f)] + rest;
        forall i, j | 0 <= i < j < |RunMarkers(processed, files)|
          ensures RunMarkers(processed, files)[i] != RunMarkers(processed, files)[j]
        {
          if i > 0 {
            assert RunMarkers(processed, files)[i] == rest[i - 1];
          }
          assert RunMarkers(processed, files)[j] == rest[j - 1];
        }
      } else {
        RunMarkersFresh(processed, files[1..]);
      }
    }
  }

  /** The watcher's in-memory marker set. */
  class Watcher {
    var processed: set<string>

    constructor ()
      ensures processed == {}
    {
      processed := {};
    }

    /** One pass of `main` over the capture files, already in modification-time order. */
    method Poll(files: seq<FileInfo>) returns (ran: seq<string>)
      modifies this
      ensures ran == RunMarkers(old(processed), files)
      ensures processed == old(processed) + set m | m in ran
    {
      ran := [];
      var i := 0;
      while i < |files|
        invariant 0 <= i <= |files|
        invariant ran + RunMarkers(processed, files[i..]) == RunMarkers(old(processed), files)
        invariant processed == old(processed) + set m | m in ran
      {
        assert files[i..][0] == files[i] && files[i..][1..] == files[i + 1..];
        var f := files[i];
        var ok := EligibleCheck(f);
        if ok.0 {
          var marker := Marker(f);
          if marker !in processed {
            ran := ran + [marker];
            processed := processed + {marker};
          }
        }
        i := i + 1;
      }
    }
  }

  /** `int.from_bytes` of four bytes at `off`. */
  function U32(data: seq<byte>, off: nat, big: bool): nat
    requires off + 4 <= |data|
  {
    var b0, b1, b2, b3 := data[off] as nat, data[off + 1] as nat, data[off + 2] as nat, data[off + 3] as nat;
    if big then ((b0 * 256 + b1) * 256 + b2) * 256 + b3
    else ((b3 * 256 + b2) * 256 + b1) * 256 + b0
  }

  /** A record header's timestamp, in microseconds since the epoch. */
  function RecordTime(data: seq<byte>, off: nat, big: bool): int
    requires off + 16 <= |data|
  {
    U32(data, off, big) * 1000000 + U32(data, off + 4, big)
  }

  /**
   * The timestamps of the record headers read from `off`: a header is read
   * whenever 16 bytes remain, the walk advances by 16 plus the included
   * length, and stops once that passes the end of the data.
   */
  function Walk(data: seq<byte>, off: nat, big: bool): seq<int>
    decreases |data| - off
  {
    if off + 16 > |data| then []
    else
      var next := off + 16 + U32(data, off + 8, big);
      if next > |data| then [RecordTime(data, off, big)]
      else [RecordTime(data, off, big)] + Walk(data, next, big)
  }

  /** The byte order the little-endian magic announces, if it is a libpcap magic. */
  function ByteOrder(data: seq<byte>): Option<bool>
    requires |data| >= 4
  {
    var magic := U32(data, 0, false);
    if magic == 0xA1B2C3D4 then Some(false)
    else if magic == 0xD4C3B2A1 then Some(true)
    else None
  }

  /** The reference definition of `_pcap_bounds`. */
  function Bounds(data: seq<byte>): (r: Option<(int, int)>)
    ensures |data| < 24 ==> r.None?
    ensures |data| >= 24 && ByteOrder(data).None? ==> r.None?
    ensures r.Some? ==>
      (|data| >= 40 && ByteOrder(data).Some? && r.value.0 == RecordTime(data, 24, ByteOrder(data).value))
  {
    if |data| < 24 then None
    else match ByteOrder(data)
      case None => None
      case Some(big) => Ends(Walk(data, 24, big))
  }

  /** The first and last of a sequence of timestamps. */
  function Ends(w: seq<int>): Option<(int, int)> {
    if w == [] then None else Some((w[0], w[|w| - 1]))
  }

  /** A capture without room for one record header has no bounds. */
  lemma NoHeaderNoBounds(data: seq<byte>)
    requires |data| < 40
    ensures Bounds(data).None?
  {
  }

  /** A first record whose body runs past the end still gives both bounds. */
  lemma TruncatedRecordCounts(data: seq<byte>)
    requires |data| >= 40 && ByteOrder(data).Some?
    requires 40 + U32(data, 32, ByteOrder(data).value) > |data|
    ensures var t := RecordTime(data, 24, ByteOrder(data).value); Bounds(data) == Some((t, t))
  {
  }

  /** Every walked header lies inside the data, so a walk reads at most one header per 16 bytes. */
  lemma {:induction false} WalkLength(data: seq<byte>, off: nat, big: bool)
    requires off <= |data|
    ensures |Walk(data, off, big)| <= (|data| - off) / 16
    decreases |data| - off
  {
    if off + 16 <= |data| {
      var next := off + 16 + U32(data, off + 8, big);
      if next <= |data| {
        WalkLength(data, next, big);
      }
    }
  }

  /** The bounds of two consecutive stretches of records. */
  function Merge(a: Option<(int, int)>, b: Option<(int, int)>): Option<(int, int)> {
    if a.None? then b else if b.None? then a else Some((a.value.0, b.value.1))
  }

  /** The bounds of a walk are those of its first header merged with those of the rest. */
  lemma EndsCons(ts: int, rest: seq<int>)
    ensures Ends([ts] + rest) == Merge(Some((ts, ts)), Ends(rest))
  {
  }

  /** One step of the walk: the header at `off`, then the walk from the next record if it starts inside the data. */
  lemma WalkStep(data: seq<byte>, off: nat, big: bool)
    requires off + 16 <= |data|
    ensures var next := off + 16 + U32(data, off + 8, big);
      Walk(data, off, big) == [RecordTime(data, off, big)] + (if next > |data| then [] else Walk(data, next, big))
  {
  }

  /**
   * Reads the record header at `off`: its timestamp and where the next record
   * starts. The bounds from `off` are this header's merged with the bounds
   * from the next record, if it starts inside the data.
   */
  method ReadHeader(data: seq<byte>, off: nat, big: bool) returns (ts: int, next: nat)
    requires off + 16 <= |data|
    ensures next > off
    ensures Ends(Walk(data, off, big)) == Merge(Some((ts, ts)), if next > |data| then None else Ends(Walk(data, next, big)))
  {
    ts := RecordTime(data, off, big);
    next := off + 16 + U32(data, off + 8, big);
    WalkStep(data, off, big);
    ghost var rest := if next > |data| then [] else Walk(data, next, big);
    EndsCons(ts, rest);
  }

  /** The loop of `_pcap_bounds` over the record headers from offset 24. */
  method WalkHeaders(data: seq<byte>, big: bool) returns (r: Option<(int, int)>)
    ensures r == Ends(Walk(data, 24, big))
  {
    var offset: nat := 24;
    var first: Option<int> := None;
    var last: Option<int> := None;
    ghost var bounds := Ends(Walk(data, offset, big));
    while offset + 16 <= |data|
      invariant first.None? <==> last.None?
      invariant Merge(if first.None? then None else Some((first.value, last.value)), Ends(Walk(data, offset, big))) == bounds
      decreases |data| - offset
    {
      var ts, next := ReadHeader(data, offset, big);
      if first.None? {
        first := Some(ts);
      }
      last := Some(ts);
      offset := next;
      if offset > |data| {
        break;
      }
    }
    if first.None? || last.None? {
      return None;
    }
    return Some((first.value, last.value));
  }

  /** `_pcap_bounds` on the bytes of a capture: the header checks, then the record loop. */
  method PcapBounds(data: seq<byte>) returns (r: Option<(int, int)>)
    ensures r == Bounds(data)
  {
    if |data| < 24 {
      return None;
    }
    var magic := U32(data, 0, false);
    var big: bool;
    if magic == 0xA1B2C3D4 {
      big := false;
    } else if magic == 0xD4C3B2A1 {
      big := true;
    } else {
      return None;
    }
    r := WalkHeaders(data, big);
  }

  /** An entry of the SLIPS output directory. */
  datatype Entry = Entry(name: string, isDir: bool, mtime: int)

  /** `max(candidates, key=mtime)`: the first entry of greatest modification time. */
  function Latest(c: seq<Entry>): (r: Entry)
    requires c != []
    ensures r in c && forall d :: d in c ==> d.mtime <= r.mtime
  {
    if |c| == 1 then c[0]
    else
      var rest := Latest(c[1..]);
      assert forall d :: d in c[1..] ==> d in c;
      if rest.mtime > c[0].mtime then rest else c[0]
  }

  /** The output directories SLIPS wrote for the capture. */
  function Candidates(pcapName: string, listing: seq<Entry>): (c: seq<Entry>)
    ensures forall d :: d in c <==> d in listing && d.isDir && StartsWith(d.name, pcapName + "_")
  {
    if listing == [] then []
    else
      var rest := Candidates(pcapName, listing[1..]);
      if listing[0].isDir && StartsWith(listing[0].name, pcapName + "_") then [listing[0]] + rest else rest
  }

  /**
   * `_rename_output_dir`: the rename it performs, from and to, if any.
   * `stamp` is `strftime("%Y-%m-%d_%H-%M-%S")` of a microsecond timestamp,
   * and `renameOk` whether the rename went through.
   */
  function RenameOutputDir(pcapName: string, bounds: Option<(int, int)>, listing: seq<Entry>,
                           stamp: int -> string, renameOk: bool): (r: Option<(string, string)>)
    ensures r.Some? ==> forall d :: d in listing ==> d.name != r.value.1
    ensures r.Some? ==> bounds.Some? && r.value.1 == Stem(pcapName) + "_" + stamp(bounds.value.0) + "_to_" + stamp(bounds.value.1)
    ensures r.Some? ==> exists d :: d in listing && d.isDir && d.name == r.value.0 && StartsWith(d.name, pcapName + "_")
  {
    match bounds
    case None => None
    case Some((start, end)) =>
      var c := Candidates(pcapName, listing);
      if c == [] then None
      else
        var latest := Latest(c);
        var newName := Stem(pcapName) + "_" + stamp(start) + "_to_" + stamp(end);
        if exists d | d in listing :: d.name == newName then None
        else if !renameOk then None
        else Some((latest.name, newName))
  }
}
