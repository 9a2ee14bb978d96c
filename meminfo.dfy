/**
 * The /proc/meminfo part of readValues: the five memory fields of a Values
 * object, read line by line from the text of the file.
 */
module Meminfo {
  import opened Wrappers
  import opened Tools

  /** The memory fields of a Values object (penistats.py:50-58); each stays None until a line sets it. */
  datatype MemValues = MemValues(
    memTotalKB: Option<int>,
    memFreeKB: Option<int>,
    memAvailKB: Option<int>,
    swapTotalKB: Option<int>,
    swapFreeKB: Option<int>)

  const NoValues := MemValues(None, None, None, None, None)

  /** The keys the elif chain recognises. */
  datatype MemKey = MemTotal | MemFree | MemAvailable | SwapTotal | SwapFree

  /** The lower-case prefix a line about `k` starts with. */
  function Prefix(k: MemKey): string {
    match k
    case MemTotal => "memtotal"
    case MemFree => "memfree"
    case MemAvailable => "memavailable"
    case SwapTotal => "swaptotal"
    case SwapFree => "swapfree"
  }

  function Get(v: MemValues, k: MemKey): Option<int> {
    match k
    case MemTotal => v.memTotalKB
    case MemFree => v.memFreeKB
    case MemAvailable => v.memAvailKB
    case SwapTotal => v.swapTotalKB
    case SwapFree => v.swapFreeKB
  }

  /** `values.<field of k> = n`: that field becomes n, the others keep their values. */
  function Set(v: MemValues, k: MemKey, n: int): (r: MemValues)
    ensures Get(r, k) == Some(n)
    ensures forall j :: j != k ==> Get(r, j) == Get(v, j)
  {
    match k
    case MemTotal => v.(memTotalKB := Some(n))
    case MemFree => v.(memFreeKB := Some(n))
    case MemAvailable => v.(memAvailKB := Some(n))
    case SwapTotal => v.(swapTotalKB := Some(n))
    case SwapFree => v.(swapFreeKB := Some(n))
  }

  /** The if/elif chain on the lower-cased line (penistats.py:419-428): the first prefix it starts with. */
  function KeyOf(lcline: string): Option<MemKey> {
    if StartsWith(lcline, "memtotal") then Some(MemTotal)
    else if StartsWith(lcline, "memfree") then Some(MemFree)
    else if StartsWith(lcline, "memavailable") then Some(MemAvailable)
    else if StartsWith(lcline, "swaptotal") then Some(SwapTotal)
    else if StartsWith(lcline, "swapfree") then Some(SwapFree)
    else None
  }

  /** No prefix is a prefix of another, so the order of the elif chain does not matter: a line is about k iff it starts with k's prefix. */
  lemma {:induction false} KeyOfMatchesPrefix(lcline: string, k: MemKey)
    ensures KeyOf(lcline) == Some(k) <==> StartsWith(lcline, Prefix(k))
  {
    if StartsWith(lcline, Prefix(k)) {
      var p := Prefix(k);
      assert lcline[..|p|] == p;
      assert lcline[0] == p[0] && lcline[3] == p[3] && lcline[4] == p[4];
    }
  }

  /** What one line does to the scan. */
  datatype LineEffect = Stop | Skip | Assign(key: MemKey, value: int)

  /** The digits and dots after the first colon of a stripped line that has one. */
  function ValueText(line: string, idx: nat): string
    requires idx < |line|
  {
    FilterNumeric(line[idx + 1..])
  }

  /**
   * The body of the meminfo for-loop (penistats.py:415-428) for one line:
   * line.index(':') raises on a line without a colon, and int(value) raises
   * on a recognised line whose value is not a non-empty run of digits; either
   * exception leaves the loop.
   */
  function ParseMemLine(raw: string): LineEffect {
    var line := Strip(raw);
    match IndexOf(line, ':')
    case None => Stop
    case Some(idx) =>
      match KeyOf(Lower(line))
      case None => Skip
      case Some(k) =>
        match ParseDigits(ValueText(line, idx))
        case None => Stop
        case Some(n) => Assign(k, n)
  }

  /** The text after the first colon of a line, filtered to digits and dots. */
  function AfterColon(line: string): string
    requires ':' in line
  {
    var idx := IndexOf(line, ':').value;
    ValueText(line, idx)
  }

  /** A line sets field k to n iff it has a colon, starts (case-insensitively, after strip) with k's prefix, and its value is the digits of n. */
  lemma LineAssigns(raw: string, k: MemKey, n: int)
    ensures ParseMemLine(raw) == Assign(k, n) <==>
      var line := Strip(raw);
      ':' in line && StartsWith(Lower(line), Prefix(k)) && ParseDigits(AfterColon(line)) == Some(n)
  {
    KeyOfMatchesPrefix(Lower(Strip(raw)), k);
  }

  /**
   * A line ends the scan iff it has no colon, or it starts (case-insensitively,
   * after strip) with one of the five prefixes and its value does not parse.
   * A line with a colon and no known prefix never stops the scan.
   */
  lemma LineStops(raw: string)
    ensures ParseMemLine(raw) == Stop <==>
      var line := Strip(raw);
      ':' !in line ||
      ((exists k: MemKey :: StartsWith(Lower(line), Prefix(k))) && ParseDigits(AfterColon(line)).None?)
  {
    var lc := Lower(Strip(raw));
    match KeyOf(lc)
    case Some(k) =>
      KeyOfMatchesPrefix(lc, k);
    case None =>
      forall k: MemKey
        ensures !StartsWith(lc, Prefix(k))
      {
        KeyOfMatchesPrefix(lc, k);
      }
  }

  /** What each line of the file does to the scan, in order. */
  function Effects(lines: seq<string>): (r: seq<LineEffect>)
    ensures |r| == |lines|
  {
    seq(|lines|, i requires 0 <= i < |lines| => ParseMemLine(lines[i]))
  }

  /** The values after lines with effects `es` are read from `v` (penistats.py:413-430). */
  function Scan(v: MemValues, es: seq<LineEffect>): MemValues
    decreases es
  {
    if es == [] then v
    else
      match es[0]
      case Stop => v
      case Skip => Scan(v, es[1..])
      case Assign(k, n) => Scan(Set(v, k, n), es[1..])
  }

  /** The number of lines read in full: those before the first line that ends the scan. */
  function StopIndex(es: seq<LineEffect>): (n: nat)
    ensures n <= |es|
    ensures forall i | 0 <= i < n :: es[i] != Stop
    ensures n < |es| ==> es[n] == Stop
  {
    if es == [] || es[0] == Stop then 0
    else 1 + StopIndex(es[1..])
  }

  /** The value of the last line among `es` that sets k; None when no line does. */
  function LastAssigned(es: seq<LineEffect>, k: MemKey): Option<int> {
    if es == [] then None
    else
      match LastAssigned(es[1..], k)
      case Some(n) => Some(n)
      case None => if es[0].Assign? && es[0].key == k then Some(es[0].value) else None
  }

  /**
   * Each field ends with the value of the last line that set it among the
   * lines read before the first line that ends the scan; a field no such line
   * set keeps its value.
   */
  lemma {:induction false} ScanLastLineWins(v: MemValues, es: seq<LineEffect>, k: MemKey)
    ensures Get(Scan(v, es), k) ==
      match LastAssigned(es[..StopIndex(es)], k)
      case Some(n) => Some(n)
      case None => Get(v, k)
    decreases es
  {
    if es != [] && es[0] != Stop {
      var v1 := if es[0].Assign? then Set(v, es[0].key, es[0].value) else v;
      ScanLastLineWins(v1, es[1..], k);
      var m := StopIndex(es[1..]);
      var seen := es[..m + 1];
      assert seen[0] == es[0] && seen[1..] == es[1..][..m];
    }
  }

  /** Lines after the one that ends the scan are never read. */
  lemma {:induction false} ScanIgnoresRest(v: MemValues, es: seq<LineEffect>, rest: seq<LineEffect>)
    requires StopIndex(es) < |es|
    ensures Scan(v, es + rest) == Scan(v, es)
    decreases es
  {
    assert (es + rest)[0] == es[0];
    if es[0] != Stop {
      assert (es + rest)[1..] == es[1..] + rest;
      var v1 := if es[0].Assign? then Set(v, es[0].key, es[0].value) else v;
      ScanIgnoresRest(v1, es[1..], rest);
    }
  }

  /** One pass of the loop body, with the loop's fields as `v`; goOn is false when the body raises. */
  method ReadMeminfoLine(v: MemValues, raw: string) returns (goOn: bool, v': MemValues)
    ensures ParseMemLine(raw) == Stop <==> !goOn
    ensures !goOn ==> v' == v
    ensures goOn ==> v' == match ParseMemLine(raw) case Assign(k, n) => Set(v, k, n) case _ => v
  {
    v' := v;
    var line := Strip(raw);
    var idx := IndexOf(line, ':');
    if idx.None? {
      return false, v;
    }
    var lcline := Lower(line);
    var value := ValueText(line, idx.value);
    var key := KeyOf(lcline);
    if key.Some? {
      var parsed := ParseDigits(value);
      if parsed.None? {
        return false, v;
      }
      v' := Set(v, key.value, parsed.value);
    }
    goOn := true;
  }

  /**
   * The meminfo loop of readValues (penistats.py:411-430), from a fresh Values
   * object: every field is the value of the last line that set it before the
   * scan ended, and None when no line did.
   */
  method ReadMeminfo(lines: seq<string>) returns (v: MemValues)
    ensures v == Scan(NoValues, Effects(lines))
    ensures forall k :: Get(v, k) == LastAssigned(Effects(lines)[..StopIndex(Effects(lines))], k)
  {
    ghost var es := Effects(lines);
    v := NoValues;
    var i := 0;
    var goOn := true;
    while i < |lines| && goOn
      invariant 0 <= i <= |lines|
      invariant !goOn ==> v == Scan(NoValues, es)
      invariant goOn ==> Scan(v, es[i..]) == Scan(NoValues, es)
    {
      assert es[i..][0] == ParseMemLine(lines[i]) && es[i..][1..] == es[i + 1..];
      goOn, v := ReadMeminfoLine(v, lines[i]);
      i := i + 1;
    }
    forall k {
      ScanLastLineWins(NoValues, es, k);
    }
  }
}
