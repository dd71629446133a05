/**
 The event journal (plugins/foundation/event-journal/main.go) and the paging loop that reads it back
 (plugins/engineering-workflow/handlers.go:298-319). Each record holds the hash of the one before it, so the hash of
 the last record stands for the whole journal.
 */
module Journal {
  import opened Wrappers

  datatype Material = Material(id: string, kind: string, timestamp: string, trace: string, correlation: string,
                               causation: string, caller: string, principal: string, actorChain: seq<string>,
                               source: string, payload: string)

  datatype Record = Record(material: Material, previous: string, sha: string)

  /** A line of the file: its record, or None when it does not parse, and its bytes without the newline. */
  datatype Line = Line(record: Option<Record>, size: nat)

  /** The scanner's buffer, which has to hold a line and its newline. */
  const LINE_LIMIT: nat := 16777216

  type Digest = (Material, string) -> string

  ghost predicate CollisionFree(d: Digest) {
    forall m, p, n, q :: d(m, p) == d(n, q) ==> m == n && p == q
  }

  ghost predicate NeverEmpty(d: Digest) {
    forall m, p :: d(m, p) != ""
  }

  // ----- Intact journals -----

  /** The hash of the last record, which the next one names. */
  function Tail(lines: seq<Line>): string {
    if lines == [] || lines[|lines| - 1].record.None? then "" else lines[|lines| - 1].record.value.sha
  }

  predicate Follows(line: Line, previous: string, d: Digest) {
    && line.record.Some?
    && line.record.value.previous == previous
    && line.record.value.sha == d(line.record.value.material, previous)
  }

  /** Every line is a record that names the hash before it and carries the hash of its own contents. */
  predicate Intact(lines: seq<Line>, d: Digest) {
    lines == [] ||
    (Intact(lines[..|lines| - 1], d) && Follows(lines[|lines| - 1], Tail(lines[..|lines| - 1]), d))
  }

  predicate TooLong(line: Line) {
    line.size >= LINE_LIMIT
  }

  /** An intact journal the scanner can read to its end. */
  predicate Sound(lines: seq<Line>, d: Digest) {
    Intact(lines, d) && forall line | line in lines :: !TooLong(line)
  }

  function RecordOf(line: Line): seq<Record> {
    if line.record.Some? then [line.record.value] else []
  }

  function Records(lines: seq<Line>): seq<Record> {
    if lines == [] then [] else Records(lines[..|lines| - 1]) + RecordOf(lines[|lines| - 1])
  }

  /** One more line keeps the journal intact exactly when it follows from the last one. */
  lemma NextLine(lines: seq<Line>, line: Line, d: Digest)
    ensures Intact(lines + [line], d) <==> Intact(lines, d) && Follows(line, Tail(lines), d)
    ensures Sound(lines + [line], d) <==> Sound(lines, d) && Follows(line, Tail(lines), d) && !TooLong(line)
    ensures Records(lines + [line]) == Records(lines) + RecordOf(line)
  {
    assert (lines + [line])[..|lines|] == lines;
    assert line in lines + [line];
    assert forall l | l in lines :: l in lines + [line];
  }

  lemma {:induction false} IntactRecords(lines: seq<Line>, d: Digest)
    requires Intact(lines, d)
    ensures |Records(lines)| == |lines|
    ensures lines != [] ==> Records(lines)[|lines| - 1] == lines[|lines| - 1].record.value
  {
    if lines != [] {
      IntactRecords(lines[..|lines| - 1], d);
    }
  }

  /** With a digest that has no collisions and is never empty, equal last hashes mean equal journals. */
  lemma {:induction false} TailDeterminesJournal(a: seq<Line>, b: seq<Line>, d: Digest)
    requires CollisionFree(d) && NeverEmpty(d) && Intact(a, d) && Intact(b, d)
    ensures Tail(a) == Tail(b) <==> Records(a) == Records(b)
    decreases |a|
  {
    IntactRecords(a, d);
    IntactRecords(b, d);
    if a != [] && b != [] && Tail(a) == Tail(b) {
      var x, y := a[|a| - 1].record.value, b[|b| - 1].record.value;
      assert d(x.material, x.previous) == d(y.material, y.previous);
      TailDeterminesJournal(a[..|a| - 1], b[..|b| - 1], d);
    }
  }

  /** Verification cannot see that records are missing at the end: only comparing last hashes does. */
  lemma {:induction false} PrefixIsIntact(lines: seq<Line>, n: nat, d: Digest)
    requires Intact(lines, d) && n <= |lines|
    ensures Intact(lines[..n], d)
    decreases |lines|
  {
    if n == |lines| {
      assert lines[..n] == lines;
    } else {
      PrefixIsIntact(lines[..|lines| - 1], n, d);
      assert lines[..|lines| - 1][..n] == lines[..n];
    }
  }

  /** What does not verify never does again, whatever is appended: an over-long line blocks the journal for good. */
  lemma SoundBefore(lines: seq<Line>, n: nat, d: Digest)
    requires n <= |lines| && Sound(lines, d)
    ensures Sound(lines[..n], d)
  {
    PrefixIsIntact(lines, n, d);
  }

  /**
   A runtime that last read the first `n` lines appends under their last hash. The chain holds exactly when these
   lines are all there is: whatever it missed, its record breaks the journal.
   */
  lemma StaleAppendBreaksChain(lines: seq<Line>, n: nat, line: Line, d: Digest)
    requires CollisionFree(d) && NeverEmpty(d) && Intact(lines, d) && n <= |lines|
    requires Follows(line, Tail(lines[..n]), d)
    ensures Intact(lines + [line], d) <==> n == |lines|
  {
    NextLine(lines, line, d);
    PrefixIsIntact(lines, n, d);
    IntactRecords(lines, d);
    IntactRecords(lines[..n], d);
    TailDeterminesJournal(lines[..n], lines, d);
    if n == |lines| {
      assert lines[..n] == lines;
    }
  }

  // ----- Verification -----

  datatype Fault =
    LineTooLong(line: nat) | Malformed(line: nat) | PreviousMismatch(line: nat) | HashMismatch(line: nat)

  function Check(line: Line, previous: string, n: nat, d: Digest): Option<Fault> {
    if TooLong(line) then Some(LineTooLong(n))
    else if line.record.None? then Some(Malformed(n))
    else if line.record.value.previous != previous then Some(PreviousMismatch(n))
    else if d(line.record.value.material, line.record.value.previous) != line.record.value.sha then Some(HashMismatch(n))
    else None
  }

  /** A fault is reported exactly when the lines are not a sound journal, with the number of the first bad line. */
  ghost predicate FaultOf(lines: seq<Line>, fault: Option<Fault>, d: Digest) {
    match fault
    case None => Sound(lines, d)
    case Some(f) =>
      && !Sound(lines, d)
      && 1 <= f.line <= |lines|
      && Sound(lines[..f.line - 1], d)
      && Wrong(f, lines[f.line - 1], Tail(lines[..f.line - 1]), d)
  }

  /** What each fault says of its line, after the line `previous` is the hash of. */
  ghost predicate Wrong(f: Fault, line: Line, previous: string, d: Digest) {
    match f
    case LineTooLong(_) => line.size >= 16 * 1024 * 1024
    case Malformed(_) => line.size < 16 * 1024 * 1024 && line.record.None?
    case PreviousMismatch(_) =>
      line.size < 16 * 1024 * 1024 && line.record.Some? && line.record.value.previous != previous
    case HashMismatch(_) =>
      && line.size < 16 * 1024 * 1024 && line.record.Some? && line.record.value.previous == previous
      && line.record.value.sha != d(line.record.value.material, previous)
  }

  /** The scanner gives up on a line before any other fault is met. */
  ghost predicate ScannerStops(lines: seq<Line>, d: Digest) {
    exists n :: 0 <= n < |lines| && TooLong(lines[n]) && Sound(lines[..n], d)
  }

  // ----- The journal -----

  datatype Page = Page(records: seq<Record>, next: int)

  datatype Error = Invalid | Io | Integrity

  const DEFAULT_LIMIT := 100
  const MAX_LIMIT := 1000

  function Effective(limit: int): nat {
    if limit <= 0 || limit > MAX_LIMIT then DEFAULT_LIMIT else limit
  }

  function Least(a: int, b: int): int {
    if a <= b then a else b
  }

  /** The page of an intact journal: from index `after`, or the start when that is negative, and `limit` at most. */
  function PageOf(rs: seq<Record>, after: int, limit: nat): Page {
    var from: nat := if after < 0 then 0 else Least(after, |rs|);
    var to: nat := Least(from + limit, |rs|);
    Page(rs[from..to], after + (to - from))
  }

  class Journal {
    /** The lines of the file; None when there is no file yet. */
    var file: Option<seq<Line>>
    var lastHash: string
    const digest: Digest
    /** The length of a record's text. */
    const width: Record -> nat

    constructor (digest: Digest, width: Record -> nat, file: Option<seq<Line>>)
      ensures this.digest == digest && this.width == width && this.file == file && lastHash == ""
    {
      this.digest, this.width, this.file, lastHash := digest, width, file, "";
    }

    ghost predicate Valid()
      reads this
    {
      Intact(Lines(), digest) && lastHash == Tail(Lines())
    }

    function Lines(): seq<Line>
      reads this`file
    {
      if file.Some? then file.value else []
    }

    ghost function Contents(): seq<Record>
      reads this`file
    {
      Records(Lines())
    }

    /** verifyAndLoadTail: what the plugin does before it serves. */
    method VerifyAndLoadTail() returns (fault: Option<Fault>)
      requires lastHash == ""
      modifies this`lastHash
      ensures FaultOf(Lines(), fault, digest)
      ensures fault.None? ==> Valid() && Sound(Lines(), digest)
      ensures fault.Some? ==> lastHash == ""
    {
      if file.None? {
        return None;
      }
      var previous;
      fault, previous := Scan(file.value, digest);
      if fault.None? {
        lastHash := previous;
      }
    }

    /**
     The append handler; `fenced` is whether the write fence admits the request, `ioOk` whether the write succeeds. The
     record names the last hash this runtime knows, whatever else is in the file by now.
     */
    method Append(m: Material, fenced: bool, ioOk: bool) returns (r: Result<Record, Error>)
      modifies this`file, this`lastHash
      ensures m.kind == "" ==> r == Err(Invalid)
      ensures m.kind != "" ==> r == if fenced && ioOk then Ok(Record(m, old(lastHash), digest(m, old(lastHash)))) else Err(Io)
      ensures r.Err? ==> file == old(file) && lastHash == old(lastHash)
      ensures r.Ok? ==> Lines() == old(Lines()) + [Line(Some(r.value), width(r.value))] && lastHash == r.value.sha
      ensures r.Ok? ==> Contents() == old(Contents()) + [r.value]
      ensures r.Ok? ==> (Intact(Lines(), digest) <==> old(Intact(Lines(), digest) && lastHash == Tail(Lines())))
      ensures r.Ok? ==> (Sound(Lines(), digest) <==>
                old(Sound(Lines(), digest) && lastHash == Tail(Lines())) && width(r.value) < LINE_LIMIT)
      ensures old(Valid()) ==> Valid()
    {
      if m.kind == "" {
        return Err(Invalid);
      }
      if !fenced || !ioOk {
        return Err(Io);
      }
      var record := Record(m, lastHash, digest(m, lastHash));
      var line := Line(Some(record), width(record));
      NextLine(Lines(), line, digest);
      file := Some(Lines() + [line]);
      lastHash := record.sha;
      r := Ok(record);
    }

    /** The replay handler. It verifies the whole file again and keeps the page asked for. */
    method Replay(after: int, limit: int) returns (r: Result<Page, Error>)
      ensures file.None? ==> r == Ok(Page([], after))
      ensures file.Some? ==>
                r == if Sound(file.value, digest) then Ok(PageOf(Contents(), after, Effective(limit)))
                else if ScannerStops(file.value, digest) then Err(Io) else Err(Integrity)
    {
      if file.None? {
        return Ok(Page([], after));
      }
      r := Collect(file.value, digest, after, Effective(limit));
    }
  }

  lemma CheckMeans(line: Line, previous: string, n: nat, d: Digest)
    ensures var fault := Check(line, previous, n, d);
            && (fault.None? <==> Follows(line, previous, d) && !TooLong(line))
            && (fault.Some? ==> fault.value.line == n && Wrong(fault.value, line, previous, d))
            && (fault.Some? ==> (fault.value.LineTooLong? <==> TooLong(line)))
  {
  }

  method Scan(lines: seq<Line>, d: Digest) returns (fault: Option<Fault>, previous: string)
    ensures FaultOf(lines, fault, d)
    ensures fault.None? ==> previous == Tail(lines)
  {
    hide Records, Check, Wrong, TooLong;
    fault, previous := None, "";
    for n := 0 to |lines|
      invariant fault == None && Sound(lines[..n], d) && previous == Tail(lines[..n])
    {
      assert lines[..n + 1] == lines[..n] + [lines[n]];
      NextLine(lines[..n], lines[n], d);
      fault := Check(lines[n], previous, n + 1, d);
      CheckMeans(lines[n], previous, n + 1, d);
      if fault.Some? {
        Stopped(lines, n, d);
        return;
      }
      previous := lines[n].record.value.sha;
    }
    assert lines[..|lines|] == lines;
  }

  lemma Stopped(lines: seq<Line>, n: nat, d: Digest)
    requires n < |lines| && Sound(lines[..n], d) && !Sound(lines[..n + 1], d)
    ensures !Sound(lines, d)
    ensures ScannerStops(lines, d) <==> TooLong(lines[n])
  {
    if Sound(lines, d) {
      SoundBefore(lines, n + 1, d);
    }
    if m :| 0 <= m < |lines| && TooLong(lines[m]) && Sound(lines[..m], d) {
      if n < m {
        SoundBefore(lines[..m], n + 1, d);
        assert lines[..m][..n + 1] == lines[..n + 1];
      }
    }
  }

  /** An intact journal that is not sound holds a line above the scanner's limit, and the first one stops it. */
  lemma {:induction false} IntactStops(lines: seq<Line>, d: Digest)
    requires Intact(lines, d)
    ensures Sound(lines, d) <==> !ScannerStops(lines, d)
    decreases |lines|
  {
    if lines != [] {
      var n := |lines| - 1;
      assert lines == lines[..n] + [lines[n]];
      NextLine(lines[..n], lines[n], d);
      IntactStops(lines[..n], d);
      if ScannerStops(lines[..n], d) {
        var m :| 0 <= m < n && TooLong(lines[..n][m]) && Sound(lines[..n][..m], d);
        assert lines[..n][..m] == lines[..m];
      }
    }
  }

  method Collect(lines: seq<Line>, d: Digest, after: int, limit: nat) returns (r: Result<Page, Error>)
    ensures r == if Sound(lines, d) then Ok(PageOf(Records(lines), after, limit))
                 else if ScannerStops(lines, d) then Err(Io) else Err(Integrity)
  {
    hide PageOf, Check, Wrong, TooLong;
    var previous, out: seq<Record> := "", [];
    ghost var rs: seq<Record> := [];
    PageOfNone(after, limit);
    for n := 0 to |lines|
      invariant Sound(lines[..n], d) && previous == Tail(lines[..n])
      invariant rs == Records(lines[..n]) && |rs| == n
      invariant out == PageOf(rs, after, limit).records
    {
      assert lines[..n + 1] == lines[..n] + [lines[n]];
      NextLine(lines[..n], lines[n], d);
      var fault := Check(lines[n], previous, n + 1, d);
      CheckMeans(lines[n], previous, n + 1, d);
      if fault.Some? {
        Stopped(lines, n, d);
        return Err(if fault.value.LineTooLong? then Io else Integrity);
      }
      var record := lines[n].record.value;
      PageGrows(rs, record, after, limit);
      rs := rs + [record];
      previous := record.sha;
      if n >= after && |out| < limit {
        out := out + [record];
      }
    }
    assert lines[..|lines|] == lines;
    PageNext(rs, after, limit);
    r := Ok(Page(out, after + |out|));
  }

  lemma PageOfNone(after: int, limit: nat)
    ensures PageOf([], after, limit).records == []
  {
  }

  lemma PageNext(rs: seq<Record>, after: int, limit: nat)
    ensures PageOf(rs, after, limit).next == after + |PageOf(rs, after, limit).records|
  {
  }

  lemma PageGrows(rs: seq<Record>, r: Record, after: int, limit: nat)
    ensures var page, longer := PageOf(rs, after, limit).records, PageOf(rs + [r], after, limit).records;
            longer == if |rs| >= after && |page| < limit then page + [r] else page
  {
  }

  // ----- Paging -----

  datatype Attempt = Attempt(material: Material, fenced: bool, ioOk: bool)

  /** What other plugins append between two pages. */
  method Others(journal: Journal, attempts: seq<Attempt>)
    requires journal.Valid()
    modifies journal`file, journal`lastHash
    ensures journal.Valid() && old(journal.Contents()) <= journal.Contents()
  {
    for i := 0 to |attempts|
      invariant journal.Valid() && old(journal.Contents()) <= journal.Contents()
    {
      var _ := journal.Append(attempts[i].material, attempts[i].fenced, attempts[i].ioOk);
    }
  }

  lemma PageExtends(rs: seq<Record>, after: nat)
    requires after <= |rs|
    ensures var page := PageOf(rs, after, Effective(DEFAULT_LIMIT));
            && page.next == after + |page.records| <= |rs|
            && rs[..after] + page.records == rs[..page.next]
            && (page.next <= after <==> after == |rs|)
  {
  }

  lemma NothingHeld(d: Digest)
    ensures Sound([], d) && Records([]) == [] && forall limit | limit >= 0 :: PageOf([], 0, limit) == Page([], 0)
  {
  }

  /**
   A page starts at the index asked for, or at 0, holds the number asked for if that is between 1 and 1000 and else 100,
   as far as there are so many, and says to go on by as many as it holds.
   */
  lemma PageExact(rs: seq<Record>, after: int, limit: int)
    ensures var page := PageOf(rs, after, Effective(limit));
            var from := if after < 0 then 0 else after;
            var n := if 1 <= limit <= 1000 then limit else 100;
            && page.records == (if from >= |rs| then [] else if from + n <= |rs| then rs[from..from + n] else rs[from..])
            && page.next == after + |page.records|
  {
  }

  /**
   replayVia: pages from 0 until `next` no longer advances, with other appends before each page. A page that cannot be
   fetched ends it with an error; otherwise the result is the journal as the last page found it.
   */
  method ReplayVia(journal: Journal, others: seq<seq<Attempt>>) returns (r: Result<seq<Record>, Error>)
    requires journal.Valid()
    modifies journal`file, journal`lastHash
    ensures journal.Valid() && old(journal.Contents()) <= journal.Contents()
    ensures if r.Ok? then r.value == journal.Contents() && Sound(journal.Lines(), journal.digest) else r == Err(Io)
  {
    hide Intact, Sound, ScannerStops, Records, Tail, PageOf;
    var all: seq<Record>, after, turn := [], 0, 0;
    while true
      invariant journal.Valid() && old(journal.Contents()) <= journal.Contents()
      invariant turn <= |others|
      invariant 0 <= after <= |journal.Contents()| && all == journal.Contents()[..after]
      decreases |others| - turn, |journal.Contents()| - after
    {
      if turn < |others| {
        Others(journal, others[turn]);
        turn := turn + 1;
      }
      ghost var now := journal.Contents();
      assert all == now[..after];
      var reached: bool := *;
      if !reached {
        return Err(Io);
      }
      var answer := journal.Replay(after, 100);
      NothingHeld(journal.digest);
      if answer.Err? {
        IntactStops(journal.Lines(), journal.digest);
        return Err(answer.error);
      }
      PageExtends(now, after);
      var page := answer.value;
      all := all + page.records;
      if page.next <= after {
        return Ok(all);
      }
      after := page.next;
    }
  }
}
