/**
 The append-only log that the work, review and agent-run stores share: one JSON record a line, replayed at
 start-up by a loader that forgives a torn last line (plugins/work-registry/store.go and its siblings).

 The record printer and parser are parameters: a printed record has no newline and is not blank, parsing undoes
 printing, and no proper prefix of a printed record parses.
 */
module LogFile {
  import opened Bytes
  import opened Wrappers

  datatype Codec<!R> = Codec(print_: R -> seq<byte>, parse: seq<byte> -> Option<R>, blank: seq<byte> -> bool)

  ghost predicate Faithful<R(!new)>(c: Codec<R>) {
    && c.blank([])
    && (forall r: R ::
          && NEWLINE !in c.print_(r)
          && !c.blank(c.print_(r))
          && c.parse(c.print_(r)) == Some(r))
    && (forall r: R, n: nat | n < |c.print_(r)| && !c.blank(c.print_(r)[..n]) :: c.parse(c.print_(r)[..n]) == None)
  }

  /** A store is an initial projection and the way a record changes it; `None` is a record that does not apply. */
  datatype Store<!S, !R> = Store(empty: S, apply: (S, R) -> Option<S>)

  function Encode<R>(c: Codec<R>, rs: seq<R>): seq<byte> {
    if rs == [] then [] else c.print_(rs[0]) + [NEWLINE] + Encode(c, rs[1..])
  }

  function Fold<S, R>(st: Store<S, R>, s: S, rs: seq<R>): Option<S> {
    if rs == [] then Some(s)
    else
      var next := st.apply(s, rs[0]);
      if next.None? then None else Fold(st, next.value, rs[1..])
  }

  /** `bytes.Split(b, "\n")`: always at least one piece. */
  function Split(b: seq<byte>): (lines: seq<seq<byte>>)
    ensures lines != []
  {
    if b == [] then [[]]
    else
      var rest := Split(b[1..]);
      if b[0] == NEWLINE then [[]] + rest else [[b[0]] + rest[0]] + rest[1..]
  }

  predicate AllBlank<R>(c: Codec<R>, lines: seq<seq<byte>>) {
    forall i | 0 <= i < |lines| :: c.blank(lines[i])
  }

  /** What the loader makes of the remaining lines; `torn` when the file does not end in a newline. */
  function LoadLines<S, R>(c: Codec<R>, st: Store<S, R>, s: S, lines: seq<seq<byte>>, torn: bool): Result<S, string> {
    if lines == [] then Ok(s)
    else if c.blank(lines[0]) then LoadLines(c, st, s, lines[1..], torn)
    else
      var r := c.parse(lines[0]);
      if r.None? then
        if torn && AllBlank(c, lines[1..]) then Ok(s) else Err("unreadable line")
      else
        var next := st.apply(s, r.value);
        if next.None? then Err("record does not apply") else LoadLines(c, st, next.value, lines[1..], torn)
  }

  predicate Torn(b: seq<byte>) {
    b == [] || b[|b| - 1] != NEWLINE
  }

  function LoadBytes<S, R>(c: Codec<R>, st: Store<S, R>, b: seq<byte>): Result<S, string> {
    LoadLines(c, st, st.empty, Split(b), Torn(b))
  }

  /** Load: find the last non-blank line, then parse and apply line by line. */
  method Load<S, R>(c: Codec<R>, st: Store<S, R>, file: Option<seq<byte>>) returns (r: Result<S, string>)
    ensures r == if file.None? then Ok(st.empty) else LoadBytes(c, st, file.value)
  {
    if file.None? {
      return Ok(st.empty);
    }
    var lines := Split(file.value);
    var lastNonBlank := -1;
    for i := 0 to |lines|
      invariant -1 <= lastNonBlank < i
      invariant lastNonBlank >= 0 ==> !c.blank(lines[lastNonBlank])
      invariant forall j | lastNonBlank < j < i :: c.blank(lines[j])
    {
      if !c.blank(lines[i]) {
        lastNonBlank := i;
      }
    }
    var s := st.empty;
    for i := 0 to |lines|
      invariant LoadBytes(c, st, file.value) == LoadLines(c, st, s, lines[i..], Torn(file.value))
    {
      if c.blank(lines[i]) {
        continue;
      }
      assert i <= lastNonBlank;
      var rec := c.parse(lines[i]);
      if rec.None? {
        if i == lastNonBlank && Torn(file.value) {
          assert AllBlank(c, lines[i..][1..]);
          break;
        }
        assert i < lastNonBlank ==> lines[i..][1..][lastNonBlank - i - 1] == lines[lastNonBlank];
        return Err("unreadable line");
      }
      var next := st.apply(s, rec.value);
      if next.None? {
        return Err("record does not apply");
      }
      s := next.value;
    }
    r := Ok(s);
  }

  /** The records of the lines that are neither blank nor unreadable. */
  function Readable<R>(c: Codec<R>, lines: seq<seq<byte>>): seq<R> {
    if lines == [] then []
    else
      var r := c.parse(lines[0]);
      (if c.blank(lines[0]) || r.None? then [] else [r.value]) + Readable(c, lines[1..])
  }

  /** The only unreadable line, if any, is the last that is not blank, in a file that does not end in a newline. */
  ghost predicate Forgivable<R>(c: Codec<R>, lines: seq<seq<byte>>, torn: bool) {
    forall i | 0 <= i < |lines| && !c.blank(lines[i]) && c.parse(lines[i]).None? ::
      torn && forall j | i < j < |lines| :: c.blank(lines[j])
  }

  /** Loading succeeds exactly on forgivable lines whose records apply in turn, and then with what they amount to. */
  lemma {:induction false} LoadExact<S, R>(c: Codec<R>, st: Store<S, R>, s: S, lines: seq<seq<byte>>, torn: bool)
    ensures LoadLines(c, st, s, lines, torn).Ok? <==> Forgivable(c, lines, torn) && Fold(st, s, Readable(c, lines)).Some?
    ensures LoadLines(c, st, s, lines, torn).Ok? ==>
              LoadLines(c, st, s, lines, torn).value == Fold(st, s, Readable(c, lines)).value
  {
    if lines == [] {
    } else {
      var rest, r := lines[1..], c.parse(lines[0]);
      assert lines == [lines[0]] + rest;
      if c.blank(lines[0]) {
        assert [] + Readable(c, rest) == Readable(c, rest);
        LoadExact(c, st, s, rest, torn);
        ForgivableTail(c, lines, torn);
      } else if r.None? {
        if torn && AllBlank(c, rest) {
          BlankReadsNothing(c, rest);
          assert [] + Readable(c, rest) == [];
        }
      } else {
        var next := st.apply(s, r.value);
        assert ([r.value] + Readable(c, rest))[1..] == Readable(c, rest);
        ForgivableTail(c, lines, torn);
        if next.Some? {
          LoadExact(c, st, next.value, rest, torn);
        }
      }
    }
  }

  lemma {:induction false} BlankReadsNothing<R>(c: Codec<R>, lines: seq<seq<byte>>)
    requires AllBlank(c, lines)
    ensures Readable(c, lines) == []
  {
    if lines == [] {
    } else {
      BlankReadsNothing(c, lines[1..]);
    }
  }

  lemma ForgivableTail<R>(c: Codec<R>, lines: seq<seq<byte>>, torn: bool)
    requires lines != [] && (c.blank(lines[0]) || c.parse(lines[0]).Some?)
    ensures Forgivable(c, lines, torn) <==> Forgivable(c, lines[1..], torn)
  {
    var rest := lines[1..];
    if Forgivable(c, lines, torn) {
      forall i, j | 0 <= i < |rest| && !c.blank(rest[i]) && c.parse(rest[i]).None?
        ensures torn && (i < j < |rest| ==> c.blank(rest[j]))
      {
        assert rest[i] == lines[i + 1];
        assert i < j < |rest| ==> rest[j] == lines[j + 1];
      }
    }
    if Forgivable(c, rest, torn) {
      forall i, j | 0 <= i < |lines| && !c.blank(lines[i]) && c.parse(lines[i]).None?
        ensures torn && (i < j < |lines| ==> c.blank(lines[j]))
      {
        assert lines[i] == rest[i - 1];
        assert i < j < |lines| ==> lines[j] == rest[j - 1];
      }
    }
  }

  /** How many records have their whole text before byte position `cut`. */
  function Whole<R>(c: Codec<R>, rs: seq<R>, cut: int): nat {
    if rs == [] || cut < |c.print_(rs[0])| then 0 else 1 + Whole(c, rs[1..], cut - |c.print_(rs[0])| - 1)
  }

  /** Where the text of record `i` ends. */
  function TextEnd<R>(c: Codec<R>, rs: seq<R>, i: nat): int
    requires i < |rs|
  {
    |Encode(c, rs[..i])| + |c.print_(rs[i])|
  }

  lemma {:induction false} WholeMeans<R>(c: Codec<R>, rs: seq<R>, cut: int, i: nat)
    requires i < |rs|
    ensures Whole(c, rs, cut) <= |rs|
    ensures i < Whole(c, rs, cut) <==> TextEnd(c, rs, i) <= cut
  {
    var step := |c.print_(rs[0])| + 1;
    if i == 0 {
      assert rs[..0] == [];
      if |rs| > 1 {
        WholeMeans(c, rs[1..], cut - step, 0);
      }
    } else {
      WholeMeans(c, rs[1..], cut - step, i - 1);
      assert rs[..i][0] == rs[0] && rs[..i][1..] == rs[1..][..i - 1];
      assert TextEnd(c, rs, i) == step + TextEnd(c, rs[1..], i - 1);
    }
  }

  lemma {:induction false} SplitAtNewline(a: seq<byte>, b: seq<byte>)
    requires NEWLINE !in a
    ensures Split(a) == [a]
    ensures Split(a + [NEWLINE] + b) == [a] + Split(b)
  {
    if a == [] {
      assert [] + [NEWLINE] + b == [NEWLINE] + b;
      assert ([NEWLINE] + b)[1..] == b;
    } else {
      SplitAtNewline(a[1..], b);
      var whole := a + [NEWLINE] + b;
      assert whole[1..] == a[1..] + [NEWLINE] + b;
      assert [a[0]] + a[1..] == a;
    }
  }

  /** Cut within the first record's text, or right behind it. */
  lemma CutInFirst<S, R(!new)>(c: Codec<R>, st: Store<S, R>, s: S, rs: seq<R>, cut: nat)
    requires Faithful(c) && Fold(st, s, rs).Some? && rs != [] && cut <= |c.print_(rs[0])|
    ensures cut <= |Encode(c, rs)|
    ensures Whole(c, rs, cut) <= 1 && Fold(st, s, rs[..Whole(c, rs, cut)]).Some?
    ensures var b := Encode(c, rs)[..cut];
            LoadLines(c, st, s, Split(b), Torn(b)) == Ok(Fold(st, s, rs[..Whole(c, rs, cut)]).value)
  {
    var text, b := c.print_(rs[0]), Encode(c, rs)[..cut];
    assert Encode(c, rs) == text + [NEWLINE] + Encode(c, rs[1..]);
    assert b == text[..cut];
    SplitAtNewline(b, []);
    assert [b][1..] == [] && AllBlank(c, []);
    if cut == |text| {
      assert b == text && Whole(c, rs, cut) == 1 && rs[..1] == [rs[0]] && [rs[0]][1..] == [];
    } else {
      assert Whole(c, rs, cut) == 0;
    }
  }

  /** The file cut at byte `cut` reads as the records that lie wholly before the cut, whatever byte it is. */
  lemma {:induction false} CutLines<S, R(!new)>(c: Codec<R>, st: Store<S, R>, s: S, rs: seq<R>, cut: nat)
    requires Faithful(c) && Fold(st, s, rs).Some? && cut <= |Encode(c, rs)|
    ensures Whole(c, rs, cut) <= |rs| && Fold(st, s, rs[..Whole(c, rs, cut)]).Some?
    ensures var b := Encode(c, rs)[..cut];
            LoadLines(c, st, s, Split(b), Torn(b)) == Ok(Fold(st, s, rs[..Whole(c, rs, cut)]).value)
    decreases |rs|
  {
    var b := Encode(c, rs)[..cut];
    if rs == [] {
      assert b == [] && Split(b)[1..] == [];
    } else if cut <= |c.print_(rs[0])| {
      CutInFirst(c, st, s, rs, cut);
    } else {
      hide LoadLines, Split, Fold;
      var n, rest := Whole(c, rs, cut), cut - |c.print_(rs[0])| - 1;
      FoldFirst(st, s, rs, 1);
      var next, tail := st.apply(s, rs[0]).value, Encode(c, rs[1..])[..rest];
      assert b == c.print_(rs[0]) + [NEWLINE] + tail;
      CutLines(c, st, next, rs[1..], rest);
      LoadFirst(c, st, s, rs[0], tail);
      FoldFirst(st, s, rs, n);
    }
  }

  lemma FoldFirst<S, R>(st: Store<S, R>, s: S, rs: seq<R>, n: nat)
    requires 0 < n <= |rs| && Fold(st, s, rs).Some?
    ensures st.apply(s, rs[0]).Some?
    ensures Fold(st, s, rs[..n]) == Fold(st, st.apply(s, rs[0]).value, rs[1..][..n - 1])
    ensures Fold(st, st.apply(s, rs[0]).value, rs[1..]).Some?
  {
    assert rs[..n][0] == rs[0] && rs[..n][1..] == rs[1..][..n - 1];
  }

  lemma LoadFirst<S, R(!new)>(c: Codec<R>, st: Store<S, R>, s: S, r: R, tail: seq<byte>)
    requires Faithful(c) && st.apply(s, r).Some?
    ensures var b := c.print_(r) + [NEWLINE] + tail;
            LoadLines(c, st, s, Split(b), Torn(b)) == LoadLines(c, st, st.apply(s, r).value, Split(tail), Torn(tail))
  {
    hide LoadLines, Split;
    var b, next := c.print_(r) + [NEWLINE] + tail, st.apply(s, r).value;
    SplitAtNewline(c.print_(r), tail);
    FirstLine(c, st, s, r, Split(tail), Torn(b));
    if tail == [] {
      NothingLeft(c, st, next, Torn(b));
      NothingLeft(c, st, next, Torn(tail));
    } else {
      assert Torn(b) == Torn(tail);
    }
  }

  lemma FirstLine<S, R(!new)>(c: Codec<R>, st: Store<S, R>, s: S, r: R, lines: seq<seq<byte>>, torn: bool)
    requires Faithful(c) && st.apply(s, r).Some?
    ensures LoadLines(c, st, s, [c.print_(r)] + lines, torn) == LoadLines(c, st, st.apply(s, r).value, lines, torn)
  {
    assert ([c.print_(r)] + lines)[1..] == lines;
  }

  lemma NothingLeft<S, R(!new)>(c: Codec<R>, st: Store<S, R>, s: S, torn: bool)
    requires Faithful(c)
    ensures LoadLines(c, st, s, Split([]), torn) == Ok(s)
  {
    assert Split([])[1..] == [];
  }

  /** Crash recovery: whatever byte the log is cut at, Load returns the fold of the records wholly before the cut. */
  lemma CrashRecovery<S, R(!new)>(c: Codec<R>, st: Store<S, R>, rs: seq<R>, cut: nat)
    requires Faithful(c) && Fold(st, st.empty, rs).Some? && cut <= |Encode(c, rs)|
    ensures Whole(c, rs, cut) <= |rs| && Fold(st, st.empty, rs[..Whole(c, rs, cut)]).Some?
    ensures LoadBytes(c, st, Encode(c, rs)[..cut]) == Ok(Fold(st, st.empty, rs[..Whole(c, rs, cut)]).value)
    ensures forall i | 0 <= i < |rs| :: i < Whole(c, rs, cut) <==> TextEnd(c, rs, i) <= cut
  {
    CutLines(c, st, st.empty, rs, cut);
    forall i | 0 <= i < |rs| ensures i < Whole(c, rs, cut) <==> TextEnd(c, rs, i) <= cut {
      WholeMeans(c, rs, cut, i);
    }
  }
}
