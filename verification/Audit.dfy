/** The rotated audit log of aalp/audit.py. */
module Audit {
  import opened Basics

  /** One encoded entry: its JSON line, newline included. */
  type Line = seq<char>

  function Size(lines: seq<Line>): nat {
    if lines == [] then 0 else Size(lines[..|lines| - 1]) + |lines[|lines| - 1]|
  }

  /** The live log and its one backup, None where the file does not exist;
      `dropped` counts lines that rotation has overwritten. */
  datatype Files = Files(backup: Option<seq<Line>>, live: Option<seq<Line>>, dropped: nat)

  const NONE_YET := Files(None, None, 0)

  function Lines(file: Option<seq<Line>>): seq<Line> {
    file.GetOr([])
  }

  function Kept(f: Files): seq<Line> {
    Lines(f.backup) + Lines(f.live)
  }

  predicate Rotates(f: Files, line: Line, maxBytes: int) {
    f.live.Some? && Size(f.live.value) + |line| > maxBytes
  }

  function Append(f: Files, line: Line, maxBytes: int): Files {
    if Rotates(f, line, maxBytes)
    then Files(f.live, Some([line]), f.dropped + |Lines(f.backup)|)
    else f.(live := Some(Lines(f.live) + [line]))
  }

  function AppendAll(lines: seq<Line>, maxBytes: int): Files {
    if lines == [] then NONE_YET else Append(AppendAll(lines[..|lines| - 1], maxBytes), lines[|lines| - 1], maxBytes)
  }

  predicate Bounded(file: Option<seq<Line>>, maxBytes: int, longest: nat) {
    file.Some? ==> Size(file.value) <= maxBytes || Size(file.value) <= longest
  }

  lemma {:induction false} SizeOfConcat(a: seq<Line>, b: seq<Line>)
    ensures Size(a + b) == Size(a) + Size(b)
  {
    if b == [] {
      assert a + b == a;
    } else {
      SizeOfConcat(a, b[..|b| - 1]);
      assert (a + b)[..|a + b| - 1] == a + b[..|b| - 1];
    }
  }

  lemma {:induction false} SizeOfOne(line: Line)
    ensures Size([line]) == |line|
  {
    assert [line][..0] == [];
  }

  lemma {:induction false} AppendKeepsSuffix(f: Files, lines: seq<Line>, line: Line, maxBytes: int)
    requires f.dropped <= |lines| && Kept(f) == lines[f.dropped..]
    ensures var g := Append(f, line, maxBytes);
            g.dropped <= |lines| && Kept(g) == (lines + [line])[g.dropped..]
  {
    var g := Append(f, line, maxBytes);
    if Rotates(f, line, maxBytes) {
      assert Kept(f)[|Lines(f.backup)|..] == Lines(f.live);
      assert |Kept(f)| == |lines| - f.dropped;
      assert Kept(g) == Lines(f.live) + [line];
      assert lines[f.dropped..][|Lines(f.backup)|..] == lines[g.dropped..];
    } else {
      assert Kept(g) == Kept(f) + [line];
    }
    assert (lines + [line])[g.dropped..] == lines[g.dropped..] + [line];
  }

  lemma {:induction false} AppendKeepsBounds(f: Files, line: Line, maxBytes: int, longest: nat)
    requires Bounded(f.live, maxBytes, longest) && Bounded(f.backup, maxBytes, longest) && |line| <= longest
    requires f.dropped > 0 ==> Size(Kept(f)) > maxBytes
    ensures var g := Append(f, line, maxBytes);
            && Bounded(g.live, maxBytes, longest) && Bounded(g.backup, maxBytes, longest)
            && (g.dropped > 0 ==> Size(Kept(g)) > maxBytes)
  {
    var g := Append(f, line, maxBytes);
    SizeOfOne(line);
    SizeOfConcat(Lines(f.live), [line]);
    SizeOfConcat(Kept(f), [line]);
    if Rotates(f, line, maxBytes) {
      assert Kept(g) == Lines(f.live) + [line];
    } else {
      assert Kept(g) == Kept(f) + [line];
      if f.live.None? {
        assert Lines(f.live) + [line] == [line];
      }
    }
  }

  /** Rotation happens exactly when the next line does not fit any more: a file within the limit is left as long as it
      can be, and only a file of one line may be larger. */
  predicate Packed(f: Files, maxBytes: int) {
    && (f.live.Some? ==> f.live.value != [] && (Size(f.live.value) <= maxBytes || |f.live.value| == 1))
    && (f.backup.Some? ==>
          && f.live.Some? && f.backup.value != [] && (Size(f.backup.value) <= maxBytes || |f.backup.value| == 1)
          && Size(f.backup.value) + |f.live.value[0]| > maxBytes)
    && (f.dropped > 0 ==> f.backup.Some?)
  }

  lemma {:induction false} AppendKeepsPacked(f: Files, line: Line, maxBytes: int)
    requires Packed(f, maxBytes)
    ensures Packed(Append(f, line, maxBytes), maxBytes)
  {
    SizeOfOne(line);
    SizeOfConcat(Lines(f.live), [line]);
    if f.live.None? {
      assert Lines(f.live) + [line] == [line];
    }
  }

  /** A first part is no larger than the whole. */
  lemma {:induction false} SizeOfFront(lines: seq<Line>)
    requires lines != []
    ensures Size(lines) >= |lines[0]|
  {
    assert lines == [lines[0]] + lines[1..];
    SizeOfConcat([lines[0]], lines[1..]);
    SizeOfOne(lines[0]);
  }

  /** As long as everything fits into one file, it is all in the live log and there is no backup. */
  lemma {:induction false} AllInOneFile(f: Files, lines: seq<Line>, maxBytes: int)
    requires Packed(f, maxBytes) && f.dropped <= |lines| && Kept(f) == lines[f.dropped..]
    ensures Size(lines) <= maxBytes ==> f.backup.None? && f.dropped == 0 && Lines(f.live) == lines
  {
    if f.backup.Some? {
      SizeOfFront(f.live.value);
      SizeOfConcat(f.backup.value, f.live.value);
      SizeOfConcat(lines[..f.dropped], lines[f.dropped..]);
      assert lines == lines[..f.dropped] + lines[f.dropped..];
    }
  }

  ghost predicate KeepsWhatItShould(f: Files, lines: seq<Line>, maxBytes: int, longest: nat) {
    && f.dropped <= |lines|
    && Kept(f) == lines[f.dropped..]
    && (lines != [] ==> f.live.Some? && f.live.value != [] && f.live.value[|f.live.value| - 1] == lines[|lines| - 1])
    && Bounded(f.live, maxBytes, longest) && Bounded(f.backup, maxBytes, longest)
    && (f.dropped > 0 ==> Size(Kept(f)) > maxBytes)
    && Packed(f, maxBytes)
    && (Size(lines) <= maxBytes ==> f.backup.None? && Lines(f.live) == lines)
  }

  lemma {:induction false} AppendKeeps(f: Files, lines: seq<Line>, line: Line, maxBytes: int, longest: nat)
    requires KeepsWhatItShould(f, lines, maxBytes, longest) && |line| <= longest
    ensures KeepsWhatItShould(Append(f, line, maxBytes), lines + [line], maxBytes, longest)
  {
    AppendKeepsSuffix(f, lines, line, maxBytes);
    AppendKeepsBounds(f, line, maxBytes, longest);
    AppendKeepsPacked(f, line, maxBytes);
    AllInOneFile(Append(f, line, maxBytes), lines + [line], maxBytes);
  }

  lemma {:induction false} AppendAllOneMore(lines: seq<Line>, line: Line, maxBytes: int)
    ensures AppendAll(lines + [line], maxBytes) == Append(AppendAll(lines, maxBytes), line, maxBytes)
  {
    assert (lines + [line])[..|lines|] == lines;
  }

  lemma {:induction false} NothingKeeps(maxBytes: int, longest: nat)
    ensures KeepsWhatItShould(NONE_YET, [], maxBytes, longest)
  {
    assert Kept(NONE_YET) == [];
  }

  /** After any sequence of appends, backup then live log is a contiguous suffix of everything appended, in order;
      the last line is always in the live log; each file is within the limit or a single line; the live log was begun
      with the first line that did not fit the backup any more; all is in the live log while it fits, and as soon as
      anything has been dropped, more than the limit is still kept. */
  lemma {:induction false} KeepsASuffix(lines: seq<Line>, maxBytes: int, longest: nat)
    requires forall i :: 0 <= i < |lines| ==> |lines[i]| <= longest
    ensures KeepsWhatItShould(AppendAll(lines, maxBytes), lines, maxBytes, longest)
    decreases |lines|
  {
    if lines == [] {
      NothingKeeps(maxBytes, longest);
    } else {
      var before, line := lines[..|lines| - 1], lines[|lines| - 1];
      assert lines == before + [line];
      KeepsASuffix(before, maxBytes, longest);
      AppendAllOneMore(before, line, maxBytes);
      AppendKeeps(AppendAll(before, maxBytes), before, line, maxBytes, longest);
    }
  }

  function Longest(lines: seq<Line>): (n: nat)
    ensures forall i :: 0 <= i < |lines| ==> |lines[i]| <= n
  {
    if lines == [] then 0
    else
      var rest := Longest(lines[..|lines| - 1]);
      if |lines[|lines| - 1]| > rest then |lines[|lines| - 1]| else rest
  }

  predicate IsSuffix(tail: seq<Line>, lines: seq<Line>) {
    |tail| <= |lines| && lines[|lines| - |tail|..] == tail
  }

  lemma {:induction false} TailOfSuffix(front: seq<Line>, tail: seq<Line>, lines: seq<Line>, dropped: nat)
    requires dropped <= |lines| && front + tail == lines[dropped..]
    ensures IsSuffix(tail, lines)
  {
    assert |front| + |tail| == |lines| - dropped;
    assert (front + tail)[|front|..] == tail;
    assert lines[dropped..][|front|..] == lines[|lines| - |tail|..];
  }

  /** The live log alone is a suffix of the history, and holds its last line. */
  lemma {:induction false} LiveIsSuffix(lines: seq<Line>, maxBytes: int)
    ensures var live := Lines(AppendAll(lines, maxBytes).live);
            && IsSuffix(live, lines) && (lines != [] ==> live != [])
            && (Size(live) <= maxBytes || Size(live) <= Longest(lines))
            && (Size(lines) <= maxBytes ==> live == lines && AppendAll(lines, maxBytes).backup.None?)
  {
    KeepsASuffix(lines, maxBytes, Longest(lines));
    var f := AppendAll(lines, maxBytes);
    TailOfSuffix(Lines(f.backup), Lines(f.live), lines, f.dropped);
  }

  /** The log directory, changed in place; `history` is everything ever appended, under one limit. */
  class AuditLog {
    const maxBytes: int
    var backup: Option<seq<Line>>
    var live: Option<seq<Line>>
    ghost var dropped: nat
    ghost var history: seq<Line>

    ghost function State(): Files
      reads this
    {
      Files(backup, live, dropped)
    }

    /** The files are what appending the history leaves, so KeepsASuffix speaks of them. */
    ghost predicate Valid()
      reads this
    {
      State() == AppendAll(history, maxBytes)
    }

    constructor (maxBytes: int)
      ensures Valid() && history == [] && this.maxBytes == maxBytes
    {
      this.maxBytes, backup, live, dropped, history := maxBytes, None, None, 0, [];
    }

    ghost method Record(line: Line)
      requires State() == Append(AppendAll(history, maxBytes), line, maxBytes)
      modifies `history
      ensures Valid() && history == old(history) + [line]
    {
      AppendAllOneMore(history, line, maxBytes);
      history := history + [line];
    }

    method WriteFiles(line: Line)
      modifies `backup, `live, `dropped
      ensures State() == Append(old(State()), line, maxBytes)
    {
      if live.Some? && Size(live.value) + |line| > maxBytes {
        dropped := dropped + |Lines(backup)|;
        backup := live;
        live := None;
      }
      assert live.None? ==> Lines(live) + [line] == [line];
      live := Some(Lines(live) + [line]);
    }

    /** Rotates if the line would exceed the limit, then opens (or creates) the live log and writes at its end. */
    method Write(line: Line)
      requires Valid()
      modifies this
      ensures Valid() && history == old(history) + [line]
      ensures State() == Append(old(State()), line, maxBytes)
    {
      WriteFiles(line);
      Record(line);
    }

    /** Both files together keep a bounded contiguous suffix of everything appended. */
    lemma FilesKeep()
      requires Valid()
      ensures KeepsWhatItShould(State(), history, maxBytes, Longest(history))
    {
      KeepsASuffix(history, maxBytes, Longest(history));
    }

    /** The entries of the live log only: the latest of everything appended, the last line always among them,
        and never more than the limit or the longest line. */
    method ReadEntries() returns (entries: seq<Line>)
      requires Valid()
      ensures IsSuffix(entries, history) && (history != [] ==> entries != [])
      ensures Size(entries) <= maxBytes || Size(entries) <= Longest(history)
      ensures live.Some? ==> entries == live.value
      ensures Size(history) <= maxBytes ==> entries == history && backup.None?
    {
      LiveIsSuffix(history, maxBytes);
      if live.None? {
        return [];
      }
      entries := live.value;
    }
  }
}
