/** `cpu_str`: prints a CPU set as ranges. */
module CpuRanges {
  import opened Options
  import Decimal

  datatype Range = Range(lo: nat, hi: nat)

  /** The first index from i on that is outside the set. */
  function RunEnd(cpus: seq<bool>, i: nat): (e: nat)
    requires i <= |cpus|
    ensures i <= e <= |cpus|
    ensures forall k :: i <= k < e ==> cpus[k]
    ensures e < |cpus| ==> !cpus[e]
    decreases |cpus| - i
  {
    if i < |cpus| && cpus[i] then RunEnd(cpus, i + 1) else i
  }

  /** The runs of the set from i on. */
  function Runs(cpus: seq<bool>, i: nat): seq<Range>
    requires i <= |cpus|
    decreases |cpus| - i
  {
    if i == |cpus| then []
    else if !cpus[i] then Runs(cpus, i + 1)
    else [Range(i, RunEnd(cpus, i) - 1)] + Runs(cpus, RunEnd(cpus, i))
  }

  predicate InRanges(rs: seq<Range>, k: nat) {
    exists j :: 0 <= j < |rs| && rs[j].lo <= k <= rs[j].hi
  }

  /** Proper, in increasing order and with a gap between neighbours. */
  predicate Separated(rs: seq<Range>) {
    && (forall j :: 0 <= j < |rs| ==> rs[j].lo <= rs[j].hi)
    && (forall j :: 0 <= j < |rs| - 1 ==> rs[j].hi + 1 < rs[j + 1].lo)
  }

  lemma InRangesCons(r: Range, rest: seq<Range>, k: nat)
    ensures InRanges([r] + rest, k) <==> r.lo <= k <= r.hi || InRanges(rest, k)
  {
    var rs := [r] + rest;
    assert rs[0] == r;
    if InRanges(rest, k) {
      var j :| 0 <= j < |rest| && rest[j].lo <= k <= rest[j].hi;
      assert rs[j + 1] == rest[j];
    }
  }

  lemma SeparatedCons(r: Range, rest: seq<Range>)
    requires r.lo <= r.hi && Separated(rest)
    requires rest != [] ==> r.hi + 1 < rest[0].lo
    ensures Separated([r] + rest)
  {
  }

  /** What the runs from i on promise: they are sorted, disjoint and maximal, and cover exactly the set. */
  ghost predicate Covers(rs: seq<Range>, cpus: seq<bool>, i: nat) {
    && Separated(rs)
    && (rs != [] ==> i <= rs[0].lo)
    && (forall k: nat :: InRanges(rs, k) <==> i <= k < |cpus| && cpus[k])
  }

  lemma {:induction false} RunsCover(cpus: seq<bool>, i: nat)
    requires i <= |cpus|
    ensures Covers(Runs(cpus, i), cpus, i)
    decreases |cpus| - i
  {
    if i == |cpus| {
    } else if !cpus[i] {
      RunsCover(cpus, i + 1);
    } else {
      var e := RunEnd(cpus, i);
      RunsCover(cpus, e);
      CoverCons(cpus, i, e, Runs(cpus, e));
    }
  }

  lemma CoverCons(cpus: seq<bool>, i: nat, e: nat, rest: seq<Range>)
    requires i < e <= |cpus| && (forall k :: i <= k < e ==> cpus[k]) && (e < |cpus| ==> !cpus[e])
    requires Covers(rest, cpus, e)
    ensures Covers([Range(i, e - 1)] + rest, cpus, i)
  {
    if rest != [] {
      assert InRanges(rest, rest[0].lo);
    }
    SeparatedCons(Range(i, e - 1), rest);
    forall k: nat
      ensures InRanges([Range(i, e - 1)] + rest, k) <==> i <= k < |cpus| && cpus[k]
    {
      InRangesCons(Range(i, e - 1), rest, k);
    }
  }

  // ---------------------------------------------------------------- text

  function RenderRange(r: Range): string {
    Decimal.Print(r.lo) + if r.hi > r.lo then "-" + Decimal.Print(r.hi) else ""
  }

  function Render(rs: seq<Range>): string {
    if rs == [] then ""
    else RenderRange(rs[0]) + if |rs| == 1 then "" else " " + Render(rs[1..])
  }

  lemma {:induction false} RenderSnoc(rs: seq<Range>, r: Range)
    ensures Render(rs + [r]) == if rs == [] then RenderRange(r) else Render(rs) + " " + RenderRange(r)
    decreases |rs|
  {
    if rs == [] {
      assert rs + [r] == [r];
    } else {
      assert (rs + [r])[1..] == rs[1..] + [r];
      RenderSnoc(rs[1..], r);
      if |rs| == 1 {
        assert rs[1..] == [];
      }
    }
  }

  /** The position of the first c, or the length. */
  function Find(s: string, c: char): (i: nat)
    ensures i <= |s|
  {
    if s == [] || s[0] == c then 0 else 1 + Find(s[1..], c)
  }

  lemma {:induction false} FindAfter(a: string, c: char, b: string)
    requires c !in a
    ensures Find(a + [c] + b, c) == |a| && Find(a, c) == |a|
    decreases |a|
  {
    if a != [] {
      assert (a + [c] + b)[1..] == a[1..] + [c] + b;
      FindAfter(a[1..], c, b);
    }
  }

  predicate AllDigits(s: string) {
    forall i :: 0 <= i < |s| ==> Decimal.IsDigit(s[i])
  }

  /** The reader is strict: a number is printed without leading zeros, a single CPU without a dash, a range
      from its lower to its higher end, and one space separates neighbours. */
  function ReadNumber(s: string): Option<nat> {
    if s != "" && AllDigits(s) && Decimal.Print(Decimal.Read(s)) == s then Some(Decimal.Read(s)) else None
  }

  function ReadRange(s: string): Option<Range> {
    var i := Find(s, '-');
    if i == |s| then
      var n := ReadNumber(s);
      if n.Some? then Some(Range(n.value, n.value)) else None
    else
      var lo, hi := ReadNumber(s[..i]), ReadNumber(s[i + 1..]);
      if lo.Some? && hi.Some? && lo.value < hi.value then Some(Range(lo.value, hi.value)) else None
  }

  function ReadRanges(s: string): Option<seq<Range>>
    decreases |s|
  {
    if s == "" then Some([])
    else
      var i := Find(s, ' ');
      var first := ReadRange(s[..i]);
      if first.None? || i == |s| - 1 then None
      else if i == |s| then Some([first.value])
      else
        var rest := ReadRanges(s[i + 1..]);
        if rest.Some? then Some([first.value] + rest.value) else None
  }

  lemma RangeReadsBack(r: Range)
    requires r.lo <= r.hi
    ensures ReadRange(RenderRange(r)) == Some(r)
    ensures RenderRange(r) != [] && ' ' !in RenderRange(r)
  {
    var a, b := Decimal.Print(r.lo), Decimal.Print(r.hi);
    Decimal.ReadPrint(r.lo);
    Decimal.ReadPrint(r.hi);
    FindAfter(a, '-', b);
    var s := RenderRange(r);
    if r.hi > r.lo {
      assert s == a + ['-'] + b;
      assert s[..|a|] == a && s[|a| + 1..] == b;
    } else {
      assert s == a;
    }
  }

  lemma ReadOne(a: string, r: Range)
    requires a != [] && ' ' !in a && ReadRange(a) == Some(r)
    ensures ReadRanges(a) == Some([r])
  {
    FindAfter(a, ' ', "");
    assert a[..|a|] == a;
  }

  lemma ReadMore(a: string, r: Range, text: string, rest: seq<Range>)
    requires a != [] && ' ' !in a && ReadRange(a) == Some(r)
    requires text != "" && ReadRanges(text) == Some(rest)
    ensures ReadRanges(a + " " + text) == Some([r] + rest)
  {
    FindAfter(a, ' ', text);
    var s := a + " " + text;
    assert s[..|a|] == a && s[|a| + 1..] == text;
  }

  lemma RenderCons(r: Range, rest: seq<Range>)
    ensures Render([r] + rest) == if rest == [] then RenderRange(r) else RenderRange(r) + " " + Render(rest)
  {
    assert ([r] + rest)[1..] == rest;
  }

  /** Reading the printed ranges gives the ranges back. */
  lemma {:induction false} RangesReadBack(rs: seq<Range>)
    requires forall j :: 0 <= j < |rs| ==> rs[j].lo <= rs[j].hi
    ensures ReadRanges(Render(rs)) == Some(rs)
    decreases |rs|
  {
    if rs != [] {
      var r, rest := rs[0], rs[1..];
      assert rs == [r] + rest;
      RangesReadBack(rest);
      RangeReadsBack(r);
      RenderCons(r, rest);
      NonEmptyText(rest);
      if rest == [] {
        ReadOne(RenderRange(r), r);
        assert [r] + rest == [r];
      } else {
        ReadMore(RenderRange(r), r, Render(rest), rest);
      }
    }
  }

  /** Appends one range to the text, after a space unless it is the first. */
  method AppendRange(text: string, ghost done: seq<Range>, r: Range) returns (s: string)
    requires text == Render(done)
    ensures s == Render(done + [r])
  {
    RenderSnoc(done, r);
    NonEmptyText(done);
    s := text;
    if s != "" {
      s := s + " ";
    }
    s := s + Decimal.Print(r.lo);
    if r.hi > r.lo {
      s := s + "-";
      s := s + Decimal.Print(r.hi);
    }
  }

  /** The run that starts at i moves from the runs ahead to the runs done. */
  ghost function MoveRun(cpus: seq<bool>, done: seq<Range>, i: nat): (moved: seq<Range>)
    requires i < |cpus| && cpus[i]
    ensures moved == done + [Range(i, RunEnd(cpus, i) - 1)]
    ensures moved + Runs(cpus, RunEnd(cpus, i)) == done + Runs(cpus, i)
  {
    done + [Range(i, RunEnd(cpus, i) - 1)]
  }

  /** The nested loops of cpu_str print exactly the runs of the set. */
  method CpuStr(cpus: seq<bool>) returns (s: string)
    ensures s == Render(Runs(cpus, 0))
    ensures ReadRanges(s).Some? && Covers(ReadRanges(s).value, cpus, 0)
  {
    s := "";
    var i := 0;
    ghost var done: seq<Range> := [];
    while i < |cpus|
      invariant i <= |cpus|
      invariant Runs(cpus, 0) == done + Runs(cpus, i)
      invariant s == Render(done)
    {
      if !cpus[i] {
        i := i + 1;
        continue;
      }
      var start := i;
      i := i + 1;
      while i < |cpus| && cpus[i]
        invariant start < i <= |cpus|
        invariant RunEnd(cpus, i) == RunEnd(cpus, start)
      {
        i := i + 1;
      }
      s := AppendRange(s, done, Range(start, i - 1));
      done := MoveRun(cpus, done, start);
    }
    assert done + [] == done;
    CpuStrRoundTrip(cpus);
  }

  lemma NonEmptyText(rs: seq<Range>)
    ensures Render(rs) == "" <==> rs == []
  {
    if rs != [] { assert RenderRange(rs[0]) != []; }
  }

  /** The ranges read from the printed text are sorted, disjoint, maximal and cover exactly the set. */
  lemma CpuStrRoundTrip(cpus: seq<bool>)
    ensures var rs := ReadRanges(Render(Runs(cpus, 0))); rs.Some? && Covers(rs.value, cpus, 0)
  {
    RunsCover(cpus, 0);
    RangesReadBack(Runs(cpus, 0));
  }

  /** Different sets print differently. */
  lemma CpuStrInjective(a: seq<bool>, b: seq<bool>)
    requires |a| == |b| && Render(Runs(a, 0)) == Render(Runs(b, 0))
    ensures a == b
  {
    CpuStrRoundTrip(a);
    CpuStrRoundTrip(b);
    var rs := ReadRanges(Render(Runs(a, 0))).value;
    forall k: nat | k < |a| ensures a[k] == b[k] {
      assert a[k] <==> InRanges(rs, k);
    }
  }
}
