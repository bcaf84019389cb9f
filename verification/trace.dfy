/** The trace that the task manager writes is one that the analyser gets through. */
module Trace {
  import opened Prelude
  import opened Text
  import opened Analyser
  import T = Tasks

  function LineText(l: T.Line): string {
    Join([l.oid, l.mode, l.tier, l.phase, Decimal(l.time)], ',')
  }

  /** The trace file. */
  function TextOf(lines: seq<T.Line>): string {
    if lines == [] then "" else LineText(lines[0]) + "\n" + TextOf(lines[1..])
  }

  predicate Clean(s: string) {
    Free(s, ',') && Free(s, '\n')
  }

  predicate CleanLine(l: T.Line) {
    Clean(l.oid) && Clean(l.mode) && Clean(l.tier) && Clean(l.phase) && l.time <= LONG_MAX
  }

  function RecOf(l: T.Line): Rec {
    Rec(l.oid, l.phase == "s", l.time)
  }

  lemma DecimalIsClean(n: nat)
    ensures Clean(Decimal(n))
  {
    assert forall i :: 0 <= i < |Decimal(n)| ==> Decimal(n)[i] in Decimal(n);
  }

  lemma {:induction false} JoinIsFree(fields: seq<string>, sep: char, d: char)
    requires sep != d && forall f :: f in fields ==> Free(f, d)
    ensures Free(Join(fields, sep), d)
  {
    if |fields| == 1 {
      assert fields[0] in fields;
    } else if |fields| > 1 {
      assert fields[0] in fields;
      JoinIsFree(fields[1..], sep, d);
    }
  }

  /** The five fields of a printed line, in order. */
  lemma LineFields(l: T.Line)
    requires CleanLine(l)
    ensures Fields(LineText(l), ',') == [l.oid, l.mode, l.tier, l.phase, Decimal(l.time)]
  {
    DecimalIsClean(l.time);
    FieldsOfJoinIff([l.oid, l.mode, l.tier, l.phase, Decimal(l.time)], ',');
    hide Fields, Join, Decimal;
  }

  /** The analyser reads a printed line back as it was. */
  lemma LineIsParsed(l: T.Line)
    requires CleanLine(l)
    ensures Parse(LineText(l)) == Some(RecOf(l)) && Free(LineText(l), '\n')
  {
    hide Fields, Join, Atol, Decimal;
    var fields := [l.oid, l.mode, l.tier, l.phase, Decimal(l.time)];
    DecimalIsClean(l.time);
    JoinIsFree(fields, ',', '\n');
    FieldsOfJoinIff(fields, ',');
    AtolOfDecimal(l.time);
    assert Fields(LineText(l), ',') == fields;
  }

  function Recs(lines: seq<T.Line>): seq<Rec> {
    if lines == [] then [] else [RecOf(lines[0])] + Recs(lines[1..])
  }

  /** The analyser reads the text of a clean trace back as the records that were printed. */
  lemma {:induction false} TextIsParsed(lines: seq<T.Line>)
    requires forall l :: l in lines ==> CleanLine(l)
    ensures var read := Fields(TextOf(lines), '\n'); Parsed(read) == Recs(lines) && |read| == |lines| == |Recs(lines)|
    decreases |lines|
  {
    hide Parse;
    if lines != [] {
      assert lines[0] in lines;
      LineIsParsed(lines[0]);
      assert TextOf(lines) == LineText(lines[0]) + ['\n'] + TextOf(lines[1..]);
      FirstField(LineText(lines[0]), TextOf(lines[1..]), '\n');
      var rest := Fields(TextOf(lines[1..]), '\n');
      assert ([LineText(lines[0])] + rest)[1..] == rest;
      TextIsParsed(lines[1..]);
    }
  }

  /** On the text of a clean trace the analyser computes what it computes on the records. */
  lemma TextIsJudged(lines: seq<T.Line>)
    requires forall l :: l in lines ==> CleanLine(l)
    ensures Judge(Fields(TextOf(lines), '\n'), ZERO)
            == match Tallied(Recs(lines), ZERO) case None => Bug case Some(v) => Final(v)
  {
    TextIsParsed(lines);
    JudgeIsTally(Fields(TextOf(lines), '\n'), ZERO);
    hide Fields, TextOf, Parsed, Recs, Tallied, Judge;
  }

  // ---------------------------------------------------------------- finished tasks

  function Written(done: seq<T.Done>): seq<T.Line> {
    if done == [] then [] else T.Lines(done[0].task, done[0].finish) + Written(done[1..])
  }

  /** The time that each task took by its own start and finish. */
  function Elapsed(done: seq<T.Done>): int {
    if done == [] then 0 else done[0].finish - done[0].task.start + Elapsed(done[1..])
  }

  predicate CleanDone(d: T.Done) {
    Clean(d.task.oid) && Clean(d.task.mode) && Clean(d.task.tier) && d.task.start <= d.finish <= LONG_MAX
  }

  lemma PairIsTaken(t: Tally, d: T.Done)
    requires t.latencies == map[] && t.total < ULONG
    ensures var a := Take(t, Rec(d.task.oid, true, d.task.start));
            a.Some?
            && var b := Take(a.value, Rec(d.task.oid, false, d.finish));
               b.Some? && b.value.latencies == map[] && b.value.count == t.count + 1
               && b.value.total == (t.total + Unsigned(d.finish - d.task.start)) % ULONG
  {
  }

  lemma {:induction false} PairsAreTallied(done: seq<T.Done>, t: Tally)
    requires t.latencies == map[] && t.total < ULONG
    ensures var r := Tallied(Recs(Written(done)), t);
            && r.Some? && r.value.latencies == map[] && r.value.count == t.count + |done|
            && r.value.total < ULONG && (r.value.total - t.total - Elapsed(done)) % ULONG == 0
    decreases |done|
  {
    if done != [] {
      var d := done[0];
      PairIsTaken(t, d);
      var a := Take(t, Rec(d.task.oid, true, d.task.start)).value;
      var b := Take(a, Rec(d.task.oid, false, d.finish)).value;
      PairsAreTallied(done[1..], b);
      ModularStep(t.total, d.finish - d.task.start);
      var r := Tallied(Recs(Written(done[1..])), b).value;
      SumModular(b.total - t.total - (d.finish - d.task.start), r.total - b.total - Elapsed(done[1..]));
      TalliedPair(d, Written(done[1..]), t);
    }
  }

  lemma TalliedPair(d: T.Done, rest: seq<T.Line>, t: Tally)
    requires Tidy(t)
    ensures
      Tallied(Recs(T.Lines(d.task, d.finish) + rest), t) ==
        match Take(t, Rec(d.task.oid, true, d.task.start))
        case None => None
        case Some(a) =>
          match Take(a, Rec(d.task.oid, false, d.finish))
          case None => None
          case Some(b) => Tallied(Recs(rest), b)
  {
    RecsOfPair(d, rest);
    var first, second := Rec(d.task.oid, true, d.task.start), Rec(d.task.oid, false, d.finish);
    assert ([first, second] + Recs(rest))[1..] == [second] + Recs(rest);
    assert ([second] + Recs(rest))[1..] == Recs(rest);
  }

  lemma RecsOfPair(d: T.Done, rest: seq<T.Line>)
    ensures Recs(T.Lines(d.task, d.finish) + rest)
            == [Rec(d.task.oid, true, d.task.start), Rec(d.task.oid, false, d.finish)] + Recs(rest)
  {
    var lines := T.Lines(d.task, d.finish) + rest;
    var first, second := Rec(d.task.oid, true, d.task.start), Rec(d.task.oid, false, d.finish);
    assert lines[1..][1..] == rest;
    assert Recs(lines[1..]) == [second] + Recs(lines[1..][1..]);
    assert [first] + ([second] + Recs(rest)) == [first, second] + Recs(rest);
  }

  lemma {:induction false} WrittenIsClean(done: seq<T.Done>)
    requires forall d :: d in done ==> CleanDone(d)
    ensures forall l :: l in Written(done) ==> CleanLine(l)
  {
    if done != [] {
      assert done[0] in done;
      WrittenIsClean(done[1..]);
    }
  }

  // ---------------------------------------------------------------- from the ledger to the report

  predicate CleanFilings(events: seq<T.Event>) {
    forall e :: e in events && e.File? ==> Clean(e.oid) && Clean(e.mode) && Clean(e.tier)
  }

  ghost predicate Traced(l: T.Ledger) {
    && (l.m.tracing ==> l.m.trace == Written(l.done))
    && |l.done| == |l.won|
    && (forall tid :: tid in l.m.table ==>
          var t := l.m.table[tid]; Clean(t.oid) && Clean(t.mode) && Clean(t.tier) && t.start <= l.clock)
    && (forall d :: d in l.done ==>
          Clean(d.task.oid) && Clean(d.task.mode) && Clean(d.task.tier) && d.task.start <= d.finish <= l.clock)
  }

  lemma {:induction false} WrittenOfAppend(done: seq<T.Done>, d: T.Done)
    ensures Written(done + [d]) == Written(done) + T.Lines(d.task, d.finish)
  {
    if done == [] {
      assert done + [d] == [d];
      assert [d][1..] == [];
    } else {
      assert (done + [d])[1..] == done[1..] + [d];
      WrittenOfAppend(done[1..], d);
    }
  }

  lemma TraceKept(l: T.Ledger, e: T.Event)
    requires Traced(l) && T.Enabled(l, e)
    requires e.File? ==> Clean(e.oid) && Clean(e.mode) && Clean(e.tier)
    ensures Traced(T.Next(l, e)) && T.Next(l, e).m.tracing == l.m.tracing
  {
    if e.Finish? && e.tid in l.m.table {
      WrittenOfAppend(l.done, T.Done(l.m.table[e.tid], l.clock));
    }
  }

  lemma {:induction false} RunIsTraced(l: T.Ledger, events: seq<T.Event>)
    requires Traced(l) && T.Legal(l, events) && CleanFilings(events)
    ensures var v := T.Trail(l, events); Traced(v) && v.m.tracing == l.m.tracing
    decreases |events|
  {
    if events != [] {
      TraceKept(l, events[0]);
      RunIsTraced(T.Next(l, events[0]), events[1..]);
    }
  }

  /** A run of the task manager whose names and times the trace format can carry. */
  predicate Traceable(events: seq<T.Event>) {
    T.Legal(T.Opening(true), events) && CleanFilings(events) && T.Trail(T.Opening(true), events).clock <= LONG_MAX
  }

  /** The analyser gets through the trace of these finished tasks with nothing queued at the end, has
      counted each of them once, and has added up their times. */
  predicate Agrees(trace: seq<T.Line>, done: seq<T.Done>) {
    && Tallied(Recs(trace), ZERO).Some?
    && var r := Tallied(Recs(trace), ZERO).value;
       && Judge(Fields(TextOf(trace), '\n'), ZERO) == Final(r)
       && r.latencies == map[] && r.count == |done|
       && r.total < ULONG && (r.total - Elapsed(done)) % ULONG == 0
  }

  /** What the analyser prints for the trace of these finished tasks: the mean of their times, rounded
      down, if the sum of the times is below 2^64, and the last finish less the first recorded start. */
  ghost predicate Prints(v: Verdict, done: seq<T.Done>) {
    && (v == DivideByZero <==> done == [])
    && (done != [] ==>
          && v.Report?
          && (Elapsed(done) < 18446744073709551616 ==>
                v.average * |done| <= Elapsed(done) < (v.average + 1) * |done|)
          && exists i, j :: 0 <= i < |done| && 0 <= j < |done|
                            && v.elapsed == done[j].finish - done[i].task.start
                            && forall k :: 0 <= k < |done| ==>
                                 done[i].task.start <= done[k].task.start && done[k].finish <= done[j].finish)
  }

  /** Whatever submitters, workers and watcher do, and however many such traces are put one after the
      other: as long as names hold no comma and no line break and the clock fits a `long`, the analyser
      does not abort on the trace, ends with nothing queued, counts every finished task once, and totals
      the times from each task's recorded start to its finish. */
  lemma AnalyserAgrees(runs: seq<seq<T.Event>>)
    requires forall es :: es in runs ==> Traceable(es)
    ensures Agrees(AllTraces(runs), AllDone(runs))
    ensures Prints(Judge(Fields(TextOf(AllTraces(runs)), '\n'), ZERO), AllDone(runs))
  {
    hide *;
    TracesAreWritten(runs);
    DoneIsReported(AllDone(runs));
    DoneIsPrinted(AllDone(runs));
  }

  lemma WrittenNext(done: seq<T.Done>)
    requires done != []
    ensures Recs(Written(done))
            == [Rec(done[0].task.oid, true, done[0].task.start), Rec(done[0].task.oid, false, done[0].finish)]
               + Recs(Written(done[1..]))
  {
    RecsOfPair(done[0], Written(done[1..]));
  }

  /** Every finished task has its two records. */
  lemma {:induction false} WrittenHas(done: seq<T.Done>, i: nat)
    requires i < |done|
    ensures Rec(done[i].task.oid, true, done[i].task.start) in Recs(Written(done))
    ensures Rec(done[i].task.oid, false, done[i].finish) in Recs(Written(done))
    decreases i
  {
    hide Recs, Written;
    WrittenNext(done);
    if i > 0 {
      WrittenHas(done[1..], i - 1);
    }
  }

  /** Every record is of some finished task. */
  lemma {:induction false} WrittenFrom(done: seq<T.Done>, rec: Rec) returns (i: nat)
    requires rec in Recs(Written(done))
    ensures i < |done| && (rec.time == done[i].task.start || rec.time == done[i].finish)
    decreases |done|
  {
    i := 0;
    if done != [] {
      WrittenNext(done);
      if rec in Recs(Written(done[1..])) {
        i := WrittenFrom(done[1..], rec);
        i := i + 1;
      }
      hide Recs, Written;
    }
  }

  lemma {:induction false} WrittenFinishes(done: seq<T.Done>)
    ensures Finishes(Recs(Written(done))) == |done|
  {
    if done != [] {
      WrittenNext(done);
      FinishesOfPair(Rec(done[0].task.oid, true, done[0].task.start), Rec(done[0].task.oid, false, done[0].finish),
                     Recs(Written(done[1..])));
      WrittenFinishes(done[1..]);
    }
  }

  lemma FinishesOfPair(first: Rec, second: Rec, rest: seq<Rec>)
    requires first.starts && !second.starts
    ensures Finishes([first, second] + rest) == 1 + Finishes(rest)
  {
    var all := [first, second] + rest;
    assert all[1..] == [second] + rest && all[1..][1..] == rest;
  }

  lemma TimesFit(done: seq<T.Done>, rec: Rec)
    requires rec in Recs(Written(done)) && forall d :: d in done ==> CleanDone(d)
    ensures rec.time < ULONG
  {
    var i := WrittenFrom(done, rec);
    assert done[i] in done;
  }

  lemma {:induction false} ElapsedIsNatural(done: seq<T.Done>)
    requires forall d :: d in done ==> CleanDone(d)
    ensures Elapsed(done) >= 0
  {
    if done != [] {
      assert done[0] in done;
      ElapsedIsNatural(done[1..]);
    }
  }

  lemma SameResidue(a: nat, b: nat)
    requires a < ULONG && b < ULONG && (a - b) % ULONG == 0
    ensures a == b
  {
  }

  lemma DoneIsPrinted(done: seq<T.Done>)
    requires forall d :: d in done ==> CleanDone(d)
    ensures Prints(Judge(Fields(TextOf(Written(done)), '\n'), ZERO), done)
  {
    hide Judge, Fields, TextOf, Written, Recs, Elapsed, Tallied, Reports, Finishes, CleanDone, Prints;
    var recs := Recs(Written(done));
    DoneIsReported(done);
    forall rec | rec in recs
      ensures rec.time < ULONG
    {
      TimesFit(done, rec);
    }
    FinalReports(recs);
    PrintedFrom(done, Judge(Fields(TextOf(Written(done)), '\n'), ZERO), Tallied(recs, ZERO).value);
  }

  lemma PrintedFrom(done: seq<T.Done>, v: Verdict, r: Tally)
    requires forall d :: d in done ==> CleanDone(d)
    requires r.total < ULONG && (r.total - Elapsed(done)) % ULONG == 0
    requires Reports(Recs(Written(done)), v, r)
    ensures Prints(v, done)
  {
    hide Elapsed, Recs, Written, Finishes, Net, Queued, CleanDone;
    WrittenFinishes(done);
    ElapsedIsNatural(done);
    if done != [] {
      if Elapsed(done) < ULONG {
        SameResidue(r.total, Elapsed(done));
      }
      var i, j := SpanOf(done, r);
      assert v.elapsed == done[j].finish - done[i].task.start;
    }
  }

  /** The task that started first and the one that finished last. */
  lemma SpanOf(done: seq<T.Done>, r: Tally) returns (i: nat, j: nat)
    requires forall d :: d in done ==> CleanDone(d)
    requires var recs := Recs(Written(done));
             && (forall rec :: rec in recs ==> r.low <= rec.time <= r.high)
             && (exists rec :: rec in recs && rec.time == r.low) && (exists rec :: rec in recs && rec.time == r.high)
    ensures i < |done| && j < |done| && done[i].task.start == r.low && done[j].finish == r.high
    ensures forall k :: 0 <= k < |done| ==> r.low <= done[k].task.start <= done[k].finish <= r.high
  {
    hide Recs, Written;
    var recs := Recs(Written(done));
    forall k | 0 <= k < |done|
      ensures r.low <= done[k].task.start <= done[k].finish <= r.high
    {
      WrittenHas(done, k);
      assert done[k] in done;
    }
    var low :| low in recs && low.time == r.low;
    i := WrittenFrom(done, low);
    var high :| high in recs && high.time == r.high;
    j := WrittenFrom(done, high);
  }

  lemma DoneIsReported(done: seq<T.Done>)
    requires forall d :: d in done ==> CleanDone(d)
    ensures Agrees(Written(done), done)
  {
    hide Judge, Fields, TextOf, Written, Recs, Elapsed, Tallied, Final;
    WrittenIsClean(done);
    TextIsJudged(Written(done));
    PairsAreTallied(done, ZERO);
    var r := Tallied(Recs(Written(done)), ZERO).value;
    assert r.total - ZERO.total - Elapsed(done) == r.total - Elapsed(done);
  }

  function AllDone(runs: seq<seq<T.Event>>): seq<T.Done> {
    if runs == [] then [] else T.Trail(T.Opening(true), runs[0]).done + AllDone(runs[1..])
  }

  function AllTraces(runs: seq<seq<T.Event>>): seq<T.Line> {
    if runs == [] then [] else T.Trail(T.Opening(true), runs[0]).m.trace + AllTraces(runs[1..])
  }

  lemma {:induction false} WrittenOfConcat(a: seq<T.Done>, b: seq<T.Done>)
    ensures Written(a + b) == Written(a) + Written(b)
  {
    if a == [] {
      assert a + b == b;
    } else {
      assert (a + b)[1..] == a[1..] + b;
      WrittenOfConcat(a[1..], b);
    }
  }

  lemma {:induction false} TracesAreWritten(runs: seq<seq<T.Event>>)
    requires forall es :: es in runs ==> Traceable(es)
    ensures AllTraces(runs) == Written(AllDone(runs))
    ensures forall d :: d in AllDone(runs) ==> CleanDone(d)
  {
    if runs != [] {
      assert runs[0] in runs;
      var l := T.Trail(T.Opening(true), runs[0]);
      RunIsTraced(T.Opening(true), runs[0]);
      assert forall d :: d in l.done ==> CleanDone(d);
      TracesAreWritten(runs[1..]);
      WrittenOfConcat(l.done, AllDone(runs[1..]));
    }
  }
}
