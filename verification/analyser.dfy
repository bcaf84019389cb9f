/** The trace analyser: it matches the finishes of each object with its starts, first in, first out. */
module Analyser {
  import opened Prelude
  import opened Text

  /** What the analyser takes from a line. */
  datatype Rec = Rec(oid: string, starts: bool, time: nat)

  /** A line with fewer than five fields is read out of bounds. */
  function Parse(line: string): Option<Rec> {
    var fields := Fields(line, ',');
    if |fields| < 5 then None else Some(Rec(fields[0], fields[3] == "s", Unsigned(Atol(fields[4]))))
  }

  /** A line is read if it has five fields or more, of which the first, the fourth and the fifth count. */
  lemma ParseIff(fields: seq<string>)
    requires fields != [] && fields[|fields| - 1] != "" && forall f :: f in fields ==> Free(f, ',')
    ensures Parse(Join(fields, ','))
            == if |fields| < 5 then None
               else Some(Rec(fields[0], fields[3] == "s", Atol(fields[4]) % 18446744073709551616))
  {
    FieldsOfJoinIff(fields, ',');
    hide Fields, Join, Atol;
  }

  datatype Tally = Tally(latencies: map<string, seq<nat>>, total: nat, count: nat, low: nat, high: nat)

  const ZERO := Tally(map[], 0, 0, ULONG - 1, 0)

  predicate Tidy(t: Tally) {
    forall oid :: oid in t.latencies ==> t.latencies[oid] != []
  }

  function Stretched(t: Tally, time: nat): Tally {
    t.(low := if time < t.low then time else t.low, high := if time > t.high then time else t.high)
  }

  /** One record; `None` when a finish has no start to match and the analyser aborts. */
  function Take(t: Tally, rec: Rec): (r: Option<Tally>)
    requires Tidy(t)
    ensures r.Some? ==> Tidy(r.value)
  {
    var s := Stretched(t, rec.time);
    if rec.starts then
      var q := if rec.oid in t.latencies then t.latencies[rec.oid] + [rec.time] else [rec.time];
      Some(s.(latencies := t.latencies[rec.oid := q]))
    else if rec.oid !in t.latencies then None
    else
      var q := t.latencies[rec.oid];
      Some(s.(total := (t.total + Unsigned(rec.time - q[0])) % ULONG, count := t.count + 1,
              latencies := if q[1..] == [] then t.latencies - {rec.oid} else t.latencies[rec.oid := q[1..]]))
  }

  function Tallied(recs: seq<Rec>, t: Tally): (r: Option<Tally>)
    requires Tidy(t)
    ensures r.Some? ==> Tidy(r.value)
    decreases |recs|
  {
    if recs == [] then Some(t)
    else
      match Take(t, recs[0])
      case None => None
      case Some(s) => Tallied(recs[1..], s)
  }

  datatype Verdict = Report(average: nat, elapsed: nat) | Bug | Malformed | DivideByZero

  function Final(t: Tally): Verdict {
    if t.count == 0 then DivideByZero else Report(t.total / t.count, Unsigned(t.high - t.low))
  }

  function Judge(lines: seq<string>, t: Tally): Verdict
    requires Tidy(t)
    decreases |lines|
  {
    if lines == [] then Final(t)
    else
      match Parse(lines[0])
      case None => Malformed
      case Some(rec) =>
        match Take(t, rec)
        case None => Bug
        case Some(s) => Judge(lines[1..], s)
  }

  /** The analyser's main loop. */
  method Analyse(text: string) returns (v: Verdict)
    ensures v == Judge(Fields(text, '\n'), ZERO)
  {
    hide Judge, Fields, Atol;
    var lines := Split(text, '\n');
    var latencies: map<string, seq<nat>> := map[];
    var total: nat, count: nat, low: nat, high: nat := 0, 0, ULONG - 1, 0;
    for i := 0 to |lines|
      invariant Tidy(Tally(latencies, total, count, low, high))
      invariant Judge(lines[i..], Tally(latencies, total, count, low, high)) == Judge(lines, ZERO)
    {
      ghost var before := Tally(latencies, total, count, low, high);
      JudgeStep(lines, i, before);
      var fields := Split(lines[i], ',');
      if |fields| < 5 {
        return Malformed;
      }
      var oid, time := fields[0], Unsigned(Atol(fields[4]));
      if time < low {
        low := time;
      }
      if time > high {
        high := time;
      }
      if fields[3] == "s" {
        if oid !in latencies {
          latencies := latencies[oid := [time]];
        } else {
          latencies := latencies[oid := latencies[oid] + [time]];
        }
      } else {
        if oid !in latencies {
          return Bug;
        }
        var values := latencies[oid];
        total := (total + Unsigned(time - values[0])) % ULONG;
        count := count + 1;
        values := values[1..];
        latencies := if values == [] then latencies - {oid} else latencies[oid := values];
      }
      assert Take(before, Rec(oid, fields[3] == "s", time)) == Some(Tally(latencies, total, count, low, high));
    }
    JudgeEnd(lines, Tally(latencies, total, count, low, high));
    if count == 0 {
      return DivideByZero;
    }
    v := Report(total / count, Unsigned(high - low));
  }

  lemma JudgeStep(lines: seq<string>, i: nat, t: Tally)
    requires Tidy(t) && i < |lines|
    ensures Judge(lines[i..], t) ==
      match Parse(lines[i])
      case None => Malformed
      case Some(rec) =>
        match Take(t, rec)
        case None => Bug
        case Some(s) => Judge(lines[i + 1..], s)
  {
    assert lines[i..][0] == lines[i] && lines[i..][1..] == lines[i + 1..];
  }

  lemma JudgeEnd(lines: seq<string>, t: Tally)
    requires Tidy(t)
    ensures Judge(lines[|lines|..], t) == Final(t)
  {
  }

  // ---------------------------------------------------------------- any interleaved trace

  function StartsOf(recs: seq<Rec>, oid: string): seq<nat> {
    if recs == [] then []
    else (if recs[0].starts && recs[0].oid == oid then [recs[0].time] else []) + StartsOf(recs[1..], oid)
  }

  function FinishesOf(recs: seq<Rec>, oid: string): nat {
    if recs == [] then 0
    else (if !recs[0].starts && recs[0].oid == oid then 1 else 0) + FinishesOf(recs[1..], oid)
  }

  function Queue(t: Tally, oid: string): seq<nat> {
    if oid in t.latencies then t.latencies[oid] else []
  }

  /** No prefix finishes an object more often than it has been started. */
  ghost predicate Matched(recs: seq<Rec>, t: Tally) {
    forall k, oid :: 0 <= k <= |recs| ==>
      FinishesOf(recs[..k], oid) <= |Queue(t, oid)| + |StartsOf(recs[..k], oid)|
  }

  lemma TakeQueues(t: Tally, rec: Rec, oid: string)
    requires Tidy(t)
    ensures Take(t, rec) == None <==> !rec.starts && Queue(t, rec.oid) == []
    ensures Take(t, rec).Some? ==>
      var q, r := Queue(t, oid), Queue(Take(t, rec).value, oid);
      if oid != rec.oid then r == q else if rec.starts then r == q + [rec.time] else q != [] && r == q[1..]
  {
  }

  lemma ShiftMatched(recs: seq<Rec>, t: Tally)
    requires Tidy(t) && recs != [] && Take(t, recs[0]).Some?
    ensures Matched(recs, t) <==> Matched(recs[1..], Take(t, recs[0]).value)
  {
    var s := Take(t, recs[0]).value;
    forall k, oid | 0 <= k < |recs|
      ensures FinishesOf(recs[..k + 1], oid) <= |Queue(t, oid)| + |StartsOf(recs[..k + 1], oid)|
          <==> FinishesOf(recs[1..][..k], oid) <= |Queue(s, oid)| + |StartsOf(recs[1..][..k], oid)|
    {
      TakeQueues(t, recs[0], oid);
      assert recs[..k + 1][1..] == recs[1..][..k];
    }
    if Matched(recs[1..], s) {
      forall k, oid | 0 <= k <= |recs|
        ensures FinishesOf(recs[..k], oid) <= |Queue(t, oid)| + |StartsOf(recs[..k], oid)|
      {
        if k > 0 {
          assert FinishesOf(recs[1..][..k - 1], oid) <= |Queue(s, oid)| + |StartsOf(recs[1..][..k - 1], oid)|;
        }
      }
    }
    if Matched(recs, t) {
      forall k, oid | 0 <= k <= |recs| - 1
        ensures FinishesOf(recs[1..][..k], oid) <= |Queue(s, oid)| + |StartsOf(recs[1..][..k], oid)|
      {
        assert FinishesOf(recs[..k + 1], oid) <= |Queue(t, oid)| + |StartsOf(recs[..k + 1], oid)|;
      }
    }
  }

  /** The analyser gets through a trace exactly when no prefix of it has more finishes than starts of some
      object. */
  lemma {:induction false} AbortsIff(recs: seq<Rec>, t: Tally)
    requires Tidy(t)
    ensures Tallied(recs, t).Some? <==> Matched(recs, t)
    decreases |recs|
  {
    if recs != [] {
      TakeQueues(t, recs[0], recs[0].oid);
      if Take(t, recs[0]) == None {
        assert recs[..1] == [recs[0]];
        assert FinishesOf(recs[..1], recs[0].oid) == 1 + FinishesOf([], recs[0].oid) by {
          assert recs[..1][1..] == [];
        }
        assert StartsOf(recs[..1], recs[0].oid) == [] by {
          assert recs[..1][1..] == [];
        }
        assert !Matched(recs, t);
      } else {
        ShiftMatched(recs, t);
        AbortsIff(recs[1..], Take(t, recs[0]).value);
      }
    }
  }

  /** First in, first out: what is queued for an object is its starts less as many of the earliest ones
      as it has finishes. */
  lemma {:induction false} QueuesAreFifo(recs: seq<Rec>, t: Tally, oid: string)
    requires Tidy(t) && Tallied(recs, t).Some?
    ensures var all := Queue(t, oid) + StartsOf(recs, oid);
            FinishesOf(recs, oid) <= |all| && Queue(Tallied(recs, t).value, oid) == all[FinishesOf(recs, oid)..]
    decreases |recs|
  {
    if recs != [] {
      var s := Take(t, recs[0]).value;
      QueuesAreFifo(recs[1..], s, oid);
      ShiftFifo(recs, t, oid);
    }
  }

  lemma ShiftFifo(recs: seq<Rec>, t: Tally, oid: string)
    requires Tidy(t) && recs != [] && Take(t, recs[0]).Some?
    ensures var all := Queue(t, oid) + StartsOf(recs, oid);
            var rest := Queue(Take(t, recs[0]).value, oid) + StartsOf(recs[1..], oid);
            if recs[0].oid == oid && !recs[0].starts
            then all != [] && rest == all[1..] && FinishesOf(recs, oid) == 1 + FinishesOf(recs[1..], oid)
            else rest == all && FinishesOf(recs, oid) == FinishesOf(recs[1..], oid)
  {
    TakeQueues(t, recs[0], oid);
    FirstCounts(recs, oid);
    FirstMoves(Queue(t, oid), recs[0].time, StartsOf(recs[1..], oid));
    hide *;
  }

  lemma FirstMoves(q: seq<nat>, x: nat, later: seq<nat>)
    ensures q + [x] + later == q + ([x] + later)
    ensures q != [] ==> (q + later)[1..] == q[1..] + later
  {
  }

  lemma FirstCounts(recs: seq<Rec>, oid: string)
    requires recs != []
    ensures StartsOf(recs, oid)
         == if recs[0].oid == oid && recs[0].starts then [recs[0].time] + StartsOf(recs[1..], oid)
            else StartsOf(recs[1..], oid)
    ensures FinishesOf(recs, oid)
         == FinishesOf(recs[1..], oid) + if recs[0].oid == oid && !recs[0].starts then 1 else 0
  {
  }

  // ---------------------------------------------------------------- the total

  function Sum(q: seq<nat>): nat {
    if q == [] then 0 else q[0] + Sum(q[1..])
  }

  lemma {:induction false} SumOfAppend(q: seq<nat>, x: nat)
    ensures Sum(q + [x]) == Sum(q) + x
  {
    if q == [] {
      assert q + [x] == [x];
      assert [x][1..] == [];
    } else {
      assert (q + [x])[1..] == q[1..] + [x];
      SumOfAppend(q[1..], x);
    }
  }

  lemma SmallerWithout(m: map<string, seq<nat>>, k: string)
    requires k in m
    ensures |m - {k}| < |m|
  {
    assert m.Keys == (m - {k}).Keys + {k};
  }

  /** The sum of everything queued. */
  ghost function Queued(m: map<string, seq<nat>>): nat
    decreases |m|
  {
    if m == map[] then 0
    else
      var k :| k in m;
      SmallerWithout(m, k);
      Sum(m[k]) + Queued(m - {k})
  }

  lemma {:induction false} QueuedWithout(m: map<string, seq<nat>>, k: string)
    requires k in m
    ensures Queued(m) == Sum(m[k]) + Queued(m - {k})
    decreases |m|
  {
    var j := QueuedPicks(m);
    hide Queued, Sum;
    if j != k {
      SmallerWithout(m, j);
      SmallerWithout(m, k);
      QueuedWithout(m - {j}, k);
      QueuedWithout(m - {k}, j);
      assert m - {j} - {k} == m - {k} - {j};
    }
  }

  lemma QueuedPicks(m: map<string, seq<nat>>) returns (j: string)
    requires m != map[]
    ensures j in m && Queued(m) == Sum(m[j]) + Queued(m - {j})
  {
    j :| j in m && Queued(m) == Sum(m[j]) + Queued(m - {j});
  }

  lemma QueuedUpdate(m: map<string, seq<nat>>, k: string, q: seq<nat>)
    ensures Queued(m[k := q]) + (if k in m then Sum(m[k]) else 0) == Queued(m) + Sum(q)
  {
    QueuedWithout(m[k := q], k);
    assert m[k := q] - {k} == m - {k};
    if k in m {
      QueuedWithout(m, k);
    } else {
      assert m - {k} == m;
    }
  }

  function Signed(rec: Rec): int {
    if rec.starts then 0 - rec.time else rec.time
  }

  /** Finish times less start times. */
  function Net(recs: seq<Rec>): int {
    if recs == [] then 0 else Signed(recs[0]) + Net(recs[1..])
  }

  lemma ModularStep(total: nat, d: int)
    ensures ((total + Unsigned(d)) % ULONG - total - d) % ULONG == 0
  {
    var u := Unsigned(d);
    assert d == u + ULONG * (d / ULONG);
    var v := total + u;
    assert v == v % ULONG + ULONG * (v / ULONG);
    assert v % ULONG - total - d == ULONG * (-(v / ULONG) - d / ULONG);
    MultipleOf(-(v / ULONG) - d / ULONG);
  }

  lemma MultipleOf(k: int)
    ensures (ULONG * k) % ULONG == 0
  {
  }

  lemma SumModular(a: int, b: int)
    requires a % ULONG == 0 && b % ULONG == 0
    ensures (a + b) % ULONG == 0
  {
  }

  lemma TakeBalances(t: Tally, rec: Rec)
    requires Tidy(t) && Take(t, rec).Some?
    ensures var s := Take(t, rec).value;
            (s.total - t.total - Signed(rec) - Queued(s.latencies) + Queued(t.latencies)) % ULONG == 0
            && s.count == t.count + if rec.starts then 0 else 1
  {
    var q := Queue(t, rec.oid);
    if rec.starts {
      assert rec.oid !in t.latencies ==> q + [rec.time] == [rec.time];
      QueuedUpdate(t.latencies, rec.oid, q + [rec.time]);
      SumOfAppend(q, rec.time);
    } else {
      ModularStep(t.total, rec.time - q[0]);
      if q[1..] == [] {
        QueuedWithout(t.latencies, rec.oid);
      } else {
        QueuedUpdate(t.latencies, rec.oid, q[1..]);
      }
    }
  }

  function Finishes(recs: seq<Rec>): nat {
    if recs == [] then 0 else (if recs[0].starts then 0 else 1) + Finishes(recs[1..])
  }

  /** Conservation on any trace that the analyser gets through: modulo 2^64, the total is all finish
      times less all start times plus the start times still queued; the count is the finishes; and no
      queue is left empty. */
  lemma {:induction false} TotalIsConserved(recs: seq<Rec>, t: Tally)
    requires Tidy(t) && Tallied(recs, t).Some?
    ensures var v := Tallied(recs, t).value;
            && Tidy(v) && v.count == t.count + Finishes(recs)
            && (v.total - t.total - Net(recs) - Queued(v.latencies) + Queued(t.latencies)) % ULONG == 0
    decreases |recs|
  {
    if recs != [] {
      var s := Take(t, recs[0]).value;
      var v := Tallied(recs, t).value;
      TakeBalances(t, recs[0]);
      TotalIsConserved(recs[1..], s);
      SumModular(s.total - t.total - Signed(recs[0]) - Queued(s.latencies) + Queued(t.latencies),
                 v.total - s.total - Net(recs[1..]) - Queued(v.latencies) + Queued(s.latencies));
    }
  }

  // ---------------------------------------------------------------- the elapsed time

  /** The two ends of the elapsed time are the earliest and the latest time of the trace. */
  lemma {:induction false} SpanIsExact(recs: seq<Rec>, t: Tally)
    requires Tidy(t) && Tallied(recs, t).Some?
    ensures var v := Tallied(recs, t).value;
            && v.low <= t.low && t.high <= v.high
            && (forall r :: r in recs ==> v.low <= r.time <= v.high)
            && (v.low == t.low || exists r :: r in recs && r.time == v.low)
            && (v.high == t.high || exists r :: r in recs && r.time == v.high)
    decreases |recs|
  {
    if recs != [] {
      var s := Take(t, recs[0]).value;
      SpanIsExact(recs[1..], s);
      assert s.low == t.low || s.low == recs[0].time;
      assert s.high == t.high || s.high == recs[0].time;
      assert recs[0] in recs && forall r :: r in recs ==> r == recs[0] || r in recs[1..];
    }
  }

  // ---------------------------------------------------------------- from the text to the report

  /** The records of the lines before the first one that has too few fields. */
  function Parsed(lines: seq<string>): seq<Rec> {
    if lines == [] then []
    else
      match Parse(lines[0])
      case None => []
      case Some(rec) => [rec] + Parsed(lines[1..])
  }

  lemma {:induction false} JudgeIsTally(lines: seq<string>, t: Tally)
    requires Tidy(t)
    ensures |Parsed(lines)| <= |lines|
    ensures Judge(lines, t) ==
      match Tallied(Parsed(lines), t)
      case None => Bug
      case Some(v) => if |Parsed(lines)| == |lines| then Final(v) else Malformed
    decreases |lines|
  {
    hide Parse, Take, Final;
    if lines != [] {
      JudgeIsTally(lines[1..], t);
      if Parse(lines[0]).Some? {
        var rec, rest := Parse(lines[0]).value, Parsed(lines[1..]);
        assert ([rec] + rest)[1..] == rest;
        if Take(t, rec).Some? {
          JudgeIsTally(lines[1..], Take(t, rec).value);
        }
      }
    }
  }

  /** The tally is what the records say: the count is the finishes, the total is the finishes less the
      starts that they have been matched with, what is queued for an object is its starts without the
      earliest, and every time is within the span. */
  ghost predicate Accounts(recs: seq<Rec>, r: Tally) {
    && Tidy(r) && r.count == Finishes(recs) && (r.total - Net(recs) - Queued(r.latencies)) % ULONG == 0
    && (forall oid :: FinishesOf(recs, oid) <= |StartsOf(recs, oid)|
                      && Queue(r, oid) == StartsOf(recs, oid)[FinishesOf(recs, oid)..])
    && (forall rec :: rec in recs ==> r.low <= rec.time <= r.high)
  }

  lemma TallyAccounts(recs: seq<Rec>)
    requires Tallied(recs, ZERO).Some?
    ensures Accounts(recs, Tallied(recs, ZERO).value)
  {
    var r := Tallied(recs, ZERO).value;
    TotalIsConserved(recs, ZERO);
    assert r.total - ZERO.total - Net(recs) - Queued(r.latencies) + Queued(ZERO.latencies)
        == r.total - Net(recs) - Queued(r.latencies);
    SpanIsExact(recs, ZERO);
    hide Queued, Tallied, Net;
    forall oid
      ensures FinishesOf(recs, oid) <= |StartsOf(recs, oid)| && Queue(r, oid) == StartsOf(recs, oid)[FinishesOf(recs, oid)..]
    {
      QueuesAreFifo(recs, ZERO, oid);
      assert Queue(ZERO, oid) + StartsOf(recs, oid) == StartsOf(recs, oid);
    }
  }

  /** What the analyser makes of any text at all.  Of the lines before the first one that it cannot read,
      it aborts exactly when some prefix has more finishes than starts of some object; otherwise it goes
      on to that line, or, if there is none, reports what the records say. */
  lemma TextVerdict(text: string)
    ensures var lines := Fields(text, '\n');
            var recs, v := Parsed(lines), Judge(lines, ZERO);
            && (v == Bug <==> !Matched(recs, ZERO))
            && (v == Malformed <==> Matched(recs, ZERO) && |recs| < |lines|)
            && (Matched(recs, ZERO) ==>
                  Tallied(recs, ZERO).Some?
                  && var r := Tallied(recs, ZERO).value;
                     Accounts(recs, r) && (|recs| == |lines| ==> v == Final(r)))
  {
    var lines := Fields(text, '\n');
    var recs := Parsed(lines);
    JudgeIsTally(lines, ZERO);
    AbortsIff(recs, ZERO);
    if Tallied(recs, ZERO).Some? {
      TallyAccounts(recs);
    }
    hide Fields, Parsed, Judge, Tallied, Matched, Accounts;
  }

  lemma {:induction false} ParsedTimes(lines: seq<string>)
    ensures forall rec :: rec in Parsed(lines) ==> rec.time < ULONG
  {
    hide Fields, Atol;
    if lines != [] {
      ParsedTimes(lines[1..]);
    }
  }

  lemma DivisionBounds(total: nat, n: nat)
    requires n > 0
    ensures total / n * n <= total < (total / n + 1) * n
  {
    assert total == total / n * n + total % n;
    assert (total / n + 1) * n == total / n * n + n;
  }

  /** The two numbers that the analyser prints for these records.  The first is the total divided by the
      number of finishes, rounded down; the second is the latest time less the earliest.  Without a finish
      there is nothing to divide by. */
  ghost predicate Reports(recs: seq<Rec>, v: Verdict, r: Tally) {
    var n := Finishes(recs);
    && (v == DivideByZero <==> n == 0)
    && r.total < 18446744073709551616 && (r.total - Net(recs) - Queued(r.latencies)) % 18446744073709551616 == 0
    && (n > 0 ==>
          && v.Report? && v.average * n <= r.total < (v.average + 1) * n && v.elapsed == r.high - r.low
          && (forall rec :: rec in recs ==> r.low <= rec.time <= r.high)
          && (exists rec :: rec in recs && rec.time == r.low)
          && (exists rec :: rec in recs && rec.time == r.high))
  }

  lemma FinalReports(recs: seq<Rec>)
    requires Tallied(recs, ZERO).Some? && forall rec :: rec in recs ==> rec.time < ULONG
    ensures var r := Tallied(recs, ZERO).value; Reports(recs, Final(r), r)
  {
    var r := Tallied(recs, ZERO).value;
    TallyAccounts(recs);
    TotalIsBelow(recs, ZERO);
    if Finishes(recs) > 0 {
      DivisionBounds(r.total, Finishes(recs));
      SpanIsExact(recs, ZERO);
      SpanIsAttained(recs, r);
      assert Unsigned(r.high - r.low) == r.high - r.low;
    }
    hide Tallied, Queued, Net, Queue, StartsOf, FinishesOf;
  }

  /** What the analyser prints for a text that it gets through. */
  lemma ReportIsExact(text: string)
    requires var lines := Fields(text, '\n'); |Parsed(lines)| == |lines| && Matched(Parsed(lines), ZERO)
    ensures var lines := Fields(text, '\n');
            var recs := Parsed(lines);
            Tallied(recs, ZERO).Some? && Reports(recs, Judge(lines, ZERO), Tallied(recs, ZERO).value)
  {
    hide Fields, Parsed, Judge, Tallied, Matched, Reports;
    var lines := Fields(text, '\n');
    TextVerdict(text);
    ParsedTimes(lines);
    FinalReports(Parsed(lines));
  }

  lemma {:induction false} TotalIsBelow(recs: seq<Rec>, t: Tally)
    requires Tidy(t) && t.total < ULONG && Tallied(recs, t).Some?
    ensures Tallied(recs, t).value.total < ULONG
    decreases |recs|
  {
    if recs != [] {
      TotalIsBelow(recs[1..], Take(t, recs[0]).value);
    }
  }

  lemma SpanIsAttained(recs: seq<Rec>, r: Tally)
    requires recs != [] && (forall rec :: rec in recs ==> rec.time < ULONG && r.low <= rec.time <= r.high)
    requires r.low <= ULONG - 1
    requires r.low == ULONG - 1 || exists rec :: rec in recs && rec.time == r.low
    requires r.high == 0 || exists rec :: rec in recs && rec.time == r.high
    ensures exists rec :: rec in recs && rec.time == r.low
    ensures exists rec :: rec in recs && rec.time == r.high
    ensures r.low <= r.high < ULONG
  {
    assert recs[0] in recs;
  }
}
