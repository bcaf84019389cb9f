/** The task manager: fresh task ids, the table of unfinished tasks, and the watcher that posts old ones again. */
module Tasks {
  import opened Prelude

  /** A task in flight.  `cell` is the variable that receives its return value. */
  datatype Task = Task(oid: string, mode: string, tier: string, cell: nat, start: nat)

  /** A line of the trace. */
  datatype Line = Line(oid: string, mode: string, tier: string, phase: string, time: nat)

  datatype Manager = Manager(counter: nat, table: map<nat, Task>, tracing: bool, trace: seq<Line>)

  const RETRY_MSEC := 20000

  function Ticketed(m: Manager): Manager {
    m.(counter := m.counter + 1)
  }

  function Filed(m: Manager, tid: nat, task: Task): Manager {
    m.(table := m.table[tid := task])
  }

  function Lines(t: Task, now: nat): seq<Line> {
    [Line(t.oid, t.mode, t.tier, "s", t.start), Line(t.oid, t.mode, t.tier, "f", now)]
  }

  function Finished(m: Manager, tid: nat, now: nat): Manager {
    if tid !in m.table then m
    else m.(table := m.table - {tid}, trace := if m.tracing then m.trace + Lines(m.table[tid], now) else m.trace)
  }

  predicate Overdue(t: Task, now: nat) {
    now - t.start > RETRY_MSEC
  }

  /** The tasks that a pass of the watcher at `now` posts again, in the order of the table. */
  function Reposts(table: map<nat, Task>, now: nat, below: nat): seq<nat> {
    if below == 0 then []
    else
      var tid := below - 1;
      Reposts(table, now, tid) + if tid in table && Overdue(table[tid], now) then [tid] else []
  }

  function Renewed(m: Manager, now: nat): Manager {
    m.(table := map tid | tid in m.table ::
                  if Overdue(m.table[tid], now) then m.table[tid].(start := now) else m.table[tid])
  }

  predicate Fits(m: Manager) {
    forall tid :: tid in m.table ==> tid < m.counter
  }

  lemma {:induction false} RepostsExact(table: map<nat, Task>, now: nat, below: nat)
    ensures var posts := Reposts(table, now, below);
            && (forall tid :: tid in posts <==> tid < below && tid in table && now - table[tid].start > 20000)
            && (forall i, j :: 0 <= i < j < |posts| ==> posts[i] < posts[j])
  {
    if below > 0 {
      RepostsExact(table, now, below - 1);
      var before, posts := Reposts(table, now, below - 1), Reposts(table, now, below);
      forall i, j | 0 <= i < j < |posts|
        ensures posts[i] < posts[j]
      {
        assert posts[i] == before[i] && before[i] in before;
      }
    }
  }

  class TaskManager {
    var tidCounter: nat
    var taskTable: map<nat, Task>
    var tracing: bool
    var trace: seq<Line>

    constructor (tracing: bool)
      ensures Valid() && Model() == Manager(0, map[], tracing, [])
    {
      tidCounter := 0;
      taskTable := map[];
      this.tracing := tracing;
      trace := [];
    }

    function Model(): Manager
      reads this
    {
      Manager(tidCounter, taskTable, tracing, trace)
    }

    /** The table holds ids that have been drawn. */
    predicate Valid()
      reads this
    {
      Fits(Model())
    }

    method GetTid() returns (tid: nat)
      requires Valid()
      modifies `tidCounter
      ensures Valid() && tid == old(tidCounter) && tidCounter == old(tidCounter) + 1
      ensures Model() == Ticketed(old(Model()))
    {
      tid := tidCounter;
      tidCounter := tidCounter + 1;
    }

    method StartTask(tid: nat, oid: string, mode: string, tier: string, cell: nat, now: nat)
      requires Valid() && tid < tidCounter && tid !in taskTable
      modifies `taskTable
      ensures Valid() && taskTable == old(taskTable)[tid := Task(oid, mode, tier, cell, now)]
      ensures Model() == Filed(old(Model()), tid, Task(oid, mode, tier, cell, now))
    {
      taskTable := taskTable[tid := Task(oid, mode, tier, cell, now)];
    }

    method FinishTask(tid: nat, now: nat) returns (won: bool)
      requires Valid()
      modifies `taskTable, `trace
      ensures Valid() && (won <==> tid in old(taskTable)) && taskTable == old(taskTable) - {tid}
      ensures won && tracing ==>
        var t := old(taskTable)[tid];
        trace == old(trace) + [Line(t.oid, t.mode, t.tier, "s", t.start), Line(t.oid, t.mode, t.tier, "f", now)]
      ensures !won || !tracing ==> trace == old(trace)
      ensures Model() == Finished(old(Model()), tid, now)
    {
      if tid in taskTable {
        var t := taskTable[tid];
        if tracing {
          trace := trace + [Line(t.oid, t.mode, t.tier, "s", t.start)];
          trace := trace + [Line(t.oid, t.mode, t.tier, "f", now)];
        }
        taskTable := taskTable - {tid};
        won := true;
      } else {
        won := false;
      }
    }

    /** One pass of the watcher under its lock; `posts` is what it hands to the workers. */
    method WatchTasks(now: nat) returns (posts: seq<nat>)
      requires Valid()
      requires forall tid :: tid in taskTable ==> taskTable[tid].start <= now
      modifies `taskTable
      ensures forall tid :: tid in posts <==> tid in old(taskTable) && now - old(taskTable)[tid].start > 20000
      ensures forall i, j :: 0 <= i < j < |posts| ==> posts[i] < posts[j]
      ensures taskTable.Keys == old(taskTable).Keys
      ensures forall tid :: tid in taskTable ==>
                var t := old(taskTable)[tid]; taskTable[tid] == if now - t.start > 20000 then t.(start := now) else t
      ensures Valid() && Model() == Renewed(old(Model()), now)
      ensures posts == Reposts(old(taskTable), now, tidCounter)
    {
      posts := [];
      for tid := 0 to tidCounter
        invariant posts == Reposts(old(taskTable), now, tid)
        invariant taskTable.Keys == old(taskTable).Keys
        invariant forall k :: k in taskTable ==>
                    taskTable[k] == if k < tid then Renewed(old(Model()), now).table[k] else old(taskTable)[k]
      {
        if tid in taskTable {
          var t := taskTable[tid];
          assert t == old(taskTable)[tid];
          if now - t.start > RETRY_MSEC {
            taskTable := taskTable[tid := t.(start := now)];
            posts := posts + [tid];
          }
        }
      }
      assert taskTable == Renewed(old(Model()), now).table;
      RepostsExact(old(taskTable), now, tidCounter);
    }
  }

  // ---------------------------------------------------------------- any number of submitters and workers

  /** A task as it stood when one of its executions won, and the time of that. */
  datatype Done = Done(task: Task, finish: nat)

  /** The manager with its surroundings: the tickets drawn but not yet filed, the tasks filed but not yet
      posted by their submitter, every copy ever posted, the winners and what they finished, when each task
      was first filed, how often the watcher has posted it again, and the clock. */
  datatype Ledger = Ledger(m: Manager, pending: set<nat>, unposted: set<nat>, posted: seq<nat>, won: seq<nat>,
                           done: seq<Done>, first: map<nat, nat>, renewals: map<nat, nat>, clock: nat)

  datatype Event =
    | Draw
    | File(tid: nat, oid: string, mode: string, tier: string, cell: nat)
    | Post(tid: nat)
    | Finish(tid: nat)
    | Watch
    | Wait(msec: nat)

  function Opening(tracing: bool): Ledger {
    Ledger(Manager(0, map[], tracing, []), {}, {}, [], [], [], map[], map[], 0)
  }

  /** What the program's own order of calls allows: a submitter files a ticket that it has drawn, and
      posts a task that it has filed. */
  predicate Enabled(l: Ledger, e: Event) {
    (e.File? ==> e.tid in l.pending) && (e.Post? ==> e.tid in l.unposted)
  }

  function Next(l: Ledger, e: Event): Ledger {
    match e
    case Draw => l.(m := Ticketed(l.m), pending := l.pending + {l.m.counter})
    case File(tid, oid, mode, tier, cell) =>
      l.(m := Filed(l.m, tid, Task(oid, mode, tier, cell, l.clock)), pending := l.pending - {tid},
         unposted := l.unposted + {tid}, first := l.first[tid := l.clock], renewals := l.renewals[tid := 0])
    case Post(tid) => l.(posted := l.posted + [tid], unposted := l.unposted - {tid})
    case Finish(tid) =>
      if tid !in l.m.table then l
      else
        l.(m := Finished(l.m, tid, l.clock), won := l.won + [tid], done := l.done + [Done(l.m.table[tid], l.clock)])
    case Watch =>
      l.(m := Renewed(l.m, l.clock), posted := l.posted + Reposts(l.m.table, l.clock, l.m.counter),
         renewals := map tid | tid in l.renewals ::
           l.renewals[tid] + if tid in l.m.table && Overdue(l.m.table[tid], l.clock) then 1 else 0)
    case Wait(msec) => l.(clock := l.clock + msec)
  }

  predicate Legal(l: Ledger, events: seq<Event>)
    decreases |events|
  {
    events != [] ==> Enabled(l, events[0]) && Legal(Next(l, events[0]), events[1..])
  }

  function Trail(l: Ledger, events: seq<Event>): Ledger
    decreases |events|
  {
    if events == [] then l else Trail(Next(l, events[0]), events[1..])
  }

  /** How many copies of a task were ever posted. */
  function Copies(l: Ledger, tid: nat): nat {
    multiset(l.posted)[tid]
  }

  /** Each ticket ever drawn is pending, open or won, and only one of these. */
  ghost predicate Partitioned(l: Ledger) {
    && (forall tid :: tid in l.pending ==> tid < l.m.counter && tid !in l.m.table && tid !in l.won)
    && (forall tid :: tid in l.m.table ==> tid < l.m.counter && tid !in l.won)
    && (forall tid :: tid in l.won ==> tid < l.m.counter)
    && (forall tid: nat :: tid < l.m.counter ==> tid in l.pending || tid in l.m.table || tid in l.won)
    && Distinct(l.won)
  }

  /** A task has been posted once for its submitter and once for each renewal. */
  ghost predicate Counted(l: Ledger) {
    && (forall tid :: tid in l.first <==> tid in l.m.table || tid in l.won)
    && l.renewals.Keys == l.first.Keys && l.unposted <= l.first.Keys
    && (forall tid :: tid in l.first ==> Copies(l, tid) == (if tid in l.unposted then 0 else 1) + l.renewals[tid])
    && (forall tid :: tid in l.posted ==> tid in l.first)
  }

  /** A renewal comes more than RETRY_MSEC after the time that it overwrites. */
  ghost predicate Spaced(l: Ledger) {
    && l.renewals.Keys == l.first.Keys && l.m.table.Keys <= l.first.Keys
    && (forall tid :: tid in l.first ==> l.first[tid] + (RETRY_MSEC + 1) * l.renewals[tid] <= l.clock)
    && (forall tid :: tid in l.m.table ==>
          l.first[tid] + (RETRY_MSEC + 1) * l.renewals[tid] <= l.m.table[tid].start <= l.clock)
  }

  lemma {:induction false} RepostsCount(table: map<nat, Task>, now: nat, below: nat, tid: nat)
    ensures multiset(Reposts(table, now, below))[tid]
            == if tid < below && tid in table && Overdue(table[tid], now) then 1 else 0
  {
    if below > 0 {
      RepostsCount(table, now, below - 1, tid);
    }
  }

  lemma PartitionKept(l: Ledger, e: Event)
    requires Partitioned(l) && Enabled(l, e)
    ensures Partitioned(Next(l, e))
  {
  }

  lemma WatchAddsCopies(l: Ledger, tid: nat)
    requires Fits(l.m)
    ensures Copies(Next(l, Watch), tid)
            == Copies(l, tid) + if tid in l.m.table && Overdue(l.m.table[tid], l.clock) then 1 else 0
  {
    RepostsCount(l.m.table, l.clock, l.m.counter, tid);
  }

  lemma WatchKeepsCount(l: Ledger)
    requires Partitioned(l) && Counted(l)
    ensures Counted(Next(l, Watch))
  {
    var v := Next(l, Watch);
    forall tid | tid in v.first
      ensures Copies(v, tid) == (if tid in v.unposted then 0 else 1) + v.renewals[tid]
    {
      WatchAddsCopies(l, tid);
    }
    forall tid | tid in v.posted
      ensures tid in v.first
    {
      WatchAddsCopies(l, tid);
      assert Copies(v, tid) > 0;
      assert Copies(l, tid) > 0 ==> tid in l.posted;
    }
    assert v.m.table.Keys == l.m.table.Keys;
  }

  lemma FilingKeepsCount(l: Ledger, e: Event)
    requires Partitioned(l) && Counted(l) && Enabled(l, e) && e.File?
    ensures Counted(Next(l, e))
  {
    assert e.tid !in l.first;
    assert Copies(l, e.tid) == 0 by {
      assert e.tid !in l.posted;
    }
  }

  lemma CountKept(l: Ledger, e: Event)
    requires Partitioned(l) && Counted(l) && Enabled(l, e)
    ensures Counted(Next(l, e))
  {
    match e
    case Watch => WatchKeepsCount(l);
    case File(_, _, _, _, _) => FilingKeepsCount(l, e);
    case _ =>
  }

  lemma SpacingKept(l: Ledger, e: Event)
    requires Partitioned(l) && Counted(l) && Spaced(l) && Enabled(l, e)
    ensures Spaced(Next(l, e))
  {
  }

  lemma {:induction false} BooksBalance(l: Ledger, events: seq<Event>)
    requires Partitioned(l) && Counted(l) && Spaced(l) && Legal(l, events)
    ensures var v := Trail(l, events); Partitioned(v) && Counted(v) && Spaced(v)
    decreases |events|
  {
    if events != [] {
      PartitionKept(l, events[0]);
      CountKept(l, events[0]);
      SpacingKept(l, events[0]);
      BooksBalance(Next(l, events[0]), events[1..]);
    }
  }

  /** At-most-once completion, with any interleaving of submitters, workers and watcher passes: a task
      wins `FinishTask` at most once, a ticket that is about to be filed is never in the table, and a
      task that has won is never open again. */
  lemma AtMostOnce(tracing: bool, events: seq<Event>)
    requires Legal(Opening(tracing), events)
    ensures var l := Trail(Opening(tracing), events);
            && Distinct(l.won)
            && (forall tid :: tid in l.pending ==> tid !in l.m.table)
            && (forall tid :: tid in l.won ==> tid !in l.m.table && tid !in l.pending)
  {
    BooksBalance(Opening(tracing), events);
  }

  /** A task is posted once by its submitter and once more for each renewal, renewals are at least
      20001 ms apart, and no task ever starts after the clock, so the watcher's assertion holds. */
  lemma RepostRate(tracing: bool, events: seq<Event>, tid: nat)
    requires Legal(Opening(tracing), events)
    requires tid in Trail(Opening(tracing), events).first
    ensures var l := Trail(Opening(tracing), events);
            && tid in l.renewals
            && Copies(l, tid) == (if tid in l.unposted then 0 else 1) + l.renewals[tid]
            && l.first[tid] <= l.clock
            && l.renewals[tid] <= (l.clock - l.first[tid]) / 20001
            && (tid in l.m.table ==> l.m.table[tid].start <= l.clock)
  {
    BooksBalance(Opening(tracing), events);
    var l := Trail(Opening(tracing), events);
    QuotientBound(l.renewals[tid], l.clock - l.first[tid]);
  }

  /** The watcher is prompt: right after any of its passes no open task is older than 20000 ms, and the pass
      has posted each task that was older once more, and no other. */
  lemma WatchIsPrompt(tracing: bool, events: seq<Event>)
    requires Legal(Opening(tracing), events)
    ensures var l := Trail(Opening(tracing), events);
            var v := Next(l, Watch);
            && v.m.table.Keys == l.m.table.Keys && v.clock == l.clock
            && (forall tid :: tid in v.m.table ==> v.clock - v.m.table[tid].start <= 20000)
            && (forall tid :: tid in l.m.table ==>
                  if l.clock - l.m.table[tid].start > 20000
                  then v.m.table[tid].start == l.clock && Copies(v, tid) == Copies(l, tid) + 1
                  else v.m.table[tid] == l.m.table[tid] && Copies(v, tid) == Copies(l, tid))
  {
    BooksBalance(Opening(tracing), events);
    var l := Trail(Opening(tracing), events);
    forall tid | tid in l.m.table
      ensures Copies(Next(l, Watch), tid) == Copies(l, tid) + if l.clock - l.m.table[tid].start > 20000 then 1 else 0
    {
      WatchAddsCopies(l, tid);
    }
  }

  lemma QuotientBound(n: nat, span: nat)
    requires (RETRY_MSEC + 1) * n <= span
    ensures n <= span / (RETRY_MSEC + 1)
  {
  }

  // ---------------------------------------------------------------- what the trace calls the start

  /** `start` stands for the time of the first filing, moved on by the renewals. */
  predicate Starts(first: nat, renewals: nat, start: nat) {
    first + (RETRY_MSEC + 1) * renewals <= start && (renewals == 0 ==> start == first)
  }

  ghost predicate Dated(l: Ledger) {
    && |l.done| == |l.won| && l.renewals.Keys == l.first.Keys
    && (forall tid :: tid in l.m.table ==>
          tid in l.first && Starts(l.first[tid], l.renewals[tid], l.m.table[tid].start) && l.m.table[tid].start <= l.clock)
    && (forall i :: 0 <= i < |l.won| ==>
          l.won[i] in l.first && Starts(l.first[l.won[i]], l.renewals[l.won[i]], l.done[i].task.start))
  }

  lemma DatedKept(l: Ledger, e: Event)
    requires Partitioned(l) && Dated(l) && Enabled(l, e)
    ensures Dated(Next(l, e))
  {
    var v := Next(l, e);
    forall i | 0 <= i < |l.won|
      ensures v.won[i] in v.first && Starts(v.first[v.won[i]], v.renewals[v.won[i]], v.done[i].task.start)
    {
      assert l.won[i] in l.won;
    }
  }

  lemma {:induction false} DatesStand(l: Ledger, events: seq<Event>)
    requires Partitioned(l) && Dated(l) && Legal(l, events)
    ensures Dated(Trail(l, events))
    decreases |events|
  {
    if events != [] {
      PartitionKept(l, events[0]);
      DatedKept(l, events[0]);
      DatesStand(Next(l, events[0]), events[1..]);
    }
  }

  /** The start that the trace gives for a task is the time at which the task was first filed exactly when
      the watcher has never posted it again; each time that it has, the recorded latency is at least
      20001 ms too short. */
  lemma RecordedStartIsFirstIff(tracing: bool, events: seq<Event>, tid: nat)
    requires Legal(Opening(tracing), events)
    requires tid in Trail(Opening(tracing), events).first
    ensures var l := Trail(Opening(tracing), events);
            && tid in l.renewals && |l.done| == |l.won|
            && (tid in l.m.table ==> (l.m.table[tid].start == l.first[tid] <==> l.renewals[tid] == 0))
            && (forall i :: 0 <= i < |l.won| && l.won[i] == tid ==>
                  && (l.done[i].task.start == l.first[tid] <==> l.renewals[tid] == 0)
                  && l.done[i].finish - l.done[i].task.start
                     <= l.done[i].finish - l.first[tid] - 20001 * l.renewals[tid])
  {
    DatesStand(Opening(tracing), events);
  }
}
