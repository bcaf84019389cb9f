/** When a replay can end at all. */
module Progress {
  import opened Pipeline
  import opened Prelude

  /** Nothing has been stored, or is about to be, that the loops do not take for a finished operation. */
  ghost predicate Calm(p: Pipe)
    requires Shaped(p)
  {
    && p.stage != Failed
    && (forall j :: 0 <= j < |p.cells| && p.h.occupant[j] == Vacant ==> Idle(p.mode, p.cells[j]))
    && (forall id :: id in p.copies && p.copies[id].won.Some? ==> Idle(p.mode, p.copies[id].won.value))
  }

  /** There is a cell to submit to, or nothing left to submit. */
  predicate Roomy(p: Pipe) {
    |p.cells| > 0 || p.next == |p.objects|
  }

  ghost predicate Finishes(p: Pipe, events: seq<Event>) {
    Legal(p, events) && NoEarlyReturn(events) && Trail(p, events).stage == AllDone
  }

  lemma CalmKept(p: Pipe, e: Event)
    requires Sound(p) && Calm(p) && Enabled(p, e) && !e.ReturnEarly? && (e.Run? ==> Idle(p.mode, e.r))
    ensures Shaped(Next(p, e)) && Calm(Next(p, e))
  {
    hide Sound, Calm, Next;
    match e
    case Client(now) => ClientKeepsCalm(p, now);
    case Repost(tid) => RepostKeepsCalm(p, tid);
    case Run(id, r, now) => RunKeepsCalm(p, id, r, now);
    case Deliver(id) => DeliverKeepsCalm(p, id);
  }

  lemma RepostKeepsCalm(p: Pipe, tid: nat)
    requires Sound(p) && Calm(p) && tid in p.m.table
    ensures var v := Next(p, Repost(tid)); Shaped(v) && Calm(v)
  {
  }

  lemma RunKeepsCalm(p: Pipe, id: nat, r: int, now: nat)
    requires Sound(p) && Calm(p) && Enabled(p, Run(id, r, now)) && Idle(p.mode, r)
    ensures var v := Next(p, Run(id, r, now)); Shaped(v) && Calm(v)
  {
    hide Guarded, Owned, Awaited, Settled, Drained;
  }

  lemma DeliverKeepsCalm(p: Pipe, id: nat)
    requires Sound(p) && Calm(p) && Enabled(p, Deliver(id))
    ensures var v := Next(p, Deliver(id)); Shaped(v) && Calm(v)
  {
    hide Guarded, Owned, Awaited, Settled, Drained;
  }

  lemma ClientKeepsCalm(p: Pipe, now: nat)
    requires Sound(p) && Calm(p)
    ensures var v := Next(p, Client(now)); Shaped(v) && Calm(v)
  {
    ClientKeepsSound(p, now);
    hide Owned, Awaited, Settled;
  }

  // ---------------------------------------------------------------- the way to the end

  /** How many steps the client is away from the next submission or from the end, if nothing is in flight. */
  function Rank(p: Pipe): nat
    requires Shaped(p)
  {
    var n := |p.cells|;
    match p.stage
    case Started(_, _) => 2 * n + 9
    case Scanning(j) => if j == n then 2 * n + 8 else 2 * n + 7
    case Claimed(_) => 2 * n + 6
    case Drawn(_, _) => 2 * n + 5
    case Draining(j, done) => if done == j then n - j + 1 else n - j + n + 3
    case AllDone => 0
    case Failed => 0
  }

  /** A copy of an open task that has been posted. */
  ghost predicate CanWin(p: Pipe, id: nat) {
    id in p.copies && p.copies[id].won == None && p.copies[id].tid in p.m.table && p.copies[id].cell < |p.cells|
  }

  ghost predicate CanDeliver(p: Pipe, id: nat) {
    id in p.copies && p.copies[id].won.Some?
  }

  lemma DeliveryIsProgress(p: Pipe, id: nat)
    requires Sound(p) && Conserved(p) && Runnable(p) && Calm(p) && CanDeliver(p, id)
    ensures Enabled(p, Deliver(id))
    ensures var v := Next(p, Deliver(id));
            Sound(v) && Conserved(v) && Runnable(v) && Calm(v) && Work(v) == Work(p) - 1 && (Roomy(p) ==> Roomy(v))
  {
    SoundKept(p, Deliver(id));
    StepCounts(p, Deliver(id));
    RunnableKept(p, Deliver(id));
  }

  lemma WinningIsPossible(p: Pipe, id: nat)
    requires Sound(p) && Conserved(p) && Runnable(p) && Calm(p) && CanWin(p, id)
    ensures Enabled(p, Run(id, Initial(p.mode), 0))
    ensures var v := Next(p, Run(id, Initial(p.mode), 0));
            Sound(v) && Conserved(v) && Runnable(v) && Calm(v) && Work(v) == Work(p) && CanDeliver(v, id)
            && (Roomy(p) ==> Roomy(v))
  {
    var e := Run(id, Initial(p.mode), 0);
    WinStaysCalm(p, id);
    hide *;
    SoundKept(p, e);
    StepCounts(p, e);
    RunnableKept(p, e);
  }

  lemma WinStaysCalm(p: Pipe, id: nat)
    requires Sound(p) && Calm(p) && CanWin(p, id)
    ensures |p.cells| == |p.h.occupant|
    ensures var v := Next(p, Run(id, Initial(p.mode), 0));
            Enabled(p, Run(id, Initial(p.mode), 0)) && !Productive(p, Run(id, Initial(p.mode), 0))
            && Shaped(v) && Calm(v) && CanDeliver(v, id) && (Roomy(p) ==> Roomy(v))
  {
    hide Guarded, Owned, Awaited, Settled, Drained;
  }

  /** Nothing is in flight but what the client is about to post. */
  ghost predicate Still(p: Pipe)
    requires Shaped(p)
  {
    forall j :: 0 <= j < |p.cells| ==>
      p.h.occupant[j] == Vacant || p.h.occupant[j] == Reserved
      || (p.stage.Started? && p.stage.j == j)
  }

  lemma ClientIsProgress(p: Pipe)
    requires Sound(p) && Conserved(p) && Runnable(p) && Calm(p) && Roomy(p) && Still(p) && p.stage != AllDone
    ensures var v := ClientStep(p, 0);
            && Sound(v) && Conserved(v) && Runnable(v) && Calm(v) && Roomy(v)
            && (Work(v) < Work(p) || (Work(v) == Work(p) && Rank(v) < Rank(p)))
  {
    SoundKept(p, Client(0));
    StepCounts(p, Client(0));
    RunnableKept(p, Client(0));
    ClientStaysCalm(p);
  }

  lemma ClientStaysCalm(p: Pipe)
    requires Sound(p) && Calm(p) && Roomy(p) && Still(p) && p.stage != AllDone
    ensures var v := ClientStep(p, 0);
            Shaped(v) && Calm(v) && Roomy(v) && (p.stage.Drawn? || Rank(v) < Rank(p))
  {
  }

  lemma Prepend(p: Pipe, e: Event, rest: seq<Event>) returns (events: seq<Event>)
    requires Enabled(p, e) && !e.ReturnEarly? && Finishes(Next(p, e), rest)
    ensures Finishes(p, events)
  {
    events := [e] + rest;
    assert events[1..] == rest;
  }

  lemma WorkIsNatural(p: Pipe)
    requires Sound(p) && Conserved(p)
    ensures Work(p) >= 0
  {
    DrainIsComplete(p);
  }

  /** Unless everything is still, some copy can win or deliver. */
  lemma SomeCopyMoves(p: Pipe, j: nat) returns (id: nat)
    requires Sound(p) && Runnable(p) && j < |p.cells|
    requires p.h.occupant[j] != Vacant && p.h.occupant[j] != Reserved && !(p.stage.Started? && p.stage.j == j)
    ensures CanWin(p, id) || CanDeliver(p, id)
  {
    match p.h.occupant[j]
    case Serving(tid) => id :| Runs(p, id, tid);
    case Landing(_, winner) => id := winner;
  }

  lemma {:induction false} WayToTheEnd(p: Pipe) returns (events: seq<Event>)
    requires Sound(p) && Conserved(p) && Runnable(p) && Calm(p) && Roomy(p)
    ensures Finishes(p, events)
    decreases Work(p), Rank(p) + 1
  {
    WorkIsNatural(p);
    if p.stage == AllDone {
      events := [];
    } else if j: nat :| j < |p.cells| && p.h.occupant[j] != Vacant && p.h.occupant[j] != Reserved
                        && !(p.stage.Started? && p.stage.j == j) {
      hide Sound, Conserved, Runnable, Calm, Next, Finishes;
      var id := SomeCopyMoves(p, j);
      events := AfterCopy(p, id);
    } else {
      assert Still(p);
      hide Sound, Conserved, Runnable, Calm, Still, ClientStep, Finishes, Rank, Work;
      ClientIsProgress(p);
      WorkIsNatural(ClientStep(p, 0));
      events := WayToTheEnd(ClientStep(p, 0));
      events := Prepend(p, Client(0), events);
    }
  }

  lemma {:induction false} AfterCopy(p: Pipe, id: nat) returns (events: seq<Event>)
    requires Sound(p) && Conserved(p) && Runnable(p) && Calm(p) && Roomy(p)
    requires CanWin(p, id) || CanDeliver(p, id)
    ensures Finishes(p, events)
    decreases Work(p), 0
  {
    hide Sound, Conserved, Runnable, Calm, Roomy, Finishes, Work, CanDeliver, CanWin;
    var q, win := p, Run(id, Initial(p.mode), 0);
    if !CanDeliver(p, id) {
      WinningIsPossible(p, id);
      q := Next(p, win);
    }
    DeliveryIsProgress(q, id);
    var v := Next(q, Deliver(id));
    WorkIsNatural(v);
    events := WayToTheEnd(v);
    events := Prepend(q, Deliver(id), events);
    if !CanDeliver(p, id) {
      events := Prepend(p, win, events);
    }
  }

  // ---------------------------------------------------------------- what bars the way

  /** A cell that nobody waits for and that does not read idle: it is never claimed again, and the drain
      loop never counts it. */
  predicate Stuck(p: Pipe, j: nat)
    requires Shaped(p)
  {
    && j < |p.cells| == |p.h.occupant| && p.h.occupant[j] == Vacant && !Idle(p.mode, p.cells[j])
    && p.stage != AllDone && (p.stage.Draining? && p.stage.j > j ==> p.stage.done < p.stage.j)
  }

  /** An execution is about to store something that the loops do not take for a finished operation. */
  predicate Spoils(p: Pipe, id: nat) {
    id in p.copies && p.copies[id].won.Some? && !Idle(p.mode, p.copies[id].won.value)
  }

  ghost predicate Barred(p: Pipe)
    requires Shaped(p)
  {
    p.stage == Failed || !Roomy(p) || (exists j :: Stuck(p, j)) || exists id :: Spoils(p, id)
  }

  lemma ClientLeavesStuck(p: Pipe, now: nat, j: nat)
    requires Shaped(p) && Guarded(p) && Stuck(p, j) && Shaped(ClientStep(p, now))
    ensures Stuck(ClientStep(p, now), j)
  {
  }

  lemma OthersLeaveStuck(p: Pipe, e: Event, j: nat)
    requires Shaped(p) && Owned(p) && Stuck(p, j) && Enabled(p, e) && !e.ReturnEarly? && !e.Client?
    requires Shaped(Next(p, e))
    ensures Stuck(Next(p, e), j)
  {
    if e.Deliver? {
      assert p.h.occupant[p.copies[e.id].cell].Landing?;
    } else if e.Run? {
      assert p.copies[e.id].tid in p.m.table ==> p.h.occupant[p.copies[e.id].cell].Serving?;
    }
    hide Shaped, Owned;
  }

  lemma StuckKept(p: Pipe, e: Event, j: nat)
    requires Sound(p) && Stuck(p, j) && Enabled(p, e) && !e.ReturnEarly?
    ensures Shaped(Next(p, e)) && Stuck(Next(p, e), j)
  {
    SoundKept(p, e);
    hide Shaped, Guarded, Owned, Awaited, Settled, Drained, Stuck, ClientStep;
    if e.Client? {
      ClientLeavesStuck(p, e.now, j);
    } else {
      OthersLeaveStuck(p, e, j);
    }
  }

  lemma SpoilsKept(p: Pipe, e: Event, id: nat)
    requires Sound(p) && Spoils(p, id) && Enabled(p, e) && !e.ReturnEarly?
    ensures Shaped(Next(p, e)) && (Spoils(Next(p, e), id) || Stuck(Next(p, e), p.copies[id].cell))
  {
    SoundKept(p, e);
    if e == Deliver(id) {
      SpoilsWhenDelivered(p, id);
    } else {
      SpoilsOtherwise(p, e, id);
      hide *;
    }
  }

  lemma SpoilsOtherwise(p: Pipe, e: Event, id: nat)
    requires Sound(p) && Spoils(p, id) && Enabled(p, e) && !e.ReturnEarly? && e != Deliver(id)
    ensures Spoils(Next(p, e), id)
  {
    assert id < p.issued;
    hide Sound;
  }

  lemma SpoilsWhenDelivered(p: Pipe, id: nat)
    requires Sound(p) && Spoils(p, id) && Enabled(p, Deliver(id))
    ensures Shaped(Next(p, Deliver(id))) && Stuck(Next(p, Deliver(id)), p.copies[id].cell)
  {
    SoundKept(p, Deliver(id));
    var j := p.copies[id].cell;
    assert p.h.occupant[j] != Vacant;
    hide Guarded, Owned, Awaited, Settled;
  }

  lemma CrampedKept(p: Pipe, e: Event)
    requires Sound(p) && !Roomy(p) && Enabled(p, e) && !e.ReturnEarly?
    ensures !Roomy(Next(p, e))
  {
  }

  lemma BarredKept(p: Pipe, e: Event)
    requires Sound(p) && Barred(p) && Enabled(p, e) && !e.ReturnEarly?
    ensures Sound(Next(p, e)) && Barred(Next(p, e))
  {
    SoundKept(p, e);
    if j :| Stuck(p, j) {
      StuckKept(p, e, j);
    } else if id :| Spoils(p, id) {
      SpoilsKept(p, e, id);
    } else if !Roomy(p) {
      CrampedKept(p, e);
    }
  }

  lemma BarredIsNotDone(p: Pipe)
    requires Sound(p) && Barred(p)
    ensures p.stage != AllDone
  {
    if id :| Spoils(p, id) {
      assert p.h.occupant[p.copies[id].cell] == Landing(p.copies[id].tid, id);
    }
  }

  lemma {:induction false} BarredForEver(p: Pipe, events: seq<Event>)
    requires Sound(p) && Barred(p) && Legal(p, events) && NoEarlyReturn(events)
    ensures Trail(p, events).stage != AllDone
    decreases |events|
  {
    if events == [] {
      BarredIsNotDone(p);
    } else {
      BarredKept(p, events[0]);
      BarredForEver(Next(p, events[0]), events[1..]);
    }
  }

  lemma RestlessIsBarred(p: Pipe)
    requires Sound(p) && !(Calm(p) && Roomy(p))
    ensures Barred(p)
  {
    if id :| id in p.copies && p.copies[id].won.Some? && !Idle(p.mode, p.copies[id].won.value) {
      assert Spoils(p, id);
    } else if j: nat :| j < |p.cells| && p.h.occupant[j] == Vacant && !Idle(p.mode, p.cells[j]) {
      assert Stuck(p, j);
    }
  }

  /** From any point of any replay without early returns, the drain loop can still come to its end exactly
      when every result that has been stored, or has won and is about to be, is one that the loops take
      for a finished operation, none of them has already been found to be an error, and there is a cell
      to submit to or nothing left to submit.  An empty read, whose 0 looks busy, holds the drain up for ever. */
  lemma CanEndIff(mode: Mode, objects: seq<string>, threads: nat, tracing: bool, events: seq<Event>)
    requires Legal(Begin(mode, objects, threads, tracing), events) && NoEarlyReturn(events)
    ensures var p := Trail(Begin(mode, objects, threads, tracing), events);
            Shaped(p) && ((exists more :: Finishes(p, more)) <==> Calm(p) && Roomy(p))
  {
    var p0 := Begin(mode, objects, threads, tracing);
    BeginIsSound(mode, objects, threads, tracing);
    BeginConserves(mode, objects, threads, tracing);
    RunCounts(p0, events);
    RunStaysRunnable(p0, events);
    var p := Trail(p0, events);
    if Calm(p) && Roomy(p) {
      var more := WayToTheEnd(p);
    } else {
      RestlessIsBarred(p);
      forall more | Legal(p, more) && NoEarlyReturn(more)
        ensures !Finishes(p, more)
      {
        BarredForEver(p, more);
      }
    }
  }

  // ---------------------------------------------------------------- which results are errors

  /** A result that the loops take for a finished operation: bytes have been read, or a write or a move
      has returned 0. */
  predicate Succeeds(mode: Mode, r: int) {
    match mode
    case Reads => r > 0
    case _ => r == 0
  }

  /** A result that makes the client abort. */
  predicate Bad(mode: Mode, r: int) {
    match mode
    case Reads => r < 0
    case _ => r != 0 && r != 1
  }

  /** The cell that the client looks at next, if it looks at one. */
  function LooksAt(p: Pipe): Option<nat> {
    match p.stage
    case Scanning(j) => if p.next < |p.objects| && j < |p.cells| then Some(j) else None
    case Draining(j, _) => if j < |p.cells| then Some(j) else None
    case _ => None
  }

  /** What the client makes of a cell that it looks at: a finished one is claimed, by marking it busy, or
      counted; an error stops the replay; any other is passed over. */
  lemma LookIsExact(p: Pipe, now: nat)
    requires Shaped(p) && LooksAt(p).Some?
    ensures var j, v := LooksAt(p).value, ClientStep(p, now);
            var ret := p.cells[j];
            if Succeeds(p.mode, ret) then
              if p.stage.Scanning? then v.stage == Claimed(j) && v.cells == p.cells[j := if p.mode.Reads? then 0 else 1]
              else v.stage == Draining(j + 1, p.stage.done + 1) && v.cells == p.cells
            else
              v.cells == p.cells
              && v.stage == if Bad(p.mode, ret) then Failed
                            else if p.stage.Scanning? then Scanning(j + 1) else Draining(j + 1, p.stage.done)
  {
  }

  /** A replay starts with every cell ready to be claimed. */
  lemma StartsReady(mode: Mode, objects: seq<string>, threads: nat, tracing: bool)
    ensures var p := Begin(mode, objects, threads, tracing);
            |p.cells| == threads && forall j :: 0 <= j < threads ==> p.cells[j] == if mode.Reads? then 1 else 0
  {
  }

  /** The client stops at an error, and at nothing else. */
  lemma FailsIff(p: Pipe, now: nat)
    requires Shaped(p)
    ensures ClientStep(p, now).stage == Failed
            <==> p.stage == Failed || (LooksAt(p).Some? && Bad(p.mode, p.cells[LooksAt(p).value]))
  {
  }

  /** Every cell is marked busy, has a finished operation, or has the result of some execution. */
  ghost predicate Sourced(p: Pipe, results: set<int>) {
    && (forall j :: 0 <= j < |p.cells| ==> !Bad(p.mode, p.cells[j]) || p.cells[j] in results)
    && (forall id :: id in p.copies && p.copies[id].won.Some? ==> p.copies[id].won.value in results)
  }

  /** What the executions of a run have come back with. */
  function Results(events: seq<Event>): set<int> {
    if events == [] then {}
    else (if events[0].Run? then {events[0].r} else {}) + Results(events[1..])
  }

  lemma SourcedKept(p: Pipe, e: Event, results: set<int>)
    requires Enabled(p, e) && !e.ReturnEarly? && Sourced(p, results)
    ensures Sourced(Next(p, e), results + if e.Run? then {e.r} else {})
  {
  }

  /** When the client has failed, some cell holds an error for good. */
  predicate FailedOnError(p: Pipe) {
    p.stage == Failed ==>
      |p.h.occupant| == |p.cells| && exists j :: 0 <= j < |p.cells| && p.h.occupant[j] == Vacant && Bad(p.mode, p.cells[j])
  }

  lemma FailedOnErrorKept(p: Pipe, e: Event)
    requires Sound(p) && FailedOnError(p) && Enabled(p, e) && !e.ReturnEarly?
    ensures FailedOnError(Next(p, e))
  {
    SoundKept(p, e);
    var v := Next(p, e);
    if v.stage == Failed {
      if p.stage == Failed {
        var j :| 0 <= j < |p.cells| && p.h.occupant[j] == Vacant && Bad(p.mode, p.cells[j]);
        StuckKept(p, e, j);
        ErrorStays(p, e, j);
      } else {
        FailsIff(p, e.now);
        assert v.cells == p.cells && v.h == p.h;
        assert p.h.occupant[LooksAt(p).value] == Vacant;
      }
    }
  }

  lemma ErrorStays(p: Pipe, e: Event, j: nat)
    requires Sound(p) && Enabled(p, e) && !e.ReturnEarly?
    requires j < |p.cells| && p.h.occupant[j] == Vacant && Bad(p.mode, p.cells[j])
    ensures |Next(p, e).cells| == |p.cells| && Next(p, e).cells[j] == p.cells[j] && Next(p, e).mode == p.mode
  {
    if e.Deliver? {
      assert p.h.occupant[p.copies[e.id].cell].Landing?;
    }
    hide Owned, Awaited, Settled, Drained;
  }

  lemma {:induction false} RunIsSourced(p: Pipe, events: seq<Event>, results: set<int>)
    requires Sound(p) && FailedOnError(p) && Sourced(p, results) && Legal(p, events) && NoEarlyReturn(events)
    ensures var v := Trail(p, events); FailedOnError(v) && Sourced(v, results + Results(events)) && v.mode == p.mode
    decreases |events|
  {
    hide Sound, Enabled, Next, FailedOnError, Sourced;
    if events == [] {
      assert results + Results(events) == results;
    } else {
      var e := events[0];
      SoundKept(p, e);
      FailedOnErrorKept(p, e);
      SourcedKept(p, e, results);
      ModeStays(p, e);
      var more := results + if e.Run? then {e.r} else {};
      RunIsSourced(Next(p, e), events[1..], more);
      assert results + Results(events) == more + Results(events[1..]);
    }
  }

  lemma ModeStays(p: Pipe, e: Event)
    requires Enabled(p, e)
    ensures Next(p, e).mode == p.mode
  {
  }

  /** The replay aborts only on an error that some execution came back with and that is still in a cell: a
      negative number for a read, a number other than 0 and 1 for a write or a move. */
  lemma AbortMeansError(mode: Mode, objects: seq<string>, threads: nat, tracing: bool, events: seq<Event>)
    requires Legal(Begin(mode, objects, threads, tracing), events) && NoEarlyReturn(events)
    requires Trail(Begin(mode, objects, threads, tracing), events).stage == Failed
    ensures var p := Trail(Begin(mode, objects, threads, tracing), events);
            exists j :: 0 <= j < |p.cells| && p.cells[j] in Results(events)
                        && if mode.Reads? then p.cells[j] < 0 else p.cells[j] != 0 && p.cells[j] != 1
  {
    var p0 := Begin(mode, objects, threads, tracing);
    BeginIsSound(mode, objects, threads, tracing);
    RunIsSourced(p0, events, {});
    var p := Trail(p0, events);
    assert {} + Results(events) == Results(events);
    var j :| 0 <= j < |p.cells| && p.h.occupant[j] == Vacant && Bad(p.mode, p.cells[j]);
    assert p.cells[j] in Results(events);
  }

  /** If every read comes back with some bytes, or every write or move with 0, the replay never aborts,
      and with a cell to submit to it can always still end. */
  lemma GoodRunsCanEnd(mode: Mode, objects: seq<string>, threads: nat, tracing: bool, events: seq<Event>)
    requires Legal(Begin(mode, objects, threads, tracing), events) && NoEarlyReturn(events)
    requires forall r :: r in Results(events) ==> if mode.Reads? then r > 0 else r == 0
    ensures var p := Trail(Begin(mode, objects, threads, tracing), events);
            p.stage != Failed && (threads > 0 || objects == [] ==> exists more :: Finishes(p, more))
  {
    var p0 := Begin(mode, objects, threads, tracing);
    BeginIsSound(mode, objects, threads, tracing);
    RunStaysCalm(p0, events);
    ModeKept(p0, events);
    CanEndIff(mode, objects, threads, tracing, events);
  }

  lemma {:induction false} RunStaysCalm(p: Pipe, events: seq<Event>)
    requires Sound(p) && Calm(p) && Legal(p, events) && NoEarlyReturn(events)
    requires forall r :: r in Results(events) ==> Idle(p.mode, r)
    ensures var v := Trail(p, events); Sound(v) && Calm(v)
    decreases |events|
  {
    hide Sound, Calm, Enabled, Next;
    if events != [] {
      var e := events[0];
      SoundKept(p, e);
      CalmKept(p, e);
      ModeStays(p, e);
      RunStaysCalm(Next(p, e), events[1..]);
    }
  }
}
