/** The replayer's bounded pool of result cells, end to end: one client thread that dispatches and drains,
    the task manager, workers that may run one task several times at once, and the watcher. */
module Pipeline {
  import opened Prelude
  import opened Tasks

  /** The three replay loops.  A read leaves the number of bytes in its cell, a write or a move to a tier
      leaves 0. */
  datatype Mode = Reads | Writes(tier: string) | Moves(tier: string)

  function Busy(mode: Mode): int {
    if mode.Reads? then 0 else 1
  }

  predicate Idle(mode: Mode, ret: int) {
    if mode.Reads? then ret > 0 else ret == 0
  }

  function Initial(mode: Mode): int {
    if mode.Reads? then 1 else 0
  }

  /** The task that a loop starts for an object. */
  function TaskFor(mode: Mode, oid: string, cell: nat, now: nat): Task {
    match mode
    case Reads => Task(oid, "r", "-", cell, now)
    case Writes(tier) => Task(oid, "w", tier, cell, now)
    case Moves(tier) => Task(oid, "m", tier, cell, now)
  }

  /** Where the client thread is. */
  datatype Stage =
    | Scanning(j: nat)
    | Claimed(j: nat)
    | Drawn(j: nat, tid: nat)
    | Started(j: nat, tid: nat)
    | Draining(j: nat, done: nat)
    | AllDone
    | Failed

  /** One execution of a task, queued or running.  `won` is the return value that it is about to store
      after `FinishTask` said yes. */
  datatype Copy = Copy(tid: nat, cell: nat, won: Option<int>)

  /** Whose result a cell is waiting for: nobody's, that of the task the client is about to start, that
      of an open task, or that of a task whose winning copy has yet to store it. */
  datatype Occupant = Vacant | Reserved | Serving(tid: nat) | Landing(tid: nat, id: nat)

  /** History that the program does not keep: what each cell waits for, the objects submitted, the cell
      of each task, and the tasks whose result has been stored. */
  datatype History = History(occupant: seq<Occupant>, log: seq<string>, homes: seq<nat>, delivered: seq<nat>)

  datatype Pipe = Pipe(mode: Mode, objects: seq<string>, next: nat, stage: Stage, cells: seq<int>, m: Manager,
                       copies: map<nat, Copy>, issued: nat, h: History)

  datatype Event =
    | Client(now: nat)
    | Repost(tid: nat)
    | Run(id: nat, r: int, now: nat)
    | Deliver(id: nat)
    | ReturnEarly(id: nat, r: int)

  function Begin(mode: Mode, objects: seq<string>, threads: nat, tracing: bool): Pipe {
    Pipe(mode, objects, 0, Scanning(0), seq(threads, i => Initial(mode)), Manager(0, map[], tracing, []),
         map[], 0, History(seq(threads, i => Vacant), [], [], []))
  }

  /** What every reachable state has for sizes and positions. */
  predicate Shaped(p: Pipe) {
    && |p.cells| == |p.h.occupant|
    && p.next <= |p.objects|
    && match p.stage
       case Scanning(j) => j <= |p.cells| && p.m.counter == p.next && p.h.log == p.objects[..p.next]
       case Claimed(j) => j < |p.cells| && p.next < |p.objects| && p.m.counter == p.next && p.h.log == p.objects[..p.next]
       case Drawn(j, tid) =>
         j < |p.cells| && p.next < |p.objects| && tid == p.next && p.m.counter == p.next + 1 && p.h.log == p.objects[..p.next]
       case Started(j, tid) =>
         j < |p.cells| && p.next < |p.objects| && tid == p.next && p.m.counter == p.next + 1 && p.h.log == p.objects[..p.next + 1]
       case Draining(j, done) =>
         done <= j <= |p.cells| && p.next == |p.objects| && p.m.counter == p.next && p.h.log == p.objects
       case AllDone => p.next == |p.objects| && p.m.counter == p.next && p.h.log == p.objects
       case Failed => p.m.counter == p.next && p.h.log == p.objects[..p.next]
  }

  function ClientStep(p: Pipe, now: nat): Pipe
    requires Shaped(p)
  {
    match p.stage
    case Scanning(j) =>
      if p.next == |p.objects| then p.(stage := Draining(0, 0))
      else if j == |p.cells| then p.(stage := Scanning(0))
      else if Idle(p.mode, p.cells[j]) then
        p.(cells := p.cells[j := Busy(p.mode)], h := p.h.(occupant := p.h.occupant[j := Reserved]), stage := Claimed(j))
      else if p.cells[j] != Busy(p.mode) then p.(stage := Failed)
      else p.(stage := Scanning(j + 1))
    case Claimed(j) => p.(m := Ticketed(p.m), stage := Drawn(j, p.m.counter))
    case Drawn(j, tid) =>
      var t := TaskFor(p.mode, p.objects[p.next], j, now);
      p.(m := Filed(p.m, tid, t), stage := Started(j, tid),
         h := p.h.(occupant := p.h.occupant[j := Serving(tid)], log := p.h.log + [t.oid], homes := p.h.homes + [j]))
    case Started(j, tid) =>
      p.(copies := p.copies[p.issued := Copy(tid, j, None)], issued := p.issued + 1, next := p.next + 1,
         stage := Scanning(0))
    case Draining(j, done) =>
      if j == |p.cells| then p.(stage := if done == |p.cells| then AllDone else Draining(0, 0))
      else if Idle(p.mode, p.cells[j]) then p.(stage := Draining(j + 1, done + 1))
      else if p.cells[j] != Busy(p.mode) then p.(stage := Failed)
      else p.(stage := Draining(j + 1, done))
    case AllDone => p
    case Failed => p
  }

  /** An event that the program can take in this state. */
  predicate Enabled(p: Pipe, e: Event) {
    match e
    case Client(_) => Shaped(p)
    case Repost(tid) => tid in p.m.table
    case Run(id, _, _) => id in p.copies && p.copies[id].won == None && p.copies[id].cell < |p.cells| == |p.h.occupant|
    case Deliver(id) => id in p.copies && p.copies[id].won.Some? && p.copies[id].cell < |p.cells| == |p.h.occupant|
    case ReturnEarly(id, r) =>
      // of what the loops submit, only a promotion returns early, and only with an error
      p.mode == Moves("f") && r != 0 && id in p.copies && p.copies[id].won == None && p.copies[id].cell < |p.cells|
  }

  function Next(p: Pipe, e: Event): Pipe
    requires Enabled(p, e)
  {
    match e
    case Client(now) => ClientStep(p, now)
    case Repost(tid) =>
      p.(copies := p.copies[p.issued := Copy(tid, p.m.table[tid].cell, None)], issued := p.issued + 1)
    case Run(id, r, now) =>
      // the operation has returned r and FinishTask decides
      var c := p.copies[id];
      if c.tid in p.m.table
      then p.(m := Finished(p.m, c.tid, now), copies := p.copies[id := c.(won := Some(r))],
              h := p.h.(occupant := p.h.occupant[c.cell := Landing(c.tid, id)]))
      else p.(copies := p.copies - {id})
    case Deliver(id) =>
      var c := p.copies[id];
      p.(cells := p.cells[c.cell := c.won.value], copies := p.copies - {id},
         h := p.h.(occupant := p.h.occupant[c.cell := Vacant], delivered := p.h.delivered + [c.tid]))
    case ReturnEarly(id, r) =>
      // an early return stores its error without asking FinishTask
      p.(cells := p.cells[p.copies[id].cell := r], copies := p.copies - {id})
  }

  // ---------------------------------------------------------------- the invariant

  /** A cell that somebody waits for reads busy; the client has at most one cell claimed. */
  predicate Guarded(p: Pipe)
    requires Shaped(p)
  {
    && (forall j :: 0 <= j < |p.cells| && p.h.occupant[j] != Vacant ==> p.cells[j] == Busy(p.mode))
    && (forall j :: 0 <= j < |p.cells| && p.h.occupant[j] == Reserved ==> p.stage == Claimed(j) || (p.stage.Drawn? && p.stage.j == j))
    && (p.stage.Claimed? || p.stage.Drawn? ==> p.h.occupant[p.stage.j] == Reserved)
  }

  /** Tasks and copies keep to the cell of their task, and every open task and every winner is what its
      own cell waits for. */
  ghost predicate Owned(p: Pipe) {
    && |p.h.homes| == |p.h.log|
    && (forall tid :: 0 <= tid < |p.h.homes| ==> p.h.homes[tid] < |p.h.occupant|)
    && (p.stage.Started? ==> p.stage.tid < |p.h.homes| && p.h.homes[p.stage.tid] == p.stage.j)
    && (forall tid :: tid in p.m.table ==>
          tid < |p.h.homes| && p.m.table[tid].cell == p.h.homes[tid] && p.h.occupant[p.h.homes[tid]] == Serving(tid))
    && (forall id :: id in p.copies ==>
          id < p.issued && p.copies[id].tid < |p.h.homes| && p.copies[id].cell == p.h.homes[p.copies[id].tid])
    && (forall id :: id in p.copies && p.copies[id].won.Some? ==>
          p.h.occupant[p.copies[id].cell] == Landing(p.copies[id].tid, id))
  }

  /** What a cell waits for is open or has a winner on its way, and has not been delivered. */
  ghost predicate Awaited(p: Pipe)
    requires |p.h.homes| == |p.h.log|
  {
    forall j :: 0 <= j < |p.h.occupant| ==>
      match p.h.occupant[j]
      case Vacant => true
      case Reserved => true
      case Serving(tid) => tid < |p.h.log| && p.h.homes[tid] == j && tid in p.m.table && tid !in p.h.delivered
      case Landing(tid, id) =>
        && tid < |p.h.log| && p.h.homes[tid] == j && tid !in p.m.table && tid !in p.h.delivered
        && id in p.copies && p.copies[id].won.Some? && p.copies[id].tid == tid
  }

  predicate WaitsFor(o: Occupant, tid: nat) {
    o == Serving(tid) || (o.Landing? && o.tid == tid)
  }

  /** Every submitted task has been delivered once or is still waited for. */
  ghost predicate Settled(p: Pipe)
    requires Owned(p)
  {
    && Distinct(p.h.delivered)
    && (forall tid :: tid in p.h.delivered ==> tid < |p.h.log|)
    && (forall tid: nat :: tid < |p.h.log| ==> tid in p.h.delivered || WaitsFor(p.h.occupant[p.h.homes[tid]], tid))
  }

  /** The drain loop has counted nothing but vacant cells that read idle. */
  predicate Drained(p: Pipe)
    requires Shaped(p)
  {
    match p.stage
    case Draining(j, done) => done == j ==> forall i :: 0 <= i < j ==> p.h.occupant[i] == Vacant && Idle(p.mode, p.cells[i])
    case AllDone => forall i :: 0 <= i < |p.cells| ==> p.h.occupant[i] == Vacant && Idle(p.mode, p.cells[i])
    case _ => true
  }

  ghost predicate Sound(p: Pipe) {
    Shaped(p) && Guarded(p) && Owned(p) && Awaited(p) && Settled(p) && Drained(p)
  }

  lemma VacantIfIdle(p: Pipe, j: nat)
    requires Sound(p) && j < |p.cells| && Idle(p.mode, p.cells[j])
    ensures p.h.occupant[j] == Vacant
  {
  }

  /** The client claims a cell that reads idle. */
  predicate Claims(p: Pipe) {
    p.stage.Scanning? && p.next < |p.objects| && p.stage.j < |p.cells| && Idle(p.mode, p.cells[p.stage.j])
  }

  lemma ClaimKeepsSound(p: Pipe, now: nat)
    requires Sound(p) && Claims(p)
    ensures Sound(ClientStep(p, now))
  {
    VacantIfIdle(p, p.stage.j);
    var v := ClientStep(p, now);
    assert forall i :: 0 <= i < |p.cells| && i != p.stage.j ==> v.h.occupant[i] == p.h.occupant[i] && v.cells[i] == p.cells[i];
  }

  lemma WalkKeepsSound(p: Pipe, now: nat)
    requires Sound(p) && !p.stage.Drawn? && !p.stage.Started? && !Claims(p)
    ensures Sound(ClientStep(p, now))
  {
    var v := ClientStep(p, now);
    assert v.h == p.h && v.copies == p.copies && v.cells == p.cells && v.m.table == p.m.table && v.issued == p.issued;
    if p.stage.Draining? && p.stage.j < |p.cells| && Idle(p.mode, p.cells[p.stage.j]) {
      VacantIfIdle(p, p.stage.j);
    }
  }

  lemma StartKeepsOwned(p: Pipe, now: nat)
    requires Sound(p) && p.stage.Drawn?
    ensures Owned(ClientStep(p, now))
  {
    assert p.h.occupant[p.stage.j] == Reserved;
  }

  lemma StartKeepsAwaited(p: Pipe, now: nat)
    requires Sound(p) && p.stage.Drawn?
    ensures Awaited(ClientStep(p, now))
  {
  }

  lemma StartKeepsSound(p: Pipe, now: nat)
    requires Sound(p) && p.stage.Drawn?
    ensures Sound(ClientStep(p, now))
  {
    StartKeepsOwned(p, now);
    StartKeepsAwaited(p, now);
    var v := ClientStep(p, now);
    assert v.h.log == p.objects[..p.next + 1];
    assert forall tid :: 0 <= tid < |p.h.homes| ==> v.h.homes[tid] == p.h.homes[tid];
  }

  lemma PostKeepsSound(p: Pipe, now: nat)
    requires Sound(p) && p.stage.Started?
    ensures Sound(ClientStep(p, now))
  {
  }

  lemma ClientKeepsSound(p: Pipe, now: nat)
    requires Sound(p)
    ensures Sound(ClientStep(p, now))
  {
    if p.stage.Drawn? {
      StartKeepsSound(p, now);
    } else if p.stage.Started? {
      PostKeepsSound(p, now);
    } else if Claims(p) {
      ClaimKeepsSound(p, now);
    } else {
      WalkKeepsSound(p, now);
    }
  }

  lemma RepostKeepsSound(p: Pipe, tid: nat)
    requires Sound(p) && tid in p.m.table
    ensures Sound(Next(p, Repost(tid)))
  {
  }

  lemma WinKeepsOwned(p: Pipe, id: nat, r: int, now: nat)
    requires Sound(p) && Enabled(p, Run(id, r, now)) && p.copies[id].tid in p.m.table
    ensures Owned(Next(p, Run(id, r, now)))
  {
    var c := p.copies[id];
    assert p.h.occupant[c.cell] == Serving(c.tid);
    var v := Next(p, Run(id, r, now));
    assert v.h == p.h.(occupant := p.h.occupant[c.cell := Landing(c.tid, id)]);
    forall tid | tid in v.m.table
      ensures tid < |v.h.homes| && v.m.table[tid].cell == v.h.homes[tid] && v.h.occupant[v.h.homes[tid]] == Serving(tid)
    {
      assert p.h.occupant[p.h.homes[tid]] == Serving(tid);
    }
    forall k | k in v.copies && v.copies[k].won.Some?
      ensures v.h.occupant[v.copies[k].cell] == Landing(v.copies[k].tid, k)
    {
      assert k != id ==> p.h.occupant[p.copies[k].cell] == Landing(p.copies[k].tid, k);
    }
  }

  lemma WinKeepsAwaited(p: Pipe, id: nat, r: int, now: nat)
    requires Sound(p) && Enabled(p, Run(id, r, now)) && p.copies[id].tid in p.m.table
    ensures Awaited(Next(p, Run(id, r, now)))
  {
    var c := p.copies[id];
    assert p.h.occupant[c.cell] == Serving(c.tid);
  }

  lemma WinKeepsSettled(p: Pipe, id: nat, r: int, now: nat)
    requires Sound(p) && Enabled(p, Run(id, r, now)) && p.copies[id].tid in p.m.table
    requires Owned(Next(p, Run(id, r, now)))
    ensures Settled(Next(p, Run(id, r, now)))
  {
    var c := p.copies[id];
    assert p.h.occupant[c.cell] == Serving(c.tid);
    hide Guarded, Awaited, Drained;
  }

  lemma ServedIfOpen(p: Pipe, id: nat)
    requires Owned(p) && id in p.copies && p.copies[id].tid in p.m.table
    ensures p.copies[id].cell < |p.h.occupant| && p.h.occupant[p.copies[id].cell] == Serving(p.copies[id].tid)
  {
  }

  lemma WinKeepsRest(p: Pipe, id: nat, r: int, now: nat)
    requires Shaped(p) && Guarded(p) && Drained(p)
    requires Enabled(p, Run(id, r, now)) && p.copies[id].tid in p.m.table
    requires p.h.occupant[p.copies[id].cell] == Serving(p.copies[id].tid)
    ensures var v := Next(p, Run(id, r, now)); Shaped(v) && Guarded(v) && Drained(v)
  {
  }

  lemma WinKeepsSound(p: Pipe, id: nat, r: int, now: nat)
    requires Sound(p) && Enabled(p, Run(id, r, now)) && p.copies[id].tid in p.m.table
    ensures Sound(Next(p, Run(id, r, now)))
  {
    hide Owned, Awaited, Settled, Shaped, Guarded, Drained, Next;
    WinKeepsOwned(p, id, r, now);
    WinKeepsAwaited(p, id, r, now);
    WinKeepsSettled(p, id, r, now);
    ServedIfOpen(p, id);
    WinKeepsRest(p, id, r, now);
  }

  lemma LossKeepsSound(p: Pipe, id: nat, r: int, now: nat)
    requires Sound(p) && Enabled(p, Run(id, r, now)) && p.copies[id].tid !in p.m.table
    ensures Sound(Next(p, Run(id, r, now)))
  {
  }

  lemma DeliverKeepsOwned(p: Pipe, id: nat)
    requires Sound(p) && Enabled(p, Deliver(id))
    ensures Owned(Next(p, Deliver(id)))
  {
    var c := p.copies[id];
    assert p.h.occupant[c.cell] == Landing(c.tid, id);
  }

  lemma DeliverKeepsAwaited(p: Pipe, id: nat)
    requires Sound(p) && Enabled(p, Deliver(id))
    ensures var v := Next(p, Deliver(id)); |v.h.homes| == |v.h.log| && Awaited(v)
  {
    var c := p.copies[id];
    assert p.h.occupant[c.cell] == Landing(c.tid, id);
  }

  lemma DeliverKeepsSound(p: Pipe, id: nat)
    requires Sound(p) && Enabled(p, Deliver(id))
    ensures Sound(Next(p, Deliver(id)))
  {
    DeliverKeepsOwned(p, id);
    DeliverKeepsAwaited(p, id);
    var c := p.copies[id];
    assert p.h.occupant[c.cell] == Landing(c.tid, id) && c.tid !in p.h.delivered;
    hide Owned, Awaited;
  }

  lemma SoundKept(p: Pipe, e: Event)
    requires Sound(p) && Enabled(p, e) && !e.ReturnEarly?
    ensures Sound(Next(p, e))
  {
    hide Sound, Next, ClientStep;
    match e
    case Client(now) => ClientCase(p, now);
    case Repost(tid) => RepostKeepsSound(p, tid);
    case Run(id, r, now) =>
      if p.copies[id].tid in p.m.table {
        WinKeepsSound(p, id, r, now);
      } else {
        LossKeepsSound(p, id, r, now);
      }
    case Deliver(id) => DeliverKeepsSound(p, id);
  }

  lemma ClientCase(p: Pipe, now: nat)
    requires Sound(p)
    ensures Sound(Next(p, Event.Client(now)))
  {
    ClientKeepsSound(p, now);
  }

  // ---------------------------------------------------------------- whole runs

  predicate Legal(p: Pipe, events: seq<Event>)
    decreases |events|
  {
    events != [] ==> Enabled(p, events[0]) && Legal(Next(p, events[0]), events[1..])
  }

  function Trail(p: Pipe, events: seq<Event>): Pipe
    requires Legal(p, events)
    decreases |events|
  {
    if events == [] then p else Trail(Next(p, events[0]), events[1..])
  }

  predicate NoEarlyReturn(events: seq<Event>) {
    forall e :: e in events ==> !e.ReturnEarly?
  }

  lemma {:induction false} RunIsSound(p: Pipe, events: seq<Event>)
    requires Sound(p) && Legal(p, events) && NoEarlyReturn(events)
    ensures Sound(Trail(p, events))
    decreases |events|
  {
    if events != [] {
      SoundKept(p, events[0]);
      RunIsSound(Next(p, events[0]), events[1..]);
    }
  }

  lemma BeginIsSound(mode: Mode, objects: seq<string>, threads: nat, tracing: bool)
    ensures Sound(Begin(mode, objects, threads, tracing))
  {
  }

  /** No task after `tid` has been handed its cell. */
  ghost predicate Newest(homes: seq<nat>, tid: nat) {
    tid < |homes| && forall later: nat :: tid < later < |homes| ==> homes[later] != homes[tid]
  }

  /** The client has marked the cell busy and has yet to start the task that it is for. */
  predicate ClaimedCell(p: Pipe, j: nat) {
    p.stage == Claimed(j) || (p.stage.Drawn? && p.stage.j == j)
  }

  /** A task whose result has not been stored is the last one that its cell was handed to. */
  ghost predicate Current(p: Pipe) {
    forall tid: nat :: tid < |p.h.homes| && tid !in p.h.delivered ==> Newest(p.h.homes, tid)
  }

  lemma CurrentKept(p: Pipe, e: Event)
    requires Sound(p) && Current(p) && Enabled(p, e) && !e.ReturnEarly?
    ensures Current(Next(p, e))
  {
    var v := Next(p, e);
    if e.Client? && p.stage.Drawn? {
      assert p.h.occupant[p.stage.j] == Reserved;
      forall tid: nat | tid < |v.h.homes| && tid !in v.h.delivered
        ensures Newest(v.h.homes, tid)
      {
        if tid < |p.h.homes| {
          assert WaitsFor(p.h.occupant[p.h.homes[tid]], tid);
        }
      }
    } else {
      assert v.h.homes == p.h.homes;
    }
  }

  lemma {:induction false} RunIsCurrent(p: Pipe, events: seq<Event>)
    requires Sound(p) && Current(p) && Legal(p, events) && NoEarlyReturn(events)
    ensures Sound(Trail(p, events)) && Current(Trail(p, events))
    decreases |events|
  {
    hide Sound, Current, Enabled, Next;
    if events != [] {
      SoundKept(p, events[0]);
      CurrentKept(p, events[0]);
      RunIsCurrent(Next(p, events[0]), events[1..]);
    }
  }

  /** How a step keeps the books: a task is handed the cell that the client has claimed for it when it is
      filed, and a result is stored when its winner delivers it. */
  predicate Recorded(p: Pipe, e: Event, v: Pipe) {
    && v.h.homes == (if e.Client? && p.stage.Drawn? then p.h.homes + [p.stage.j] else p.h.homes)
    && v.h.delivered
       == if e.Deliver? && e.id in p.copies then p.h.delivered + [p.copies[e.id].tid] else p.h.delivered
  }

  /** What a step may do to the cells, said of the tasks that each cell was handed. */
  ghost predicate SafeStep(p: Pipe, e: Event, v: Pipe) {
    && |v.cells| == |p.cells| && Recorded(p, e, v)
    && (forall tid :: tid in p.m.table ==> tid < |p.h.homes| && p.m.table[tid].cell == p.h.homes[tid])
    && (forall tid: nat :: tid < |p.h.homes| && tid !in p.h.delivered ==>
          p.h.homes[tid] < |p.cells| && p.cells[p.h.homes[tid]] == Busy(p.mode))
    && (e.Client? ==> forall j :: 0 <= j < |p.cells| && v.cells[j] != p.cells[j] ==>
          forall tid: nat :: tid < |p.h.homes| && p.h.homes[tid] == j ==> tid in p.h.delivered)
    && (e.Run? || e.Repost? ==> v.cells == p.cells)
    && (e.Deliver? ==> e.id in p.copies && Rightful(p, e.id)
                       && v.cells == p.cells[p.copies[e.id].cell := p.copies[e.id].won.value])
  }

  /** The execution is the only winner of a task whose result is still missing, and its cell has been
      handed to no later task and claimed for none. */
  ghost predicate Rightful(p: Pipe, id: nat)
    requires id in p.copies
  {
    var c := p.copies[id];
    && c.won.Some? && c.cell < |p.cells| && !ClaimedCell(p, c.cell)
    && c.tid < |p.h.homes| && p.h.homes[c.tid] == c.cell && Newest(p.h.homes, c.tid) && c.tid !in p.h.delivered
    && (forall other :: other in p.copies && other != id && p.copies[other].tid == c.tid ==> p.copies[other].won == None)
  }

  lemma WinnerIsRightful(p: Pipe, id: nat)
    requires Sound(p) && Current(p) && id in p.copies && p.copies[id].won.Some?
    ensures Rightful(p, id)
  {
    var c := p.copies[id];
    assert p.h.occupant[c.cell] == Landing(c.tid, id);
  }

  lemma SpareIfIdle(p: Pipe, j: nat)
    requires Sound(p) && j < |p.cells| && Idle(p.mode, p.cells[j])
    ensures forall tid: nat :: tid < |p.h.homes| && p.h.homes[tid] == j ==> tid in p.h.delivered
  {
    VacantIfIdle(p, j);
  }

  lemma StepIsRecorded(p: Pipe, e: Event)
    requires Enabled(p, e) && !e.ReturnEarly?
    ensures var v := Next(p, e); Recorded(p, e, v) && |v.cells| == |p.cells| && (e.Run? || e.Repost? ==> v.cells == p.cells)
    ensures e.Deliver? ==> e.id in p.copies && p.copies[e.id].won.Some? && p.copies[e.id].cell < |p.cells|
                           && Next(p, e).cells == p.cells[p.copies[e.id].cell := p.copies[e.id].won.value]
  {
  }

  lemma ClientClaimsSpareCells(p: Pipe, now: nat)
    requires Sound(p)
    ensures var v := Next(p, Client(now));
            |v.cells| == |p.cells| && forall j :: 0 <= j < |p.cells| && v.cells[j] != p.cells[j] ==>
              forall tid: nat :: tid < |p.h.homes| && p.h.homes[tid] == j ==> tid in p.h.delivered
  {
    if Claims(p) {
      SpareIfIdle(p, p.stage.j);
    } else {
      assert Next(p, Client(now)).cells == p.cells;
    }
    hide Owned, Awaited, Settled, Drained;
  }

  lemma StepIsSafe(p: Pipe, e: Event)
    requires Sound(p) && Current(p) && Enabled(p, e) && !e.ReturnEarly?
    ensures SafeStep(p, e, Next(p, e))
  {
    hide Current, Sound, Rightful, Recorded, Next, Enabled;
    MissingMeansBusy(p);
    StepIsRecorded(p, e);
    if e.Client? {
      ClientClaimsSpareCells(p, e.now);
    } else if e.Deliver? {
      WinnerIsRightful(p, e.id);
    }
  }

  lemma MissingMeansBusy(p: Pipe)
    requires Sound(p)
    ensures forall tid: nat :: tid < |p.h.homes| && tid !in p.h.delivered ==>
              p.h.homes[tid] < |p.cells| && p.cells[p.h.homes[tid]] == Busy(p.mode)
    ensures forall tid :: tid in p.m.table ==> tid < |p.h.homes| && p.m.table[tid].cell == p.h.homes[tid]
  {
    assert forall tid: nat :: tid < |p.h.homes| && tid !in p.h.delivered ==>
        WaitsFor(p.h.occupant[p.h.homes[tid]], tid);
  }

  /** Slot safety, end to end.  In every interleaving of the client, the workers and the watcher in which
      no execution returns early: a result is stored into a cell only by the one winner of the task that
      the cell was last handed to, once, and not while the client has claimed the cell for another; until
      then the cell reads busy; and the client claims a cell only after the results of all tasks that it
      was ever handed have been stored.  So a stale execution never disturbs a cell that has moved on. */
  lemma SlotSafety(mode: Mode, objects: seq<string>, threads: nat, tracing: bool, events: seq<Event>, e: Event)
    requires Legal(Begin(mode, objects, threads, tracing), events) && NoEarlyReturn(events)
    requires Enabled(Trail(Begin(mode, objects, threads, tracing), events), e) && !e.ReturnEarly?
    ensures var p := Trail(Begin(mode, objects, threads, tracing), events); SafeStep(p, e, Next(p, e))
  {
    hide Enabled, Next, SafeStep, Sound;
    BeginIsSound(mode, objects, threads, tracing);
    RunIsCurrent(Begin(mode, objects, threads, tracing), events);
    StepIsSafe(Trail(Begin(mode, objects, threads, tracing), events), e);
  }

  // ---------------------------------------------------------------- counting

  /** The number of cells that wait for a task's result. */
  function InFlight(occupant: seq<Occupant>): nat {
    if occupant == [] then 0
    else InFlight(occupant[1..]) + if occupant[0].Serving? || occupant[0].Landing? then 1 else 0
  }

  lemma {:induction false} InFlightUpdate(occupant: seq<Occupant>, j: nat, o: Occupant)
    requires j < |occupant|
    ensures InFlight(occupant[j := o]) + (if occupant[j].Serving? || occupant[j].Landing? then 1 else 0)
            == InFlight(occupant) + (if o.Serving? || o.Landing? then 1 else 0)
  {
    if j > 0 {
      InFlightUpdate(occupant[1..], j - 1, o);
      assert occupant[j := o][1..] == occupant[1..][j - 1 := o];
    } else {
      assert occupant[j := o][1..] == occupant[1..];
    }
  }

  lemma {:induction false} InFlightBounds(occupant: seq<Occupant>)
    ensures InFlight(occupant) <= |occupant|
    ensures InFlight(occupant) == 0 <==>
      forall j :: 0 <= j < |occupant| ==> !occupant[j].Serving? && !occupant[j].Landing?
  {
    if occupant != [] {
      InFlightBounds(occupant[1..]);
      assert forall j :: 0 < j < |occupant| ==> occupant[j] == occupant[1..][j - 1];
    }
  }

  /** Submitted tasks are delivered or in flight. */
  predicate Conserved(p: Pipe) {
    |p.h.log| == |p.h.delivered| + InFlight(p.h.occupant)
  }

  /** Twice the objects left to submit plus the tasks in flight. */
  function Work(p: Pipe): int {
    2 * (|p.objects| - |p.h.log|) + InFlight(p.h.occupant)
  }

  predicate Productive(p: Pipe, e: Event) {
    e.Deliver? || (e.Client? && p.stage.Drawn?)
  }

  /** Every submission and every delivery is one unit of work done, and nothing else is. */
  lemma StepCounts(p: Pipe, e: Event)
    requires Sound(p) && Conserved(p) && Enabled(p, e) && !e.ReturnEarly?
    ensures Conserved(Next(p, e))
    ensures Work(Next(p, e)) == Work(p) - if Productive(p, e) then 1 else 0
  {
    match e
    case Repost(_) =>
    case Client(_) =>
      if p.stage.Drawn? {
        InFlightUpdate(p.h.occupant, p.stage.j, Serving(p.stage.tid));
      } else if Claims(p) {
        VacantIfIdle(p, p.stage.j);
        InFlightUpdate(p.h.occupant, p.stage.j, Reserved);
      }
    case Run(id, _, _) =>
      var c := p.copies[id];
      if c.tid in p.m.table {
        InFlightUpdate(p.h.occupant, c.cell, Landing(c.tid, id));
      }
    case Deliver(id) => InFlightUpdate(p.h.occupant, p.copies[id].cell, Vacant);
  }

  function Units(p: Pipe, events: seq<Event>): nat
    requires Legal(p, events)
    decreases |events|
  {
    if events == [] then 0
    else (if Productive(p, events[0]) then 1 else 0) + Units(Next(p, events[0]), events[1..])
  }

  lemma {:induction false} RunCounts(p: Pipe, events: seq<Event>)
    requires Sound(p) && Conserved(p) && Legal(p, events) && NoEarlyReturn(events)
    ensures var v := Trail(p, events); Conserved(v) && Sound(v) && Work(v) == Work(p) - Units(p, events)
    decreases |events|
  {
    if events != [] {
      SoundKept(p, events[0]);
      StepCounts(p, events[0]);
      RunCounts(Next(p, events[0]), events[1..]);
    }
  }

  lemma {:induction false} BeginConserves(mode: Mode, objects: seq<string>, threads: nat, tracing: bool)
    ensures var p := Begin(mode, objects, threads, tracing); Conserved(p) && Work(p) == 2 * |objects|
  {
    InFlightBounds(Begin(mode, objects, threads, tracing).h.occupant);
  }

  /** The dispatcher submits a prefix of the list, in order and without repetition, never has more tasks
      in flight than it has cells, and no run has more than one submission and one delivery per object.
      When the drain loop leaves, every object has been submitted and the result of every task has been
      stored exactly once. */
  lemma DispatchIsExact(mode: Mode, objects: seq<string>, threads: nat, tracing: bool, events: seq<Event>)
    requires Legal(Begin(mode, objects, threads, tracing), events) && NoEarlyReturn(events)
    ensures
      var p0 := Begin(mode, objects, threads, tracing);
      var p := Trail(p0, events);
      && p.h.log <= objects && Distinct(p.h.delivered)
      && 0 <= |p.h.log| - |p.h.delivered| <= threads
      && Units(p0, events) <= 2 * |objects|
      && (p.stage == AllDone ==>
            p.h.log == objects && |p.h.delivered| == |objects| && forall tid: nat :: tid < |objects| <==> tid in p.h.delivered)
  {
    var p0 := Begin(mode, objects, threads, tracing);
    BeginIsSound(mode, objects, threads, tracing);
    BeginConserves(mode, objects, threads, tracing);
    RunCounts(p0, events);
    ModeKept(p0, events);
    var p := Trail(p0, events);
    InFlightBounds(p.h.occupant);
    DrainIsComplete(p);
  }

  lemma DrainIsComplete(p: Pipe)
    requires Sound(p) && Conserved(p)
    ensures p.h.log <= p.objects && Distinct(p.h.delivered)
    ensures |p.cells| == |p.h.occupant| && |p.h.log| <= |p.objects|
    ensures p.stage == AllDone ==>
      && p.h.log == p.objects && |p.h.delivered| == |p.h.log|
      && forall tid: nat :: tid < |p.h.log| <==> tid in p.h.delivered
  {
    InFlightBounds(p.h.occupant);
  }

  lemma {:induction false} ModeKept(p: Pipe, events: seq<Event>)
    requires Legal(p, events)
    ensures var v := Trail(p, events);
            v.mode == p.mode && v.objects == p.objects && |v.cells| == |p.cells|
    decreases |events|
  {
    if events != [] {
      ModeKept(Next(p, events[0]), events[1..]);
    }
  }

  // ---------------------------------------------------------------- what is filed

  /** What `ReadAsync`, `CreateAsync` and `MoveAsync` file for the listed objects. */
  predicate Described(p: Pipe) {
    forall tid :: tid in p.m.table ==>
      && tid < |p.objects| && p.m.table[tid].oid == p.objects[tid]
      && match p.mode
         case Reads => p.m.table[tid].mode == "r" && p.m.table[tid].tier == "-"
         case Writes(tier) => p.m.table[tid].mode == "w" && p.m.table[tid].tier == tier
         case Moves(tier) => p.m.table[tid].mode == "m" && p.m.table[tid].tier == tier
  }

  /** The record that is filed for the next object, with the time of its filing. */
  lemma FilingIsExact(p: Pipe, now: nat)
    requires Shaped(p) && p.stage.Drawn?
    ensures var letter := match p.mode case Reads => "r" case Writes(_) => "w" case Moves(_) => "m";
            var tier := if p.mode.Reads? then "-" else p.mode.tier;
            ClientStep(p, now).m.table
            == p.m.table[p.stage.tid := Task(p.objects[p.next], letter, tier, p.stage.j, now)]
  {
  }

  lemma {:induction false} TasksAreDescribed(p: Pipe, events: seq<Event>)
    requires Described(p) && Legal(p, events)
    ensures Described(Trail(p, events))
    decreases |events|
  {
    if events != [] {
      TasksAreDescribed(Next(p, events[0]), events[1..]);
    }
  }

  // ---------------------------------------------------------------- every copy runs once

  predicate Numbered(p: Pipe) {
    forall id :: id in p.copies ==> id < p.issued
  }

  /** The event is the last of some copy: it loses in `FinishTask`, stores its result, or returns early. */
  predicate Spends(p: Pipe, e: Event) {
    e.Deliver? || e.ReturnEarly? || (e.Run? && e.id in p.copies && p.copies[e.id].tid !in p.m.table)
  }

  function Spent(p: Pipe, events: seq<Event>): nat
    requires Legal(p, events)
    decreases |events|
  {
    if events == [] then 0
    else (if Spends(p, events[0]) then 1 else 0) + Spent(Next(p, events[0]), events[1..])
  }

  lemma MapSizes(m: map<nat, Copy>, id: nat, c: Copy)
    ensures |m[id := c]| == |m| + if id in m then 0 else 1
    ensures |m - {id}| == |m| - if id in m then 1 else 0
  {
    assert m[id := c].Keys == m.Keys + {id};
    assert (m - {id}).Keys == m.Keys - {id};
  }

  lemma PostBalances(p: Pipe, now: nat)
    requires Numbered(p) && Shaped(p)
    ensures var v := ClientStep(p, now); Numbered(v) && v.issued - |v.copies| == p.issued - |p.copies|
  {
    if p.stage.Started? {
      MapSizes(p.copies, p.issued, Copy(p.stage.tid, p.stage.j, None));
    } else {
      assert ClientStep(p, now).copies == p.copies && ClientStep(p, now).issued == p.issued;
    }
  }

  /** What a step of a worker or the watcher does to the copies. */
  lemma CopiesAfter(p: Pipe, e: Event)
    requires Enabled(p, e) && !e.Client?
    ensures var v := Next(p, e);
            if e.Repost? then
              e.tid in p.m.table && v.issued == p.issued + 1 && v.copies == p.copies[p.issued := Copy(e.tid, p.m.table[e.tid].cell, None)]
            else
              v.issued == p.issued && e.id in p.copies
              && v.copies == if Spends(p, e) then p.copies - {e.id} else p.copies[e.id := p.copies[e.id].(won := Some(e.r))]
  {
  }

  predicate Balances(p: Pipe, v: Pipe, spent: nat) {
    Numbered(v) && v.issued - |v.copies| == p.issued - |p.copies| + spent
  }

  lemma OnePosted(p: Pipe, v: Pipe, c: Copy)
    requires Numbered(p) && v.issued == p.issued + 1 && v.copies == p.copies[p.issued := c]
    ensures Balances(p, v, 0)
  {
    MapSizes(p.copies, p.issued, c);
  }

  lemma OneKept(p: Pipe, v: Pipe, id: nat, c: Copy)
    requires Numbered(p) && id in p.copies && v.issued == p.issued && v.copies == p.copies[id := c]
    ensures Balances(p, v, 0)
  {
    MapSizes(p.copies, id, c);
  }

  lemma OneSpent(p: Pipe, v: Pipe, id: nat)
    requires Numbered(p) && id in p.copies && v.issued == p.issued && v.copies == p.copies - {id}
    ensures Balances(p, v, 1)
  {
    MapSizes(p.copies, id, p.copies[id]);
  }

  lemma CopiesBalance(p: Pipe, e: Event)
    requires Numbered(p) && Enabled(p, e)
    ensures Balances(p, Next(p, e), if Spends(p, e) then 1 else 0)
  {
    hide ClientStep, Next, Enabled, Numbered, Balances;
    var v := Next(p, e);
    if e.Client? {
      ClientCopies(p, e.now);
    } else {
      CopiesAfter(p, e);
      if e.Repost? {
        OnePosted(p, v, Copy(e.tid, p.m.table[e.tid].cell, None));
      } else if Spends(p, e) {
        OneSpent(p, v, e.id);
      } else {
        OneKept(p, v, e.id, p.copies[e.id].(won := Some(e.r)));
      }
    }
  }

  lemma ClientCopies(p: Pipe, now: nat)
    requires Numbered(p) && Enabled(p, Event.Client(now))
    ensures Balances(p, Next(p, Event.Client(now)), 0)
  {
    PostBalances(p, now);
  }

  /** Every copy that was ever posted, by a submitter or by the watcher, is still queued or running, or has
      come to its end exactly once. */
  lemma {:induction false} CopiesAreConserved(p: Pipe, events: seq<Event>)
    requires Numbered(p) && Legal(p, events)
    ensures var v := Trail(p, events); v.issued - |v.copies| == p.issued - |p.copies| + Spent(p, events)
    decreases |events|
  {
    if events != [] {
      CopiesBalance(p, events[0]);
      CopiesAreConserved(Next(p, events[0]), events[1..]);
    }
  }

  // ---------------------------------------------------------------- progress

  predicate Runs(p: Pipe, id: nat, tid: nat) {
    id in p.copies && p.copies[id].won == None && p.copies[id].tid == tid
  }

  /** Every open task that has been posted has a copy that is queued or running. */
  ghost predicate Runnable(p: Pipe) {
    forall tid :: tid in p.m.table ==> (p.stage.Started? && p.stage.tid == tid) || exists id :: Runs(p, id, tid)
  }

  lemma CopyStays(p: Pipe, e: Event, id: nat, tid: nat)
    requires Enabled(p, e) && !e.ReturnEarly?
    requires Runs(p, id, tid) && id < p.issued && tid in Next(p, e).m.table
    ensures Runs(Next(p, e), id, tid)
  {
  }

  lemma RunnableKept(p: Pipe, e: Event)
    requires Sound(p) && Runnable(p) && Enabled(p, e) && !e.ReturnEarly?
    ensures Runnable(Next(p, e))
  {
    var v := Next(p, e);
    forall tid | tid in v.m.table && !(v.stage.Started? && v.stage.tid == tid)
      ensures exists id :: Runs(v, id, tid)
    {
      assert tid in p.m.table;
      if p.stage.Started? && p.stage.tid == tid {
        assert Runs(v, p.issued, tid);
      } else {
        var id: nat :| Runs(p, id, tid);
        CopyStays(p, e, id, tid);
      }
    }
  }

  lemma {:induction false} RunStaysRunnable(p: Pipe, events: seq<Event>)
    requires Sound(p) && Runnable(p) && Legal(p, events) && NoEarlyReturn(events)
    ensures Runnable(Trail(p, events)) && Sound(Trail(p, events))
    decreases |events|
  {
    if events != [] {
      SoundKept(p, events[0]);
      RunnableKept(p, events[0]);
      RunStaysRunnable(Next(p, events[0]), events[1..]);
    }
  }

  /** No task is ever lost: whatever a cell waits for, a step that brings its result nearer is enabled.
      The client is about to post the task, or a copy can run and win it, or the winner can store. */
  lemma NothingIsLost(mode: Mode, objects: seq<string>, threads: nat, tracing: bool, events: seq<Event>, j: nat)
    requires Legal(Begin(mode, objects, threads, tracing), events) && NoEarlyReturn(events)
    requires j < threads && j < |Trail(Begin(mode, objects, threads, tracing), events).h.occupant|
    ensures
      var p := Trail(Begin(mode, objects, threads, tracing), events);
      match p.h.occupant[j]
      case Vacant => true
      case Reserved => (p.stage.Claimed? || p.stage.Drawn?) && p.stage.j == j
      case Serving(tid) =>
        || (p.stage.Started? && p.stage.tid == tid)
        || exists id :: Runs(p, id, tid) && p.copies[id].cell == j && Enabled(p, Run(id, 0, 0)) && tid in p.m.table
      case Landing(tid, id) => Enabled(p, Deliver(id)) && p.copies[id].cell == j
  {
    var p0 := Begin(mode, objects, threads, tracing);
    BeginIsSound(mode, objects, threads, tracing);
    RunStaysRunnable(p0, events);
    NoneLost(Trail(p0, events), j);
  }

  lemma NoneLost(p: Pipe, j: nat)
    requires Sound(p) && Runnable(p) && j < |p.h.occupant|
    ensures
      match p.h.occupant[j]
      case Vacant => true
      case Reserved => (p.stage.Claimed? || p.stage.Drawn?) && p.stage.j == j
      case Serving(tid) =>
        || (p.stage.Started? && p.stage.tid == tid)
        || exists id :: Runs(p, id, tid) && p.copies[id].cell == j && Enabled(p, Run(id, 0, 0)) && tid in p.m.table
      case Landing(tid, id) => Enabled(p, Deliver(id)) && p.copies[id].cell == j
  {
    if p.h.occupant[j].Serving? && !(p.stage.Started? && p.stage.tid == p.h.occupant[j].tid) {
      var id: nat :| Runs(p, id, p.h.occupant[j].tid);
      assert p.copies[id].cell == j && Enabled(p, Run(id, 0, 0));
    }
  }

  // ---------------------------------------------------------------- early returns

  /** Some execution of the task has won and has yet to store its result. */
  ghost predicate Pending(p: Pipe, tid: nat) {
    exists id :: id in p.copies && p.copies[id].tid == tid && p.copies[id].won.Some?
  }

  /** An execution that returns early finds its cell still meant for its own task, handed to no other and
      claimed for no other, exactly when the task is open or has a winner that has yet to store its
      result. */
  lemma EarlyReturnHitsOwnCellIff(mode: Mode, objects: seq<string>, threads: nat, tracing: bool, events: seq<Event>,
                                  id: nat, r: int)
    requires Legal(Begin(mode, objects, threads, tracing), events) && NoEarlyReturn(events)
    requires Enabled(Trail(Begin(mode, objects, threads, tracing), events), ReturnEarly(id, r))
    ensures var p := Trail(Begin(mode, objects, threads, tracing), events);
            var c := p.copies[id];
            && c.tid < |p.h.homes| && p.h.homes[c.tid] == c.cell
            && (Newest(p.h.homes, c.tid) && !ClaimedCell(p, c.cell) && p.cells[c.cell] == Busy(mode) && c.tid !in p.h.delivered
                <==> c.tid in p.m.table || Pending(p, c.tid))
  {
    var p0 := Begin(mode, objects, threads, tracing);
    BeginIsSound(mode, objects, threads, tracing);
    RunIsCurrent(p0, events);
    ModeKept(p0, events);
    OwnCellIff(Trail(p0, events), id);
  }

  lemma OwnCellIff(p: Pipe, id: nat)
    requires Sound(p) && Current(p) && id in p.copies && p.copies[id].cell < |p.cells|
    ensures var c := p.copies[id];
            && c.tid < |p.h.homes| && p.h.homes[c.tid] == c.cell
            && (Newest(p.h.homes, c.tid) && !ClaimedCell(p, c.cell) && p.cells[c.cell] == Busy(p.mode) && c.tid !in p.h.delivered
                <==> c.tid in p.m.table || Pending(p, c.tid))
  {
    var c := p.copies[id];
    if c.tid !in p.h.delivered {
      assert WaitsFor(p.h.occupant[p.h.homes[c.tid]], c.tid);
    }
  }

  lemma {:induction false} Extend(p: Pipe, events: seq<Event>, e: Event) returns (more: seq<Event>)
    requires Legal(p, events) && Enabled(Trail(p, events), e)
    ensures more == events + [e] && Legal(p, more) && Trail(p, more) == Next(Trail(p, events), e)
    decreases |events|
  {
    more := events + [e];
    if events == [] {
      assert more[1..] == [];
    } else {
      var rest := Extend(Next(p, events[0]), events[1..], e);
      assert more[1..] == rest;
    }
  }

  /** One cell, two objects: the first task has been filed and posted, and the watcher has posted it again. */
  lemma PostedTwice() returns (events: seq<Event>)
    ensures Legal(Begin(Moves("f"), ["a", "b"], 1, false), events)
    ensures var p := Trail(Begin(Moves("f"), ["a", "b"], 1, false), events);
            && p.mode == Moves("f") && p.objects == ["a", "b"] && p.stage == Scanning(0) && p.next == 1 && p.m.counter == 1
            && 0 in p.m.table && p.cells == [1] && p.h.occupant == [Serving(0)] && p.h.log == ["a"]
            && p.copies == map[0 := Copy(0, 0, None), 1 := Copy(0, 0, None)]
  {
    var p := Begin(Moves("f"), ["a", "b"], 1, false);
    events := Extend(p, [], Client(0));
    events := Extend(p, events, Client(0));
    events := Extend(p, events, Client(0));
    events := Extend(p, events, Client(0));
    events := Extend(p, events, Repost(0));
  }

  /** The first copy wins and stores, the client gives the cell to the second object, and then the other
      copy of the first task returns early: the client finds an error in a cell whose task has not run. */
  lemma EarlyReturnHitsReusedCell() returns (events: seq<Event>)
    ensures Legal(Begin(Moves("f"), ["a", "b"], 1, false), events)
    ensures var p := Trail(Begin(Moves("f"), ["a", "b"], 1, false), events);
            p.h.occupant == [Reserved] && p.cells == [-2]
  {
    var p := Begin(Moves("f"), ["a", "b"], 1, false);
    events := PostedTwice();
    events := Extend(p, events, Run(0, 0, 0));
    events := Extend(p, events, Deliver(0));
    events := Extend(p, events, Client(0));
    events := Extend(p, events, ReturnEarly(1, -2));
  }
}
