/** The replayer's dispatch and drain loops as the program writes them.

    `script` says what the workers and the watcher do before each step of the client thread.  A replay
    that uses the script up has been observed halfway. */
module Replayer {
  import opened Pipeline
  import opened Prelude

  datatype Ending = Drained | Abort | Halfway

  /** The steps of the other threads; those that are not possible are passed over. */
  function Others(p: Pipe, events: seq<Event>): Pipe
    decreases |events|
  {
    if events == [] then p
    else
      var e := events[0];
      Others(if e.Client? || e.ReturnEarly? || !Enabled(p, e) then p else Next(p, e), events[1..])
  }

  /** Where the client thread is and what it has submitted. */
  predicate SameClient(p: Pipe, v: Pipe) {
    v.stage == p.stage && v.next == p.next && v.mode == p.mode && v.objects == p.objects && |v.cells| == |p.cells|
  }

  lemma {:induction false} OthersKeepSound(p: Pipe, events: seq<Event>)
    requires Sound(p) && Conserved(p)
    ensures var v := Others(p, events); Sound(v) && Conserved(v) && SameClient(p, v)
    decreases |events|
  {
    if events != [] {
      var e := events[0];
      if e.Client? || e.ReturnEarly? || !Enabled(p, e) {
        OthersKeepSound(p, events[1..]);
      } else {
        SoundKept(p, e);
        StepCounts(p, e);
        OthersKeepSound(Next(p, e), events[1..]);
      }
    }
  }

  /** Some cell holds the error of a finished operation: a negative number for a read, neither 0 nor 1 for a
      write or a move. */
  predicate HoldsError(p: Pipe) {
    exists j :: 0 <= j < |p.cells| && if p.mode.Reads? then p.cells[j] < 0 else p.cells[j] != 0 && p.cells[j] != 1
  }

  class Replay {
    var world: Pipe
    var script: seq<seq<Event>>

    constructor (mode: Mode, objects: seq<string>, threads: nat, tracing: bool, script: seq<seq<Event>>)
      ensures Valid() && world == Begin(mode, objects, threads, tracing) && this.script == script
    {
      this.world := Begin(mode, objects, threads, tracing);
      this.script := script;
      new;
      BeginIsSound(mode, objects, threads, tracing);
      BeginConserves(mode, objects, threads, tracing);
    }

    ghost predicate Valid()
      reads this
    {
      Sound(world) && Conserved(world)
    }

    /** The other threads run, and then the client takes one step.  `ret` is the cell that the step looks
        at, if it looks at one. */
    method Step(j: nat) returns (alive: bool, ret: int)
      requires Valid()
      modifies this
      ensures Valid()
      ensures alive <==> old(script) != []
      ensures alive ==> |script| < |old(script)|
      ensures !alive ==> script == [] && world == old(world)
      ensures alive ==>
        var w := Others(old(world), old(script)[0]);
        Sound(w) && SameClient(old(world), w) && world == ClientStep(w, 0) && (j < |w.cells| ==> ret == w.cells[j])
    {
      if script == [] {
        return false, 0;
      }
      OthersKeepSound(world, script[0]);
      world := Others(world, script[0]);
      script := script[1..];
      ret := if j < |world.cells| then world.cells[j] else 0;
      SoundKept(world, Event.Client(0));
      StepCounts(world, Event.Client(0));
      world := ClientStep(world, 0);
      alive := true;
    }

    /** Submits every object through the cells, and then waits until every cell is idle again.  When it
        returns, every object has been submitted and every result stored exactly once, and no cell waits. */
    method Run() returns (o: Ending)
      requires Valid() && world.stage == Scanning(0) && world.next == 0
      modifies this
      ensures Valid() && world.objects == old(world.objects) && |world.cells| == |old(world.cells)|
      ensures o == Drained ==>
        && world.h.log == world.objects
        && Distinct(world.h.delivered) && (forall tid: nat :: tid < |world.objects| <==> tid in world.h.delivered)
        && (forall j :: 0 <= j < |world.cells| ==>
              world.h.occupant[j] == Vacant && if world.mode.Reads? then world.cells[j] > 0 else world.cells[j] == 0)
      ensures o == Abort ==> world.stage == Failed && HoldsError(world)
      ensures o == Halfway ==> script == []
    {
      o := Dispatch();
      if o == Drained {
        o := Drain();
      }
      if o == Drained {
        DrainIsComplete(world);
      }
    }

    method Dispatch() returns (o: Ending)
      requires Valid() && world.stage == Scanning(0) && world.next == 0
      modifies this
      ensures Valid() && world.objects == old(world.objects) && |world.cells| == |old(world.cells)|
      ensures o == Drained ==> world.stage == Draining(0, 0)
      ensures o == Abort ==> world.stage == Failed && HoldsError(world)
      ensures o == Halfway ==> script == []
    {
      hide Sound, Conserved;
      var n := |world.cells|;
      var alive, ret;
      var next := 0;
      while next < |world.objects|
        invariant Valid() && world.objects == old(world.objects) && |world.cells| == n
        invariant world.stage == Scanning(0) && world.next == next <= |world.objects|
        decreases |script|
      {
        o := Place(next);
        if o != Drained {
          return;
        }
        next := next + 1;
      }
      alive, ret := Step(n);
      o := if alive then Drained else Halfway;
    }

    /** Finds an idle cell for one object and submits the object there. */
    method Place(next: nat) returns (o: Ending)
      requires Valid() && world.stage == Scanning(0) && world.next == next < |world.objects|
      modifies this
      ensures Valid() && world.objects == old(world.objects) && |world.cells| == |old(world.cells)|
      ensures o == Drained ==> world.stage == Scanning(0) && world.next == next + 1 && |script| < |old(script)|
      ensures o == Abort ==> world.stage == Failed && HoldsError(world)
      ensures o == Halfway ==> script == []
    {
      hide Sound, Conserved;
      var n := |world.cells|;
      var placed, alive, ret := false, true, 0;
      while !placed
        invariant Valid() && world.objects == old(world.objects) && |world.cells| == n && |script| <= |old(script)|
        invariant world.stage == Scanning(0) && world.next == if placed then next + 1 else next
        invariant placed ==> |script| < |old(script)|
        decreases |script|
      {
        label Retry:
        var used, j := 0, 0;
        while j < n && !placed
          invariant Valid() && world.objects == old(world.objects) && |world.cells| == n
          invariant |script| <= old@Retry(|script|) && (placed ==> |script| < old@Retry(|script|))
          invariant if placed then world.stage == Scanning(0) && world.next == next + 1 && used < n
                    else world.stage == Scanning(j) && world.next == next && used == j <= n
          decreases !placed, n - j
        {
          alive, ret := Step(j);
          if !alive {
            return Halfway;
          }
          if Idle(world.mode, ret) {
            alive := Submit(j);
            if !alive {
              return Halfway;
            }
            placed := true;
          } else {
            used := used + 1;
            if ret != Busy(world.mode) {
              assert world.cells[j] == ret;
              return Abort;
            }
            j := j + 1;
          }
        }
        if used == n {
          alive, ret := Step(n);
          if !alive {
            return Halfway;
          }
        }
      }
      o := Drained;
    }

    /** `CreateAsync`, `MoveAsync` or `ReadAsync`: draw a task id, start the task, post it. */
    method Submit(j: nat) returns (alive: bool)
      requires Valid() && world.stage == Claimed(j)
      modifies this
      ensures Valid() && world.objects == old(world.objects) && |world.cells| == |old(world.cells)|
      ensures alive ==> world.stage == Scanning(0) && world.next == old(world.next) + 1
      ensures |script| <= |old(script)| && (!alive ==> script == [])
    {
      hide Sound, Conserved;
      var ret;
      alive, ret := Step(|world.cells|);
      if alive {
        alive, ret := Step(|world.cells|);
      }
      if alive {
        alive, ret := Step(|world.cells|);
      }
    }

    method Drain() returns (o: Ending)
      requires Valid() && world.stage == Draining(0, 0)
      modifies this
      ensures Valid() && world.objects == old(world.objects) && |world.cells| == |old(world.cells)|
      ensures o == Drained ==> world.stage == AllDone
      ensures o == Abort ==> world.stage == Failed && HoldsError(world)
      ensures o == Halfway ==> script == []
    {
      hide Sound, Conserved;
      var n := |world.cells|;
      var alive, ret := true, 0;
      while world.stage != AllDone
        invariant Valid() && world.objects == old(world.objects) && |world.cells| == n
        invariant world.stage == AllDone || world.stage == Draining(0, 0)
        decreases |script|, world.stage != AllDone
      {
        label Pass:
        var done := 0;
        for j := 0 to n
          invariant Valid() && world.objects == old(world.objects) && |world.cells| == n
          invariant world.stage == Draining(j, done) && |script| <= old@Pass(|script|)
        {
          alive, ret := Step(j);
          if !alive {
            return Halfway;
          }
          if Idle(world.mode, ret) {
            done := done + 1;
          } else if ret != Busy(world.mode) {
            assert world.cells[j] == ret;
            return Abort;
          }
        }
        alive, ret := Step(n);
        if !alive {
          return Halfway;
        }
      }
      o := Drained;
    }
  }
}
