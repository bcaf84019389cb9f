/** A whole replay of moves to FAST: the dispatcher, the task manager and the watcher on one side, and on
    the other the store, in which every execution of a task is one mover of the object's name. */
module ReplayStore {
  import opened Prelude
  import opened Store
  import opened MoverMachine
  import opened Promotions
  import C = Crowd
  import P = Pipeline
  import Progress

  datatype Joint = Joint(p: P.Pipe, u: map<string, C.World>)

  /** A step of the client thread, the watcher or a worker's `FinishTask` and store; or the next operation
      that an execution issues. */
  datatype Event =
    | Piped(e: P.Event)
    | Moved(id: nat, jump: nat)

  function NameOf(p: P.Pipe, tid: nat): string {
    if tid < |p.objects| then p.objects[tid] else ""
  }

  /** Where the mover of an execution has got to. */
  function At(j: Joint, id: nat): Option<Pc> {
    if id !in j.p.copies then None
    else
      var name := NameOf(j.p, j.p.copies[id].tid);
      if name in j.u && id in j.u[name].clients then Some(j.u[name].clients[id].pc) else None
  }

  /** An execution gets to `FinishTask`, or returns early, with what its mover has come back with. */
  predicate Enabled(j: Joint, ev: Event) {
    match ev
    case Piped(e) =>
      && P.Enabled(j.p, e)
      && (e.Run? ==> At(j, e.id) == Some(Stopped(FallOut(e.r))))
      && (e.ReturnEarly? ==> At(j, e.id) == Some(Stopped(EarlyReturn(e.r))))
    case Moved(id, _) => id in j.p.copies && NameOf(j.p, j.p.copies[id].tid) in j.u
  }

  function MoverEvent(w: C.World, id: nat, jump: nat): C.Event {
    if id in w.clients then C.Act(id, 0, jump) else C.Begin(id, Fast)
  }

  function Next(j: Joint, ev: Event): Joint
    requires Enabled(j, ev)
  {
    match ev
    case Piped(e) => j.(p := P.Next(j.p, e))
    case Moved(id, jump) =>
      var name := NameOf(j.p, j.p.copies[id].tid);
      j.(u := j.u[name := C.Next(j.u[name], MoverEvent(j.u[name], id, jump))])
  }

  predicate Legal(j: Joint, events: seq<Event>)
    decreases |events|
  {
    events != [] ==> Enabled(j, events[0]) && Legal(Next(j, events[0]), events[1..])
  }

  function Trail(j: Joint, events: seq<Event>): Joint
    requires Legal(j, events)
    decreases |events|
  {
    if events == [] then j else Trail(Next(j, events[0]), events[1..])
  }

  /** Where the names were created, and their data. */
  datatype Origin = Origin(home: Tier, data: Data)

  /** Every listed name is on its way to FAST. */
  ghost predicate AllRising(j: Joint, from: map<string, Origin>) {
    && j.u.Keys == from.Keys && (forall n :: n in j.p.objects ==> n in j.u)
    && (forall n :: n in j.u ==> Rising(j.u[n], from[n].home, from[n].data))
  }

  /** A task that has been won has its object in FAST. */
  ghost predicate WonIsRisen(j: Joint, from: map<string, Origin>)
    requires j.u.Keys == from.Keys
  {
    && (forall tid :: tid in j.p.h.delivered ==>
          var n := NameOf(j.p, tid); n in j.u && Risen(j.u[n], from[n].data))
    && (forall id :: id in j.p.copies && j.p.copies[id].won.Some? ==>
          var n := NameOf(j.p, j.p.copies[id].tid); n in j.u && Risen(j.u[n], from[n].data))
  }

  ghost predicate Whole(j: Joint, from: map<string, Origin>) {
    && P.Sound(j.p) && j.p.mode == P.Moves("f") && Progress.Calm(j.p)
    && AllRising(j, from) && WonIsRisen(j, from)
  }

  /** An execution that has come back has reported 0 with its object in FAST. */
  lemma BackMeansRisen(j: Joint, from: map<string, Origin>, id: nat)
    requires AllRising(j, from) && At(j, id).Some? && At(j, id).value.Stopped?
    ensures At(j, id) == Some(Stopped(FallOut(0)))
    ensures var n := NameOf(j.p, j.p.copies[id].tid); n in j.u && Risen(j.u[n], from[n].data)
  {
    var n := NameOf(j.p, j.p.copies[id].tid);
    RisenIfBack(j.u[n], id, from[n].home, from[n].data);
    hide Rising, Risen;
  }

  lemma RisenIfBack(w: C.World, who: nat, home: Tier, d: Data)
    requires Rising(w, home, d) && who in w.clients && w.clients[who].pc.Stopped?
    ensures Risen(w, d) && w.clients[who].pc == Stopped(FallOut(0))
  {
  }

  lemma MovedKeepsWhole(j: Joint, from: map<string, Origin>, id: nat, jump: nat)
    requires Whole(j, from) && Enabled(j, Moved(id, jump))
    ensures Whole(Next(j, Moved(id, jump)), from)
  {
    hide P.Sound, Progress.Calm, Rising, Risen, C.Next;
    var n := NameOf(j.p, j.p.copies[id].tid);
    RisingKept(j.u[n], MoverEvent(j.u[n], id, jump), from[n].home, from[n].data);
  }

  /** Winners and stored results before a step of the pipe that yields `v`. */
  lemma PipeKeepsWinners(p: P.Pipe, e: P.Event)
    requires P.Enabled(p, e) && !e.ReturnEarly?
    ensures var v := P.Next(p, e);
            && v.objects == p.objects && v.mode == p.mode
            && (forall tid :: tid in v.h.delivered ==> tid in p.h.delivered || (e.Deliver? && tid == p.copies[e.id].tid))
            && (forall id :: id in v.copies && v.copies[id].won.Some? ==>
                  id in p.copies && v.copies[id].tid == p.copies[id].tid
                  && (p.copies[id].won.Some? || (e.Run? && id == e.id)))
  {
  }

  lemma WinnersStayRisen(j: Joint, from: map<string, Origin>, e: P.Event)
    requires AllRising(j, from) && WonIsRisen(j, from) && P.Enabled(j.p, e) && !e.ReturnEarly?
    requires e.Run? ==> var n := NameOf(j.p, j.p.copies[e.id].tid); n in j.u && Risen(j.u[n], from[n].data)
    ensures WonIsRisen(j.(p := P.Next(j.p, e)), from)
  {
    hide Risen, Rising, P.Next;
    assert e.Deliver? ==> j.p.copies[e.id].won.Some?;
    PipeKeepsWinners(j.p, e);
  }

  lemma PipedKeepsWhole(j: Joint, from: map<string, Origin>, e: P.Event)
    requires Whole(j, from) && Enabled(j, Piped(e))
    ensures Whole(Next(j, Piped(e)), from)
  {
    hide P.Sound, Progress.Calm, Rising, Risen, WonIsRisen, P.Next, P.Enabled;
    if e.ReturnEarly? {
      BackMeansRisen(j, from, e.id);
    } else {
      if e.Run? {
        BackMeansRisen(j, from, e.id);
      }
      P.SoundKept(j.p, e);
      Progress.CalmKept(j.p, e);
      WinnersStayRisen(j, from, e);
      PipeKeepsWinners(j.p, e);
    }
  }

  lemma {:induction false} RunStaysWhole(j: Joint, from: map<string, Origin>, events: seq<Event>)
    requires Whole(j, from) && Legal(j, events)
    ensures Whole(Trail(j, events), from)
    decreases |events|
  {
    hide Whole, Enabled, Next;
    if events != [] {
      var ev := events[0];
      if ev.Piped? {
        PipedKeepsWhole(j, from, ev.e);
      } else {
        MovedKeepsWhole(j, from, ev.id, ev.jump);
      }
      RunStaysWhole(Next(j, events[0]), from, events[1..]);
    }
  }

  lemma {:induction false} RunKeepsObjects(j: Joint, events: seq<Event>)
    requires Legal(j, events)
    ensures Trail(j, events).p.objects == j.p.objects
    decreases |events|
  {
    if events != [] {
      RunKeepsObjects(Next(j, events[0]), events[1..]);
    }
  }

  /** The replay about to start on objects that have been created. */
  ghost predicate Ready(j: Joint, from: map<string, Origin>, objects: seq<string>, threads: nat, tracing: bool) {
    && j.p == P.Begin(P.Moves("f"), objects, threads, tracing)
    && j.u.Keys == from.Keys && (forall n :: n in objects ==> n in j.u)
    && (forall n :: n in j.u ==>
          var w: C.World := j.u[n];
          w.clients == map[] && C.Placed(w.slots, from[n].home, from[n].data) && C.Unlocked(w.slots))
  }

  lemma ReadyIsWhole(j: Joint, from: map<string, Origin>, objects: seq<string>, threads: nat, tracing: bool)
    requires Ready(j, from, objects, threads, tracing)
    ensures Whole(j, from)
  {
    P.BeginIsSound(P.Moves("f"), objects, threads, tracing);
    forall n | n in j.u
      ensures Rising(j.u[n], from[n].home, from[n].data)
    {
      StartsRising(j.u[n].slots, from[n].home, from[n].data);
      assert j.u[n] == C.World(j.u[n].slots, map[]);
    }
  }

  /** A replay of moves to FAST, end to end, in which no store operation fails: however the dispatcher, the
      workers, the watcher's second postings and the operations of all their executions interleave, the
      replay never meets an error and no execution returns early; and when the drain loop comes to its
      end, every listed object is in FAST, truthfully labelled, with the data it was created with. */
  lemma DrainedReplayPromotes(j: Joint, from: map<string, Origin>, objects: seq<string>, threads: nat, tracing: bool,
                              events: seq<Event>)
    requires Ready(j, from, objects, threads, tracing) && Legal(j, events)
    ensures var v := Trail(j, events);
            && v.p.stage != P.Failed && v.u.Keys == from.Keys
            && (forall id, r :: !Enabled(v, Piped(P.ReturnEarly(id, r))))
            && (v.p.stage == P.AllDone ==>
                  forall n :: n in objects ==> n in v.u && C.Placed(v.u[n].slots, Fast, from[n].data))
  {
    hide Whole, Enabled, Next;
    ReadyIsWhole(j, from, objects, threads, tracing);
    RunStaysWhole(j, from, events);
    RunKeepsObjects(j, events);
    NoneReturnsEarly(Trail(j, events), from);
    if Trail(j, events).p.stage == P.AllDone {
      DrainedMeansRisen(Trail(j, events), from);
    }
  }

  lemma NoneReturnsEarly(j: Joint, from: map<string, Origin>)
    requires Whole(j, from)
    ensures j.p.stage != P.Failed && j.u.Keys == from.Keys
    ensures forall id, r :: !Enabled(j, Piped(P.ReturnEarly(id, r)))
  {
    hide P.Sound, Rising, Risen, P.Enabled;
    forall id, r | Enabled(j, Piped(P.ReturnEarly(id, r)))
      ensures false
    {
      BackMeansRisen(j, from, id);
    }
  }

  lemma DrainedMeansRisen(j: Joint, from: map<string, Origin>)
    requires Whole(j, from) && j.p.stage == P.AllDone
    ensures forall n :: n in j.p.objects ==> n in j.u && n in from && C.Placed(j.u[n].slots, Fast, from[n].data)
  {
    hide P.Sound, Rising, Progress.Calm;
    forall n | n in j.p.objects
      ensures n in j.u && C.Placed(j.u[n].slots, Fast, from[n].data)
    {
      var tid: nat :| tid < |j.p.objects| && j.p.objects[tid] == n;
      AllDelivered(j.p, tid);
      assert NameOf(j.p, tid) == n;
    }
  }

  lemma AllDelivered(p: P.Pipe, tid: nat)
    requires P.Sound(p) && p.stage == P.AllDone && tid < |p.objects|
    ensures tid in p.h.delivered
  {
    assert p.h.log == p.objects;
  }
}
