/** Any number of promotions of one object at once, as the watcher makes of one task that it posts again. */
module Promotions {
  import opened Prelude
  import opened Store
  import opened MoverMachine
  import opened Crowd

  /** A mover to FAST begins, or some mover's next operation does what it should. */
  predicate Climbs(e: Event) {
    match e
    case Begin(_, tier) => tier == Fast
    case Act(_, fault, _) => fault == 0
    case Write(_, _) => false
  }

  predicate AllClimb(events: seq<Event>) {
    forall e :: e in events ==> Climbs(e)
  }

  /** The object is where it was, and nobody has touched it but for the lock. */
  predicate Grounded(w: World, home: Lower, d: Data) {
    && Placed(w.slots, home, d)
    && (forall a :: a in w.clients ==> var pc := w.clients[a].pc; pc.Locking? || pc.Locating? || pc == DropStub(home))
  }

  /** One promotion has taken the name out of the cache pool.  Whoever asks for the lock now dies. */
  predicate Lifting(w: World, home: Lower, d: Data) {
    && w.slots.cache == NoEntry && Backing(w.slots, home).Some? && Backing(w.slots, home).value.data == d
    && Backing(w.slots, Other(home)) == None
    && (exists a :: a in w.clients && w.clients[a].pc == Promote(home))
    && (forall a :: a in w.clients ==> var pc := w.clients[a].pc; pc.Locking? || pc.Aborted? || pc == Promote(home))
  }

  /** It has copied the object, and the old copy is still there. */
  predicate Doubled(w: World, home: Lower, d: Data) {
    && w.slots.cache.Full? && w.slots.cache.obj.data == d && w.slots.cache.obj.tag == SaysFast
    && Backing(w.slots, Other(home)) == None
    && (exists a :: a in w.clients && w.clients[a].pc == DropSource(home))
    && (forall a :: a in w.clients ==> var pc := w.clients[a].pc; pc.Locking? || pc.Aborted? || pc == DropSource(home))
  }

  /** The object is in FAST, and all that is left to do is to find that out and to unlock. */
  predicate Risen(w: World, d: Data) {
    && Placed(w.slots, Fast, d)
    && (forall a :: a in w.clients ==>
          var pc := w.clients[a].pc;
          pc.Locking? || pc.Locating? || pc == Unlocking(FallOut(0)) || pc.Aborted? || pc == Stopped(FallOut(0)))
  }

  /** Where a crowd of promotions stands. */
  predicate Rising(w: World, home: Tier, d: Data) {
    && Ordered(w, true)
    && (forall a :: a in w.clients ==> w.clients[a].tier == Fast)
    && (Risen(w, d) || (home != Fast && (Grounded(w, home, d) || Lifting(w, home, d) || Doubled(w, home, d))))
  }

  lemma Joined(w: World, who: nat, home: Tier, d: Data)
    requires Rising(w, home, d)
    ensures Rising(Next(w, Begin(who, Fast)), home, d)
    ensures Risen(w, d) ==> Risen(Next(w, Begin(who, Fast)), d)
  {
    var v := Next(w, Begin(who, Fast));
    OrderedKept(w, Begin(who, Fast), true);
    hide Ordered, Placed;
    assert forall a :: a in w.clients ==> a in v.clients && v.clients[a] == w.clients[a];
  }

  lemma RisenKept(w: World, who: nat, jump: nat, d: Data)
    requires Ordered(w, true) && Risen(w, d) && who in w.clients && w.clients[who].tier == Fast
    ensures Risen(Next(w, Act(who, 0, jump)), d)
  {
    var c := w.clients[who];
    assert Critical(c.pc) ==> Possesses(w.slots, c.tier, c.pc, true);
  }

  lemma GroundedKept(w: World, who: nat, jump: nat, home: Lower, d: Data)
    requires Ordered(w, true) && Grounded(w, home, d) && who in w.clients && w.clients[who].tier == Fast
    ensures var v := Next(w, Act(who, 0, jump)); Grounded(v, home, d) || Lifting(v, home, d)
  {
    var c := w.clients[who];
    var v := Next(w, Act(who, 0, jump));
    assert Critical(c.pc) ==> Possesses(w.slots, c.tier, c.pc, true);
    if c.pc == DropStub(home) {
      assert v.clients[who].pc == Promote(home);
      assert forall a :: a in w.clients && a != who ==> v.clients[a] == w.clients[a] && !Critical(w.clients[a].pc);
    }
  }

  lemma LiftStep(s: Slots, home: Lower, jump: nat)
    requires s.cache == NoEntry && Backing(s, home).Some?
    ensures var p := Step(MoveCall(Fast), Promote(home), s, 0, jump);
            p == Point(DropSource(home), s.(cache := Full(Backing(s, home).value.(tag := SaysFast))))
  {
  }

  lemma OutsiderDies(s: Slots, pc: Pc, jump: nat)
    requires s.cache == NoEntry && (pc.Locking? || pc.Aborted?)
    ensures Step(MoveCall(Fast), pc, s, 0, jump) == Point(Aborted, s)
  {
  }

  lemma LiftingKept(w: World, who: nat, jump: nat, home: Lower, d: Data)
    requires SoleHolder(w) && Lifting(w, home, d) && who in w.clients && w.clients[who].tier == Fast
    ensures var v := Next(w, Act(who, 0, jump)); Lifting(v, home, d) || Doubled(v, home, d)
  {
    var v := Next(w, Act(who, 0, jump));
    var h :| h in w.clients && w.clients[h].pc == Promote(home);
    assert forall a :: a in w.clients && a != h ==> w.clients[a].pc.Locking? || w.clients[a].pc.Aborted?;
    if h == who {
      LiftStep(w.slots, home, jump);
      assert v.clients[h].pc == DropSource(home);
    } else {
      OutsiderDies(w.slots, w.clients[who].pc, jump);
      assert v.clients[h] == w.clients[h] && v.slots == w.slots;
    }
    hide Step;
  }

  lemma DoubledKept(w: World, who: nat, jump: nat, home: Lower, d: Data)
    requires Ordered(w, true) && Doubled(w, home, d) && who in w.clients && w.clients[who].tier == Fast
    ensures var v := Next(w, Act(who, 0, jump)); Doubled(v, home, d) || Risen(v, d)
  {
    var c := w.clients[who];
    var v := Next(w, Act(who, 0, jump));
    var h :| h in w.clients && w.clients[h].pc == DropSource(home);
    assert Possesses(w.slots, w.clients[h].tier, w.clients[h].pc, true);
    if h == who {
      assert v.clients[who].pc == Unlocking(FallOut(0));
      assert forall a :: a in w.clients && a != who ==> v.clients[a] == w.clients[a] && !Critical(w.clients[a].pc);
    } else {
      assert v.clients[h] == w.clients[h];
      assert c.pc != DropSource(home);
    }
  }

  lemma RisingKept(w: World, e: Event, home: Tier, d: Data)
    requires Rising(w, home, d) && Climbs(e)
    ensures Rising(Next(w, e), home, d) && (Risen(w, d) ==> Risen(Next(w, e), d))
  {
    match e
    case Begin(who, _) => Joined(w, who, home, d);
    case Act(who, _, jump) =>
      if who in w.clients {
        ActKeepsRising(w, who, jump, home, d);
      }
  }

  lemma ActKeepsRising(w: World, who: nat, jump: nat, home: Tier, d: Data)
    requires Rising(w, home, d) && who in w.clients
    ensures var v := Next(w, Act(who, 0, jump)); Rising(v, home, d) && (Risen(w, d) ==> Risen(v, d))
  {
    NoneStrand(w, who, jump, home, d);
    OrderedKept(w, Act(who, 0, jump), true);
    if Risen(w, d) {
      RisenKept(w, who, jump, d);
    } else if Grounded(w, home, d) {
      GroundedKept(w, who, jump, home, d);
    } else if Lifting(w, home, d) {
      LiftingKept(w, who, jump, home, d);
    } else {
      DoubledKept(w, who, jump, home, d);
    }
    hide Risen, Grounded, Lifting, Doubled, Ordered, Step;
  }

  lemma NoneStrand(w: World, who: nat, jump: nat, home: Tier, d: Data)
    requires Rising(w, home, d)
    ensures !Strands(w, Act(who, 0, jump))
  {
  }

  lemma {:induction false} RunRises(w: World, events: seq<Event>, home: Tier, d: Data)
    requires Rising(w, home, d) && AllClimb(events)
    ensures Rising(Trail(w, events), home, d)
    decreases |events|
  {
    if events != [] {
      RisingKept(w, events[0], home, d);
      RunRises(Next(w, events[0]), events[1..], home, d);
    }
  }

  lemma StartsRising(s: Slots, home: Tier, d: Data)
    requires Placed(s, home, d) && Unlocked(s)
    ensures Rising(World(s, map[]), home, d)
    ensures home == Fast ==> Risen(World(s, map[]), d)
  {
  }

  /** However many movers promote one object at once, some of them dying while they wait for the lock: when
      all have ended, and there was at least one, the object is in FAST, truthfully labelled, with its
      data, and unlocked, and nothing of it is left elsewhere; and whoever came back has reported 0. */
  lemma PromotionsEndInFast(s: Slots, home: Tier, d: Data, events: seq<Event>)
    requires Placed(s, home, d) && Unlocked(s) && AllClimb(events)
    ensures var w := Trail(World(s, map[]), events);
            && (w.clients != map[] && (forall a :: a in w.clients ==> Ended(w.clients[a].pc)) ==>
                  Placed(w.slots, Fast, d) && Unlocked(w.slots))
            && (forall a :: a in w.clients && w.clients[a].pc.Stopped? ==>
                  w.clients[a].pc == Stopped(FallOut(0)) && Placed(w.slots, Fast, d))
  {
    StartsRising(s, home, d);
    RunRises(World(s, map[]), events, home, d);
  }
}
