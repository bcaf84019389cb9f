/** Data survival: whatever fails, and however many movers run at once, moving never loses the object. */
module Survival {
  import opened Prelude
  import opened Store
  import opened MoverMachine
  import opened Crowd
  import opened Demotion
  import opened MoveCorrect

  /** Some pool holds a full object with data `d`. */
  predicate Survives(s: Slots, d: Data) {
    || (s.cache.Full? && s.cache.obj.data == d)
    || (s.storage.Some? && s.storage.value.data == d)
    || (s.archive.Some? && s.archive.value.data == d)
  }

  /** Every full object is a copy of `d`, except the unlabelled dummy of a lateral move. */
  predicate AllCopies(s: Slots, d: Data) {
    && (s.cache.Full? ==> s.cache.obj.data == d || s.cache.obj.tag == Unset)
    && (s.storage.Some? ==> s.storage.value.data == d)
    && (s.archive.Some? ==> s.archive.value.data == d)
  }

  predicate Outside(pc: Pc) {
    pc.Locking? || pc.Locating? || Ended(pc)
  }

  predicate AtDummy(pc: Pc) {
    pc.LateralDummy? || pc.LateralRedirect?
  }

  /** What a mover may be about to do once the object sits in pool `x` under the other pool's label:
      it looks for the object in the wrong pool. */
  predicate Misled(pc: Pc, x: Lower) {
    match pc
    case DropStub(from) => from == Other(x)
    case Promote(from) => from == Other(x)
    case LateralDropStub(from, to) => from == Other(x) && to == x
    case LateralCopy(from, to) => from == Other(x) && to == x
    case LateralDummy(to) => to == x
    case LateralRedirect(to) => to == x
    case Unlocking(_) => true
    case _ => Outside(pc)
  }

  predicate StrandedSlots(s: Slots, x: Lower) {
    && Backing(s, x).Some? && Backing(s, x).value.tag == TagOf(Other(x))
    && Backing(s, Other(x)) == None
    && (s.cache.Full? ==> s.cache.obj.tag == Unset)
    && (s.cache.Stub? ==> s.cache.target == x)
  }

  /** A lateral move has carried the object to `x` without relabelling it. */
  predicate Stranded(w: World, x: Lower) {
    && StrandedSlots(w.slots, x)
    && (forall a :: a in w.clients ==> Misled(w.clients[a].pc, x))
    && (forall a :: a in w.clients && w.clients[a].pc.LateralDummy? ==> w.slots.cache == NoEntry)
    && (forall a :: a in w.clients && w.clients[a].pc.LateralRedirect? ==> w.slots.cache.Full?)
    && (forall a, b :: a in w.clients && b in w.clients && a != b && AtDummy(w.clients[a].pc) ==>
          Outside(w.clients[b].pc))
  }

  predicate Safe(w: World, d: Data) {
    AllCopies(w.slots, d) && (Ordered(w, false) || exists x :: Stranded(w, x))
  }

  lemma StrandedStep(s: Slots, tier: Tier, pc: Pc, fault: int, jump: nat, x: Lower)
    requires StrandedSlots(s, x) && Misled(pc, x)
    requires pc.LateralDummy? ==> s.cache == NoEntry
    requires pc.LateralRedirect? ==> s.cache.Full?
    ensures var p := Step(MoveCall(tier), pc, s, fault, jump);
            && StrandedSlots(p.slots, x) && Misled(p.pc, x)
            && (p.pc.LateralDummy? ==> p.slots.cache == NoEntry)
            && (p.pc.LateralRedirect? ==> p.slots.cache.Full?)
            && (AtDummy(p.pc) ==> AtDummy(pc))
  {
    if Outside(pc) || pc.Unlocking? {
      OutsiderStrays(s, tier, pc, fault, jump, x);
    }
  }

  lemma OutsiderStrays(s: Slots, tier: Tier, pc: Pc, fault: int, jump: nat, x: Lower)
    requires StrandedSlots(s, x) && (Outside(pc) || pc.Unlocking?)
    ensures var p := Step(MoveCall(tier), pc, s, fault, jump);
            StrandedSlots(p.slots, x) && Misled(p.pc, x) && !AtDummy(p.pc)
  {
    if pc.Locating? && Visible(s).Some? {
      assert Visible(s).value.tag in {Unset, TagOf(Other(x))};
      assert s.cache.Full? ==> Visible(s).value.tag == Unset;
    }
  }

  lemma OutsiderStep(s: Slots, tier: Tier, pc: Pc, fault: int, jump: nat, x: Lower)
    requires StrandedSlots(s, x) && Outside(pc)
    ensures var p := Step(MoveCall(tier), pc, s, fault, jump);
            && (p.slots.cache == s.cache || (p.slots.cache.Full? && s.cache.Full?))
            && (!Outside(p.pc) ==> s.cache.Stub?)
  {
  }

  lemma StrandedKept(w: World, who: nat, fault: int, jump: nat, x: Lower)
    requires Stranded(w, x) && who in w.clients
    ensures Stranded(Next(w, Act(who, fault, jump)), x)
  {
    var c := w.clients[who];
    var v := Next(w, Act(who, fault, jump));
    StrandedStep(w.slots, c.tier, c.pc, fault, jump, x);
    assert forall a :: a in w.clients && a != who ==> v.clients[a] == w.clients[a];
    if !AtDummy(c.pc) && Outside(c.pc) {
      OutsiderStep(w.slots, c.tier, c.pc, fault, jump, x);
    }
    if !AtDummy(c.pc) {
      forall a | a in w.clients && a != who && AtDummy(w.clients[a].pc)
        ensures Outside(v.clients[who].pc) && v.slots.cache.Full? == w.slots.cache.Full?
        ensures w.slots.cache == NoEntry ==> v.slots.cache == NoEntry
      {
        assert Outside(c.pc);
        assert !w.slots.cache.Stub?;
      }
    }
  }

  lemma LateralStrands(w: World, who: nat, jump: nat)
    requires Ordered(w, false) && Strands(w, Act(who, 0, jump))
    ensures Stranded(Next(w, Act(who, 0, jump)), w.clients[who].pc.to)
  {
    var c := w.clients[who];
    var v := Next(w, Act(who, 0, jump));
    assert Possesses(w.slots, c.tier, c.pc, false);
    assert v.clients[who].pc == LateralDummy(c.pc.to);
    forall a | a in w.clients && a != who
      ensures v.clients[a] == w.clients[a] && (w.clients[a].pc.Locking? || Ended(w.clients[a].pc))
    {
      assert !Critical(w.clients[a].pc);
    }
  }

  lemma CopiesKept(s: Slots, tier: Tier, pc: Pc, fault: int, jump: nat, d: Data)
    requires AllCopies(s, d)
    requires
      || (Critical(pc) && Possesses(s, tier, pc, false))
      || Outside(pc)
      || exists x :: StrandedSlots(s, x) && Misled(pc, x) && (pc.LateralDummy? ==> s.cache == NoEntry)
    ensures AllCopies(Step(MoveCall(tier), pc, s, fault, jump).slots, d)
  {
  }

  lemma OrderedStaysSafe(w: World, who: nat, fault: int, jump: nat, d: Data)
    requires AllCopies(w.slots, d) && Ordered(w, false) && who in w.clients
    ensures Safe(Next(w, Act(who, fault, jump)), d)
  {
    var c := w.clients[who];
    assert Critical(c.pc) ==> Possesses(w.slots, c.tier, c.pc, false);
    CopiesKept(w.slots, c.tier, c.pc, fault, jump, d);
    if Strands(w, Act(who, fault, jump)) {
      LateralStrands(w, who, jump);
    } else {
      OrderedKept(w, Act(who, fault, jump), false);
    }
  }

  lemma StrandedStaysSafe(w: World, who: nat, fault: int, jump: nat, d: Data, x: Lower)
    requires AllCopies(w.slots, d) && Stranded(w, x) && who in w.clients
    ensures Safe(Next(w, Act(who, fault, jump)), d)
  {
    CopiesKept(w.slots, w.clients[who].tier, w.clients[who].pc, fault, jump, d);
    StrandedKept(w, who, fault, jump, x);
  }

  lemma StrandedJoined(w: World, e: Event, x: Lower)
    requires Stranded(w, x) && (e.Begin? || (e.Act? && e.who !in w.clients))
    ensures Stranded(Next(w, e), x) && Next(w, e).slots == w.slots
  {
    var v := Next(w, e);
    assert forall a :: a in v.clients ==> (a in w.clients && v.clients[a] == w.clients[a]) || v.clients[a].pc == Locking;
  }

  lemma SafeKept(w: World, e: Event, d: Data)
    requires Safe(w, d) && !e.Write?
    ensures Safe(Next(w, e), d)
  {
    if Ordered(w, false) {
      if e.Act? && e.who in w.clients {
        OrderedStaysSafe(w, e.who, e.fault, e.jump, d);
      } else {
        OrderedKept(w, e, false);
      }
    } else {
      var x :| Stranded(w, x);
      if e.Act? && e.who in w.clients {
        StrandedStaysSafe(w, e.who, e.fault, e.jump, d, x);
      } else {
        StrandedJoined(w, e, x);
      }
    }
  }

  lemma SafeSurvives(w: World, d: Data)
    requires Safe(w, d)
    ensures Survives(w.slots, d)
  {
    if Ordered(w, false) {
      if a :| a in w.clients && Critical(w.clients[a].pc) {
        assert Possesses(w.slots, w.clients[a].tier, w.clients[a].pc, false);
      }
    }
  }

  lemma {:induction false} RunIsSafe(w: World, events: seq<Event>, d: Data)
    requires Safe(w, d) && forall e :: e in events ==> !e.Write?
    ensures Safe(Trail(w, events), d)
    decreases |events|
  {
    if events != [] {
      SafeKept(w, events[0], d);
      RunIsSafe(Next(w, events[0]), events[1..], d);
    }
  }

  /** After an object with data `d` has been created in any tier, no run of any number of concurrent
      movers to any tiers, lateral moves included, loses it, even if any of their store operations fail
      and even if some of them stop halfway: at every point some pool holds a full object with data `d`. */
  lemma DataSurvives(s: Slots, home: Tier, d: Data, events: seq<Event>)
    requires Placed(s, home, d)
    requires forall e :: e in events ==> !e.Write?
    ensures Survives(Trail(World(s, map[]), events).slots, d)
  {
    var w := World(s, map[]);
    assert Ordered(w, false);
    RunIsSafe(w, events, d);
    SafeSurvives(Trail(w, events), d);
  }

  /** The same from the `Create` on. */
  lemma CreatedDataSurvives(home: Tier, d: Data, script: seq<Tick>, events: seq<Event>)
    requires Quiet(script) && |script| >= 3
    requires forall e :: e in events ==> !e.Write?
    ensures var created := Exec(CreateCall(home, d), Start(CreateCall(home, d)), EMPTY, script);
            created.pc == Stopped(FallOut(0)) && Survives(Trail(World(created.slots, map[]), events).slots, d)
  {
    CreatePlaces(home, d, script);
    DataSurvives(Exec(CreateCall(home, d), Start(CreateCall(home, d)), EMPTY, script).slots, home, d, events);
  }
}
