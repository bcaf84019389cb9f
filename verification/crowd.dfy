/** Any number of movers and plain writers on one object name, one store operation at a time.

    A task that the watcher posts again is one more mover here, so re-execution is covered.
 */
module Crowd {
  import opened Prelude
  import opened Store
  import opened MoverMachine

  datatype Client = Client(tier: Tier, pc: Pc)

  datatype World = World(slots: Slots, clients: map<nat, Client>)

  datatype Event =
    | Begin(who: nat, tier: Tier)
    | Act(who: nat, fault: int, jump: nat)
    | Write(data: Data, jump: nat)

  function Next(w: World, e: Event): World {
    match e
    case Begin(who, tier) =>
      if who in w.clients then w else w.(clients := w.clients[who := Client(tier, Locking)])
    case Act(who, fault, jump) =>
      if who !in w.clients then w
      else
        var c := w.clients[who];
        var p := Step(MoveCall(c.tier), c.pc, w.slots, fault, jump);
        World(p.slots, w.clients[who := c.(pc := p.pc)])
    case Write(d, jump) => w.(slots := WriteThrough(w.slots, d, None, jump))
  }

  function Trail(w: World, events: seq<Event>): World
    decreases |events|
  {
    if events == [] then w else Trail(Next(w, events[0]), events[1..])
  }

  /** Between a successful `Lock` and the end of the matching `Unlock`. */
  predicate Critical(pc: Pc) {
    !pc.Locking? && !Ended(pc)
  }

  // ---------------------------------------------------------------- the lock attribute

  /** `Lock` on any state: it is taken exactly when there is an object whose lock is not "1", a missing
      attribute included; it waits exactly when the lock is "1", and dies exactly when there is no object. */
  lemma LockTakesIff(s: Slots, tier: Tier, jump: nat)
    ensures var p := Step(MoveCall(tier), Locking, s, 0, jump);
            match Visible(s)
            case None => p == Point(Aborted, s)
            case Some(o) =>
              if o.lock == Held then p == Point(Locking, s)
              else p.pc == Locating && Visible(p.slots) == Some(o.(lock := Held, version := o.version + 1 + jump))
  {
  }

  /** `Unlock` on any state: it ends the call exactly when there is an object whose lock is "1", and dies
      and changes nothing when the lock is "0", when it was never set, and when there is no object. */
  lemma UnlockEndsIff(s: Slots, tier: Tier, exit: Exit, jump: nat)
    ensures var p := Step(MoveCall(tier), Unlocking(exit), s, 0, jump);
            match Visible(s)
            case None => p == Point(Aborted, s)
            case Some(o) =>
              if o.lock != Held then p == Point(Aborted, s)
              else p.pc == Stopped(exit) && Visible(p.slots) == Some(o.(lock := Released, version := o.version + 1 + jump))
  {
  }

  // ---------------------------------------------------------------- well-placed objects

  /** The label that a reader sees is "fast" or names the pool that the redirect points to. */
  predicate Legible(s: Slots) {
    && Visible(s).Some?
    && (Visible(s).value.tag == SaysFast || (s.cache.Stub? && Visible(s).value.tag == TagOf(s.cache.target)))
  }

  predicate LegibleAndHeld(s: Slots) {
    Legible(s) && Visible(s).value.lock == Held
  }

  predicate HeldIn(s: Slots, t: Lower, tag: Tag) {
    Backing(s, t).Some? && Backing(s, t).value.lock == Held && Backing(s, t).value.tag == tag
  }

  predicate Anchored(s: Slots) {
    s.storage.Some? || s.archive.Some?
  }

  /** What the only client between `Lock` and `Unlock` can rely on at each of its operations.
      In a `clean` run no operation fails without a cause in the store. */
  predicate Possesses(s: Slots, tier: Tier, pc: Pc, clean: bool) {
    match pc
    case Locating => LegibleAndHeld(s)
    case DropStub(from) => s.cache.Stub? && s.cache.target == from && HeldIn(s, from, TagOf(from))
    case Promote(from) => s.cache == NoEntry && HeldIn(s, from, TagOf(from))
    case DropSource(from) => s.cache.Full? && LegibleAndHeld(s) && Backing(s, from).Some?
    case Demote(to) => LegibleAndHeld(s) && Visible(s).value.tag == SaysFast
    case Install(to, _) => LegibleAndHeld(s) && Visible(s).value.tag == SaysFast && HeldIn(s, to, SaysFast)
    case LateralDropStub(from, to) =>
      s.cache.Stub? && s.cache.target == from && to == Other(from) && HeldIn(s, from, TagOf(from))
    case LateralCopy(from, to) => s.cache == NoEntry && to == Other(from) && HeldIn(s, from, TagOf(from))
    case LateralDropSource(from, to) =>
      s.cache == NoEntry && to == Other(from) && HeldIn(s, from, TagOf(from)) && HeldIn(s, to, TagOf(from))
    case Unlocking(_) => LegibleAndHeld(s) || (!clean && s.cache == NoEntry && Anchored(s))
    case _ => false
  }

  /** The name while nobody is between `Lock` and `Unlock`. */
  predicate AtRest(s: Slots, clean: bool) {
    || (Legible(s) && (clean ==> Visible(s).value.lock != Held))
    || (!clean && s.cache == NoEntry && Anchored(s))
  }

  predicate SoleHolder(w: World) {
    forall a, b :: a in w.clients && b in w.clients && Critical(w.clients[a].pc) && Critical(w.clients[b].pc) ==> a == b
  }

  predicate Ordered(w: World, clean: bool) {
    && SoleHolder(w)
    && (forall a :: a in w.clients && Critical(w.clients[a].pc) ==>
          Possesses(w.slots, w.clients[a].tier, w.clients[a].pc, clean))
    && ((forall a :: a in w.clients ==> !Critical(w.clients[a].pc)) ==> AtRest(w.slots, clean))
  }

  /** The step that an ordered world does not survive: a lateral move has removed its source. */
  predicate Strands(w: World, e: Event) {
    e.Act? && e.who in w.clients && w.clients[e.who].pc.LateralDropSource? && e.fault == 0
  }

  /** A plain write finds the name in the cache pool. */
  predicate Finds(w: World, e: Event) {
    e.Write? ==> w.slots.cache != NoEntry
  }

  /** A plain write that finds no entry although some mover is between `Lock` and `Unlock`. */
  predicate Leaks(w: World, e: Event) {
    e.Write? && w.slots.cache == NoEntry && exists a :: a in w.clients && Critical(w.clients[a].pc)
  }

  /** What a plain write makes of a name that is lost from the cache pool and that nobody has locked: an
      object without a label, on which every mover dies with the lock taken. */
  predicate Blank(w: World) {
    && w.slots.cache.Full? && w.slots.cache.obj.tag == Unset
    && SoleHolder(w)
    && (forall a :: a in w.clients && Critical(w.clients[a].pc) ==>
          w.clients[a].pc == Locating && w.slots.cache.obj.lock == Held)
  }

  /** A lateral move has removed its source, and its dummy object is still to come. */
  predicate Adrift(w: World) {
    && w.slots.cache == NoEntry && Anchored(w.slots)
    && SoleHolder(w)
    && (exists a :: a in w.clients && Critical(w.clients[a].pc))
    && (forall a :: a in w.clients && Critical(w.clients[a].pc) ==> w.clients[a].pc.LateralDummy?)
  }

  /** A lateral move puts its dummy object, which carries no lock, in the cache pool. */
  predicate Exposes(w: World, e: Event) {
    e.Act? && e.who in w.clients && w.clients[e.who].pc.LateralDummy? && e.fault == 0
  }

  predicate Steady(w: World, clean: bool) {
    Ordered(w, clean) || Adrift(w) || (!clean && Blank(w))
  }

  lemma HolderSteps(s: Slots, tier: Tier, pc: Pc, fault: int, jump: nat, clean: bool)
    requires Critical(pc) && Possesses(s, tier, pc, clean)
    requires clean ==> fault == 0
    requires pc.LateralDropSource? ==> fault != 0
    ensures var p := Step(MoveCall(tier), pc, s, fault, jump);
            if Critical(p.pc) then Possesses(p.slots, tier, p.pc, clean) else AtRest(p.slots, clean)
  {
  }

  lemma OthersAreShutOut(s: Slots, tier: Tier, pc: Pc, other: Tier, fault: int, jump: nat, clean: bool)
    requires Critical(pc) && Possesses(s, tier, pc, clean)
    ensures var p := Step(MoveCall(other), Locking, s, fault, jump); !Critical(p.pc) && p.slots == s
  {
  }

  lemma WriteKeepsOrder(w: World, d: Data, jump: nat, clean: bool)
    requires Ordered(w, clean) && w.slots.cache != NoEntry
    ensures Ordered(Next(w, Write(d, jump)), clean)
  {
    var v := Next(w, Write(d, jump));
    assert v.clients == w.clients;
    forall a | a in w.clients && Critical(w.clients[a].pc)
      ensures Possesses(v.slots, w.clients[a].tier, w.clients[a].pc, clean)
    {
      WriteKeepsPossession(w.slots, w.clients[a].tier, w.clients[a].pc, d, jump, clean);
    }
  }

  lemma WriteKeepsPossession(s: Slots, tier: Tier, pc: Pc, d: Data, jump: nat, clean: bool)
    requires Critical(pc) && Possesses(s, tier, pc, clean) && s.cache != NoEntry
    ensures Possesses(WriteThrough(s, d, None, jump), tier, pc, clean)
  {
  }

  lemma HolderKeepsOrder(w: World, who: nat, fault: int, jump: nat, clean: bool)
    requires Ordered(w, clean) && !Strands(w, Act(who, fault, jump))
    requires who in w.clients && Critical(w.clients[who].pc)
    requires clean ==> fault == 0
    ensures Ordered(Next(w, Act(who, fault, jump)), clean)
  {
    var c := w.clients[who];
    var v := Next(w, Act(who, fault, jump));
    HolderSteps(w.slots, c.tier, c.pc, fault, jump, clean);
    assert forall a :: a in w.clients && a != who ==> v.clients[a] == w.clients[a] && !Critical(w.clients[a].pc);
    assert v.clients[who].tier == c.tier;
    assert Critical(v.clients[who].pc) ==> Possesses(v.slots, c.tier, v.clients[who].pc, clean);
  }

  lemma LockerKeepsOrder(w: World, who: nat, fault: int, jump: nat, clean: bool)
    requires Ordered(w, clean)
    requires who in w.clients && w.clients[who].pc.Locking?
    requires clean ==> fault == 0
    ensures Ordered(Next(w, Act(who, fault, jump)), clean)
  {
    var c := w.clients[who];
    var v := Next(w, Act(who, fault, jump));
    assert forall a :: a in w.clients && a != who ==> v.clients[a] == w.clients[a];
    if h :| h in w.clients && Critical(w.clients[h].pc) {
      OthersAreShutOut(w.slots, w.clients[h].tier, w.clients[h].pc, c.tier, fault, jump, clean);
      assert v.slots == w.slots && v.clients[h] == w.clients[h];
    } else {
      LockFromRest(w.slots, c.tier, fault, jump, clean);
      if Critical(v.clients[who].pc) {
        assert forall a :: a in v.clients && Critical(v.clients[a].pc) ==> a == who;
      } else {
        assert AtRest(v.slots, clean);
      }
    }
  }

  lemma LockFromRest(s: Slots, tier: Tier, fault: int, jump: nat, clean: bool)
    requires AtRest(s, clean) && (clean ==> fault == 0)
    ensures var p := Step(MoveCall(tier), Locking, s, fault, jump);
            if Critical(p.pc) then Possesses(p.slots, tier, p.pc, clean) else AtRest(p.slots, clean)
  {
  }

  lemma OrderedKept(w: World, e: Event, clean: bool)
    requires Ordered(w, clean) && Finds(w, e) && !Strands(w, e)
    requires clean && e.Act? ==> e.fault == 0
    ensures Ordered(Next(w, e), clean)
  {
    match e
    case Begin(who, tier) =>
      var v := Next(w, e);
      assert forall a :: a in v.clients && Critical(v.clients[a].pc) ==> a in w.clients && v.clients[a] == w.clients[a];
      assert forall a :: a in w.clients ==> a in v.clients && v.clients[a] == w.clients[a];
    case Write(d, jump) => WriteKeepsOrder(w, d, jump, clean);
    case Act(who, fault, jump) =>
      if who in w.clients {
        if Critical(w.clients[who].pc) {
          HolderKeepsOrder(w, who, fault, jump, clean);
        } else if w.clients[who].pc.Locking? {
          LockerKeepsOrder(w, who, fault, jump, clean);
        } else {
          assert Next(w, e).clients == w.clients;
        }
      }
  }

  // ---------------------------------------------------------------- whole runs

  lemma BlankKept(w: World, e: Event)
    requires Blank(w)
    ensures Blank(Next(w, e))
  {
  }

  lemma AdriftKept(w: World, e: Event, clean: bool)
    requires Adrift(w) && !Leaks(w, e) && !Exposes(w, e)
    requires clean && e.Act? ==> e.fault == 0
    ensures Adrift(Next(w, e)) || (!clean && Ordered(Next(w, e), clean))
  {
    var v := Next(w, e);
    var h :| h in w.clients && Critical(w.clients[h].pc);
    if e.Act? && e.who == h {
      assert forall a :: a in w.clients && a != h ==> v.clients[a] == w.clients[a];
      assert !Critical(v.clients[h].pc);
    } else {
      assert v.clients[h] == w.clients[h];
    }
  }

  lemma StrandedIsAdrift(w: World, e: Event, clean: bool)
    requires Ordered(w, clean) && Strands(w, e)
    ensures Adrift(Next(w, e))
  {
    var c := w.clients[e.who];
    assert Possesses(w.slots, c.tier, c.pc, clean);
    assert Next(w, e).clients[e.who].pc.LateralDummy?;
  }

  lemma SteadyKept(w: World, e: Event, clean: bool)
    requires Steady(w, clean) && !Leaks(w, e) && !Exposes(w, e)
    requires clean && e.Act? ==> e.fault == 0
    ensures Steady(Next(w, e), clean)
  {
    if Ordered(w, clean) {
      if Strands(w, e) {
        StrandedIsAdrift(w, e, clean);
      } else if Finds(w, e) {
        OrderedKept(w, e, clean);
      } else {
        assert AtRest(w.slots, clean);
      }
    } else if Adrift(w) {
      AdriftKept(w, e, clean);
    } else {
      BlankKept(w, e);
    }
  }

  /** No write of the run finds the name gone while somebody holds its lock, and no lateral move gets as
      far as its dummy object. */
  predicate Orderly(w: World, events: seq<Event>)
    decreases |events|
  {
    events != [] ==> !Leaks(w, events[0]) && !Exposes(w, events[0]) && Orderly(Next(w, events[0]), events[1..])
  }

  predicate FaultFree(events: seq<Event>) {
    forall e :: e in events && e.Act? ==> e.fault == 0
  }

  lemma {:induction false} RunIsSteady(w: World, events: seq<Event>, clean: bool)
    requires Steady(w, clean) && Orderly(w, events) && (clean ==> FaultFree(events))
    ensures Steady(Trail(w, events), clean)
    decreases |events|
  {
    if events != [] {
      SteadyKept(w, events[0], clean);
      RunIsSteady(Next(w, events[0]), events[1..], clean);
    }
  }

  predicate Unlocked(s: Slots) {
    Visible(s).Some? && Visible(s).value.lock != Held
  }

  /** Mutual exclusion.  Although the lock attribute travels with the object from pool to pool, at most
      one mover is between `Lock` and `Unlock`, and as long as the name is in the cache pool its lock is
      set.  In a fault-free run the lock is set exactly while somebody holds it, and the holder's next
      operation never trips an assertion. */
  lemma MutualExclusion(s: Slots, events: seq<Event>, clean: bool)
    requires Legible(s) && Unlocked(s)
    requires Orderly(World(s, map[]), events)
    requires clean ==> FaultFree(events)
    ensures var w := Trail(World(s, map[]), events);
            && SoleHolder(w)
            && (forall a :: a in w.clients && Critical(w.clients[a].pc) && w.slots.cache != NoEntry ==>
                  Visible(w.slots).Some? && Visible(w.slots).value.lock == Held)
    ensures clean ==>
      var w := Trail(World(s, map[]), events);
      && (Visible(w.slots).Some? && Visible(w.slots).value.lock == Held ==>
            exists a :: a in w.clients && Critical(w.clients[a].pc))
      && (forall a, jump :: a in w.clients && Critical(w.clients[a].pc) && jump >= 0 ==>
            Next(w, Act(a, 0, jump)).clients[a].pc != Aborted)
  {
    var w0 := World(s, map[]);
    RunIsSteady(w0, events, clean);
    var w := Trail(w0, events);
    if clean {
      forall a, jump: nat | a in w.clients && Critical(w.clients[a].pc)
        ensures Next(w, Act(a, 0, jump)).clients[a].pc != Aborted
      {
        HolderGoesOn(w.slots, w.clients[a].tier, w.clients[a].pc, jump);
      }
    }
  }

  lemma HolderGoesOn(s: Slots, tier: Tier, pc: Pc, jump: nat)
    requires (Critical(pc) && Possesses(s, tier, pc, true)) || pc.LateralDummy?
    ensures Step(MoveCall(tier), pc, s, 0, jump).pc != Aborted
  {
  }

  // ---------------------------------------------------------------- runs that are known to be orderly

  /** `o` is the only full object of the name, it is in the pool of `t`, and there is a redirect to it
      exactly when that is not the cache pool. */
  predicate Resides(s: Slots, t: Tier, o: Obj) {
    match t
    case Fast => s.cache == Full(o) && !Anchored(s)
    case _ =>
      s.cache.Stub? && s.cache.target == t && Backing(s, t) == Some(o) && Backing(s, Other(t)) == None
  }

  /** One full copy of `d`, in the pool of `t`, truthfully labelled; a redirect exactly when `t` is not FAST. */
  predicate Placed(s: Slots, t: Tier, d: Data) {
    && Visible(s).Some? && Visible(s).value.data == d && Visible(s).value.tag == TagOf(t)
    && Resides(s, t, Visible(s).value)
  }

  /** Moves that never take the lateral branch from an object created in `home`. */
  predicate Suits(home: Tier, tier: Tier) {
    home == Fast || tier == Fast || tier == home
  }

  predicate AllSuit(home: Tier, events: seq<Event>) {
    forall e :: e in events && e.Begin? ==> Suits(home, e.tier)
  }

  predicate NoneLeaks(w: World, events: seq<Event>)
    decreases |events|
  {
    events != [] ==> !Leaks(w, events[0]) && NoneLeaks(Next(w, events[0]), events[1..])
  }

  predicate Lateral(pc: Pc) {
    pc.LateralDropStub? || pc.LateralCopy? || pc.LateralDropSource? || pc.LateralDummy? || pc.LateralRedirect?
  }

  predicate NoLateral(w: World, home: Tier) {
    && (forall a :: a in w.clients ==> Suits(home, w.clients[a].tier) && !Lateral(w.clients[a].pc))
    && (Visible(w.slots).Some? ==> Visible(w.slots).value.tag in {SaysFast, TagOf(home), Unset})
  }

  lemma NoLateralKept(w: World, e: Event, home: Tier)
    requires Steady(w, false) && NoLateral(w, home)
    requires e.Begin? ==> Suits(home, e.tier)
    ensures NoLateral(Next(w, e), home)
  {
    match e
    case Begin(_, _) =>
    case Write(_, _) =>
      if w.slots.cache != NoEntry {
        EntryIsVisible(w, false);
      }
    case Act(who, fault, jump) =>
      if who in w.clients {
        var c := w.clients[who];
        if Critical(c.pc) && Ordered(w, false) {
          HolderStaysOffLateral(w.slots, c.tier, c.pc, fault, jump, home);
        }
      }
  }

  /** A redirect in the cache pool never dangles. */
  lemma EntryIsVisible(w: World, clean: bool)
    requires Steady(w, clean) && w.slots.cache != NoEntry
    ensures Visible(w.slots).Some?
    ensures Ordered(w, clean) ==> Legible(w.slots)
  {
    if a :| a in w.clients && Critical(w.clients[a].pc) && Ordered(w, clean) {
      assert Possesses(w.slots, w.clients[a].tier, w.clients[a].pc, clean);
    }
  }

  lemma HolderStaysOffLateral(s: Slots, tier: Tier, pc: Pc, fault: int, jump: nat, home: Tier)
    requires Critical(pc) && Possesses(s, tier, pc, false)
    requires !Lateral(pc) && Suits(home, tier)
    requires Visible(s).Some? ==> Visible(s).value.tag in {SaysFast, TagOf(home), Unset}
    ensures var p := Step(MoveCall(tier), pc, s, fault, jump);
            !Lateral(p.pc) && (Visible(p.slots).Some? ==> Visible(p.slots).value.tag in {SaysFast, TagOf(home), Unset})
  {
  }

  lemma {:induction false} SuitableRunIsOrderly(w: World, events: seq<Event>, home: Tier)
    requires Steady(w, false) && NoLateral(w, home) && NoneLeaks(w, events) && AllSuit(home, events)
    ensures Orderly(w, events)
    decreases |events|
  {
    if events != [] {
      SteadyKept(w, events[0], false);
      NoLateralKept(w, events[0], home);
      SuitableRunIsOrderly(Next(w, events[0]), events[1..], home);
    }
  }

  /** If every move goes to FAST or to the tier that the object was created in, or if that tier is FAST,
      no move is ever lateral, and only a write that leaks disturbs the order. */
  lemma SuitableMovesAreOrderly(s: Slots, home: Tier, d: Data, events: seq<Event>)
    requires Placed(s, home, d) && AllSuit(home, events) && NoneLeaks(World(s, map[]), events)
    ensures Orderly(World(s, map[]), events)
  {
    SuitableRunIsOrderly(World(s, map[]), events, home);
  }

  /** What a client between `Lock` and `Unlock` relies on, the last operations of a lateral move included. */
  predicate Works(s: Slots, tier: Tier, pc: Pc, clean: bool) {
    match pc
    case LateralDummy(to) => s.cache == NoEntry && HeldIn(s, to, TagOf(Other(to)))
    case LateralRedirect(to) => s.cache.Full? && HeldIn(s, to, TagOf(Other(to)))
    case Unlocking(_) =>
      || Possesses(s, tier, pc, clean)
      || (s.cache.Stub? && HeldIn(s, s.cache.target, TagOf(Other(s.cache.target))))
    case _ => Critical(pc) && Possesses(s, tier, pc, clean)
  }

  /** The dummy object of a lateral move is in the cache pool and nobody has locked it. */
  predicate Open(s: Slots, pc: Pc) {
    pc.LateralRedirect? && s.cache.Full? && s.cache.obj.lock != Held
  }

  /** The ways in for a second holder: a plain write while the first one has the name out of the cache
      pool creates an object that carries no lock, and so does a lateral move.  Another mover can take the
      lock after a write exactly when the write found no entry or the dummy object is open. */
  lemma WriteLeaksLockIff(s: Slots, tier: Tier, pc: Pc, d: Data, jump: nat, other: Tier, clean: bool)
    requires Works(s, tier, pc, clean)
    ensures Critical(Step(MoveCall(other), Locking, WriteThrough(s, d, None, jump), 0, jump).pc)
            <==> s.cache == NoEntry || Open(s, pc)
  {
  }

  /** A mover that asks for the lock while another one is between `Lock` and `Unlock` gets it exactly when
      there is an open dummy object, and dies exactly when there is no entry; otherwise it waits and
      changes nothing. */
  lemma WaiterDiesIff(s: Slots, tier: Tier, pc: Pc, jump: nat, other: Tier, clean: bool)
    requires Works(s, tier, pc, clean)
    ensures var p := Step(MoveCall(other), Locking, s, 0, jump);
            && p.pc == (if s.cache == NoEntry then Aborted else if Open(s, pc) then Locating else Locking)
            && (!Open(s, pc) ==> p.slots == s)
  {
  }

  /** The client's own operations keep it so from `Lock` to `Unlock`. */
  lemma WorkGoesOn(s: Slots, tier: Tier, pc: Pc, fault: int, jump: nat, clean: bool)
    requires Works(s, tier, pc, clean) && (clean ==> fault == 0)
    ensures var p := Step(MoveCall(tier), pc, s, fault, jump); Critical(p.pc) ==> Works(p.slots, tier, p.pc, clean)
  {
    if pc.LateralDummy? || pc.LateralRedirect? || (pc.LateralDropSource? && fault == 0) || pc.Unlocking? {
      LateWorkGoesOn(s, tier, pc, fault, jump, clean);
    } else {
      HolderSteps(s, tier, pc, fault, jump, clean);
      hide Possesses, Step;
    }
  }

  lemma LateWorkGoesOn(s: Slots, tier: Tier, pc: Pc, fault: int, jump: nat, clean: bool)
    requires Works(s, tier, pc, clean)
    requires pc.LateralDummy? || pc.LateralRedirect? || (pc.LateralDropSource? && fault == 0) || pc.Unlocking?
    ensures var p := Step(MoveCall(tier), pc, s, fault, jump); Critical(p.pc) ==> Works(p.slots, tier, p.pc, clean)
  {
  }

  lemma {:induction false} TrailThen(w: World, events: seq<Event>, e: Event)
    ensures Trail(w, events + [e]) == Next(Trail(w, events), e)
    decreases |events|
  {
    if events == [] {
      assert events + [e] == [e];
      assert [e][1..] == [];
    } else {
      assert (events + [e])[1..] == events[1..] + [e];
      TrailThen(Next(w, events[0]), events[1..], e);
    }
  }

  /** A promotion holds the lock of an object created in SLOW. */
  lemma PromotionBegun() returns (s: Slots, events: seq<Event>)
    ensures Placed(s, Slow, "v") && Unlocked(s) && AllSuit(Slow, events) && FaultFree(events)
    ensures Trail(World(s, map[]), events)
            == World(Slots(Stub(Slow, SaysSlow, 2), Some(Obj("v", SaysSlow, Held, 2)), None), map[0 := Client(Fast, Locating)])
  {
    s := Slots(Stub(Slow, SaysSlow, 2), Some(Obj("v", SaysSlow, NeverLocked, 1)), None);
    var w0 := World(s, map[]);
    events := [Begin(0, Fast)];
    assert Trail(w0, events) == World(s, map[0 := Client(Fast, Locking)]);
    TrailThen(w0, events, Act(0, 0, 0));
    events := events + [Act(0, 0, 0)];
  }

  /** The promotion has taken the name out of the cache pool. */
  lemma PromotionUnderWay() returns (s: Slots, events: seq<Event>)
    ensures Placed(s, Slow, "v") && Unlocked(s) && AllSuit(Slow, events) && FaultFree(events)
    ensures Trail(World(s, map[]), events)
            == World(Slots(NoEntry, Some(Obj("v", SaysSlow, Held, 2)), None), map[0 := Client(Fast, Promote(Slow))])
  {
    s, events := PromotionBegun();
    var w0 := World(s, map[]);
    TrailThen(w0, events, Act(0, 0, 0));
    events := events + [Act(0, 0, 0)];
    assert Trail(w0, events).clients == map[0 := Client(Fast, DropStub(Slow))];
    TrailThen(w0, events, Act(0, 0, 0));
    events := events + [Act(0, 0, 0)];
  }

  /** Two movers hold the lock at once after a write lands between the two halves of a promotion. */
  lemma TwoHoldersAfterWrite() returns (s: Slots, events: seq<Event>)
    ensures Placed(s, Slow, "v") && Unlocked(s) && AllSuit(Slow, events) && FaultFree(events)
    ensures !SoleHolder(Trail(World(s, map[]), events))
  {
    s, events := PromotionUnderWay();
    var w0 := World(s, map[]);
    var w := Trail(w0, events);
    TrailThen(w0, events, Begin(1, Fast));
    TrailThen(w0, events + [Begin(1, Fast)], Write("w", 0));
    TrailThen(w0, events + [Begin(1, Fast)] + [Write("w", 0)], Act(1, 0, 0));
    var v := Next(Next(Next(w, Begin(1, Fast)), Write("w", 0)), Act(1, 0, 0));
    assert Critical(v.clients[0].pc) && Critical(v.clients[1].pc);
    events := events + [Begin(1, Fast)] + [Write("w", 0)] + [Act(1, 0, 0)];
  }

  /** The step that gives the lock away: the dummy object of a lateral move.  Any other mover takes its lock
      while the lateral move is still at work. */
  lemma LateralMoveSharesLock(s: Slots, tier: Tier, from: Lower, to: Lower, other: Tier, jump: nat, clean: bool)
    requires Possesses(s, tier, LateralDropSource(from, to), clean)
    ensures
      var p := Step(MoveCall(tier), LateralDropSource(from, to), s, 0, jump);
      var q := Step(MoveCall(tier), p.pc, p.slots, 0, jump);
      Critical(q.pc) && Critical(Step(MoveCall(other), Locking, q.slots, 0, jump).pc)
  {
  }

  /** A lateral move whose dummy object cannot be created comes back with the lock still set on the only
      copy and no way to reach it: every later mover dies in `Lock`. */
  lemma FailedDummyKeepsLock(s: Slots, tier: Tier, from: Lower, to: Lower, fault: int, other: Tier, jump: nat, clean: bool)
    requires Possesses(s, tier, LateralDropSource(from, to), clean) && fault != 0
    ensures
      var p := Step(MoveCall(tier), LateralDropSource(from, to), s, 0, jump);
      var q := Step(MoveCall(tier), p.pc, p.slots, fault, jump);
      && q.pc == Stopped(FallOut(fault))
      && q.slots.cache == NoEntry && HeldIn(q.slots, to, TagOf(from)) && Backing(q.slots, from) == None
      && Step(MoveCall(other), Locking, q.slots, 0, jump).pc == Aborted
  {
  }
}
