/** What redirects are labelled: a law over all runs, with any movers, writers and faults. */
module Labels {
  import opened Prelude
  import opened Store
  import opened MoverMachine
  import opened Crowd
  import opened Survival

  /** A redirect has no label, or the one that goes with the pool that it points to. */
  predicate Named(s: Slots) {
    s.cache.Stub? ==> s.cache.stubTag == Unset || s.cache.stubTag == if s.cache.target == Slow then SaysStorage else SaysArchive
  }

  // ---------------------------------------------------------------- the stages of a run

  /** The cache pool has nothing but an object that a plain write made. */
  predicate Bare(s: Slots) {
    s.cache == NoEntry || (s.cache.Full? && s.cache.obj.tag == Unset)
  }

  /** A mover that can do nothing to an unlabelled object but lock and unlock it. */
  predicate Harmless(pc: Pc) {
    pc.Unlocking? || Outside(pc)
  }

  predicate Plain(o: Option<Obj>) {
    o.Some? ==> o.value.tag in {SaysFast, Unset}
  }

  /** A lateral move has carried the object to `x`; writers and any number of movers may be about. */
  predicate Astray(w: World, x: Lower) {
    && StrandedSlots(w.slots, x) && (w.slots.cache.Stub? ==> w.slots.cache.stubTag == Unset)
    && (forall a :: a in w.clients ==> Misled(w.clients[a].pc, x))
  }

  /** A plain write has come in the way of the first half of a lateral move of `h`. */
  predicate Hauling(w: World, h: nat, from: Lower) {
    var to := Other(from);
    && Bare(w.slots) && h in w.clients
    && Backing(w.slots, from).Some? && Backing(w.slots, from).value.tag == TagOf(from)
    && (w.clients[h].pc == LateralCopy(from, to)
        || (w.clients[h].pc == LateralDropSource(from, to)
            && Backing(w.slots, to).Some? && Backing(w.slots, to).value.tag == TagOf(from)))
    && (forall a :: a in w.clients && a != h ==> Harmless(w.clients[a].pc))
  }

  /** A plain write has come in the way of a promotion of `h`. */
  predicate Hoisting(w: World, h: nat) {
    && Bare(w.slots) && h in w.clients && w.clients[h].pc.Promote?
    && (forall a :: a in w.clients && a != h ==> Harmless(w.clients[a].pc))
  }

  /** What a client may be about to do in a settled world. */
  predicate Suited(s: Slots, pc: Pc) {
    Harmless(pc) || pc.Demote? || pc.DropSource? || (pc.Install? && Plain(Backing(s, pc.to)))
  }

  /** Nothing that a reader can see is labelled other than "fast", so no move is lateral any more. */
  predicate Settled(w: World) {
    && Named(w.slots) && Plain(Visible(w.slots))
    && (forall a :: a in w.clients ==> Suited(w.slots, w.clients[a].pc))
  }

  ghost predicate Staged(w: World) {
    || (Ordered(w, false) && Named(w.slots))
    || (exists x :: Astray(w, x))
    || (exists h, from :: Hauling(w, h, from))
    || (exists h :: Hoisting(w, h))
    || Settled(w)
  }

  // ---------------------------------------------------------------- one step

  lemma AstrayStep(s: Slots, tier: Tier, pc: Pc, fault: int, jump: nat, x: Lower)
    requires StrandedSlots(s, x) && (s.cache.Stub? ==> s.cache.stubTag == Unset) && Misled(pc, x)
    ensures var p := Step(MoveCall(tier), pc, s, fault, jump);
            StrandedSlots(p.slots, x) && (p.slots.cache.Stub? ==> p.slots.cache.stubTag == Unset) && Misled(p.pc, x)
  {
    if Outside(pc) || pc.Unlocking? {
      OutsiderStrays(s, tier, pc, fault, jump, x);
    }
  }

  lemma AstrayKept(w: World, e: Event, x: Lower)
    requires Astray(w, x)
    ensures Astray(Next(w, e), x)
  {
    if e.Act? && e.who in w.clients {
      AstrayStep(w.slots, w.clients[e.who].tier, w.clients[e.who].pc, e.fault, e.jump, x);
    }
  }

  lemma HarmlessStep(s: Slots, tier: Tier, pc: Pc, fault: int, jump: nat)
    requires Bare(s) && Harmless(pc)
    ensures var p := Step(MoveCall(tier), pc, s, fault, jump);
            Bare(p.slots) && Harmless(p.pc) && p.slots.storage == s.storage && p.slots.archive == s.archive
  {
  }

  lemma HaulerStep(s: Slots, tier: Tier, pc: Pc, fault: int, jump: nat, from: Lower)
    requires Bare(s) && Backing(s, from).Some? && Backing(s, from).value.tag == TagOf(from)
    requires pc == LateralCopy(from, Other(from))
             || (pc == LateralDropSource(from, Other(from))
                 && Backing(s, Other(from)).Some? && Backing(s, Other(from)).value.tag == TagOf(from))
    ensures var p := Step(MoveCall(tier), pc, s, fault, jump);
            p.slots.cache == s.cache
            && if p.pc == LateralDropSource(from, Other(from)) then
                 Backing(p.slots, from) == Backing(s, from)
                 && Backing(p.slots, Other(from)).Some? && Backing(p.slots, Other(from)).value.tag == TagOf(from)
               else if p.pc == LateralDummy(Other(from)) then StrandedSlots(p.slots, Other(from))
               else p.pc.Unlocking?
  {
  }

  lemma HaulingKept(w: World, e: Event, h: nat, from: Lower)
    requires Hauling(w, h, from)
    ensures Staged(Next(w, e))
  {
    var v := Next(w, e);
    if e.Act? && e.who in w.clients {
      var c := w.clients[e.who];
      if e.who == h {
        HaulerStep(w.slots, c.tier, c.pc, e.fault, e.jump, from);
        hide Step;
        assert forall a :: a in w.clients && a != h ==> v.clients[a] == w.clients[a];
        if v.clients[h].pc.LateralDummy? {
          assert Astray(v, Other(from));
        } else if v.clients[h].pc.LateralDropSource? {
          assert Hauling(v, h, from);
        } else {
          assert Settled(v);
        }
      } else {
        HarmlessStep(w.slots, c.tier, c.pc, e.fault, e.jump);
        hide Step;
        assert Hauling(v, h, from);
      }
    } else {
      assert Hauling(v, h, from);
    }
  }

  lemma HoistingKept(w: World, e: Event, h: nat)
    requires Hoisting(w, h)
    ensures Staged(Next(w, e))
  {
    var v := Next(w, e);
    if e.Act? && e.who in w.clients {
      var c := w.clients[e.who];
      if e.who == h {
        assert forall a :: a in w.clients && a != h ==> v.clients[a] == w.clients[a];
        assert Settled(v);
      } else {
        HarmlessStep(w.slots, c.tier, c.pc, e.fault, e.jump);
        hide Step;
        assert Hoisting(v, h);
      }
    } else {
      assert Hoisting(v, h);
    }
  }

  lemma SettledStep(s: Slots, tier: Tier, pc: Pc, fault: int, jump: nat)
    requires Named(s) && Plain(Visible(s)) && Suited(s, pc)
    ensures var p := Step(MoveCall(tier), pc, s, fault, jump);
            Named(p.slots) && Plain(Visible(p.slots)) && Suited(p.slots, p.pc)
  {
  }

  lemma SettledBacking(s: Slots, tier: Tier, pc: Pc, fault: int, jump: nat, t: Lower)
    requires Plain(Visible(s)) && Suited(s, pc) && Plain(Backing(s, t))
    ensures Plain(Backing(Step(MoveCall(tier), pc, s, fault, jump).slots, t))
  {
  }

  lemma SettledKept(w: World, e: Event)
    requires Settled(w)
    ensures Settled(Next(w, e))
  {
    var v := Next(w, e);
    if e.Act? && e.who in w.clients {
      var c := w.clients[e.who];
      SettledStep(w.slots, c.tier, c.pc, e.fault, e.jump);
      forall t: Lower | Plain(Backing(w.slots, t))
        ensures Plain(Backing(v.slots, t))
      {
        SettledBacking(w.slots, c.tier, c.pc, e.fault, e.jump, t);
      }
      hide Step;
    }
  }

  lemma HolderNames(s: Slots, tier: Tier, pc: Pc, fault: int, jump: nat)
    requires Named(s) && ((Critical(pc) && Possesses(s, tier, pc, false)) || Outside(pc))
    ensures Named(Step(MoveCall(tier), pc, s, fault, jump).slots)
  {
  }

  lemma ActStaysStaged(w: World, who: nat, fault: int, jump: nat)
    requires Ordered(w, false) && Named(w.slots) && who in w.clients
    ensures Staged(Next(w, Act(who, fault, jump)))
  {
    var c := w.clients[who];
    if Strands(w, Act(who, fault, jump)) {
      LateralStrands(w, who, jump);
      assert Possesses(w.slots, c.tier, c.pc, false);
      assert Astray(Next(w, Act(who, fault, jump)), c.pc.to);
    } else {
      assert Critical(c.pc) ==> Possesses(w.slots, c.tier, c.pc, false);
      HolderNames(w.slots, c.tier, c.pc, fault, jump);
      OrderedKept(w, Act(who, fault, jump), false);
    }
  }

  lemma WriteStaysStaged(w: World, d: Data, jump: nat)
    requires Ordered(w, false) && Named(w.slots)
    ensures Staged(Next(w, Write(d, jump)))
  {
    var v := Next(w, Write(d, jump));
    if w.slots.cache != NoEntry {
      OrderedKept(w, Write(d, jump), false);
    } else if h :| h in w.clients && Critical(w.clients[h].pc) {
      var pc := w.clients[h].pc;
      assert Possesses(w.slots, w.clients[h].tier, pc, false);
      assert forall a :: a in w.clients && a != h ==> !Critical(w.clients[a].pc);
      if pc.Promote? {
        assert Hoisting(v, h);
      } else if pc.Unlocking? {
        assert Settled(v);
      } else {
        assert Hauling(v, h, pc.from);
      }
    } else {
      assert Settled(v);
    }
  }

  lemma StagedKept(w: World, e: Event)
    requires Staged(w)
    ensures Staged(Next(w, e))
  {
    if Settled(w) {
      SettledKept(w, e);
    } else if x :| Astray(w, x) {
      AstrayKept(w, e, x);
    } else if h, from :| Hauling(w, h, from) {
      HaulingKept(w, e, h, from);
    } else if h :| Hoisting(w, h) {
      HoistingKept(w, e, h);
    } else {
      match e
      case Begin(_, _) => OrderedKept(w, e, false);
      case Write(d, jump) => WriteStaysStaged(w, d, jump);
      case Act(who, fault, jump) =>
        if who in w.clients {
          ActStaysStaged(w, who, fault, jump);
        }
    }
  }

  lemma StagedIsNamed(w: World)
    requires Staged(w)
    ensures Named(w.slots)
  {
  }

  lemma {:induction false} RunIsStaged(w: World, events: seq<Event>)
    requires Staged(w)
    ensures Staged(Trail(w, events))
    decreases |events|
  {
    if events != [] {
      StagedKept(w, events[0]);
      RunIsStaged(Next(w, events[0]), events[1..]);
    }
  }

  /** In every run of movers and writers, with any faults, lateral moves and leaked locks included: a
      redirect has no label, or "storage" if it points to the storage pool and "archive" if to the
      archive pool. */
  lemma RedirectsNameTheirPool(s: Slots, events: seq<Event>)
    requires Legible(s) && Named(s)
    ensures var t := Trail(World(s, map[]), events).slots;
            t.cache.Stub? && t.cache.stubTag != Unset ==>
              t.cache.stubTag == match t.cache.target case Slow => SaysStorage case Archive => SaysArchive
  {
    RunIsStaged(World(s, map[]), events);
    StagedIsNamed(Trail(World(s, map[]), events));
  }
}
