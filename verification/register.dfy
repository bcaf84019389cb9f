/** No lost update: with plain writers at work, a relocated object still behaves as one atomic register. */
module Register {
  import opened Prelude
  import opened Store
  import opened MoverMachine
  import opened Crowd
  import opened Demotion
  import opened MoveCorrect

  function LastWrite(d: Data, events: seq<Event>): Data
    decreases |events|
  {
    if events == [] then d
    else LastWrite(if events[0].Write? then events[0].data else d, events[1..])
  }

  /** The version check of a demotion passes although the object has been written since it was copied: the
      version asserted is that of the entry, not that of the object, or the `int` has made an old version
      look new.  (A redirect that already points to the pool in question changes nothing.) */
  predicate Mistaken(s: Slots, pc: Pc) {
    && pc.Install? && s.cache != NoEntry && !(s.cache.Stub? && s.cache.target == pc.to)
    && EntryVersion(s.cache) == ThroughInt(pc.copied)
    && Visible(s).Some? && Visible(s).value.version != pc.copied
  }

  predicate Mistakes(w: World, e: Event) {
    e.Act? && e.fault == 0 && e.who in w.clients && Mistaken(w.slots, w.clients[e.who].pc)
  }

  /** A plain write between the two halves of a promotion. */
  predicate Interrupts(w: World, e: Event) {
    e.Write? && exists a :: a in w.clients && w.clients[a].pc.Promote?
  }

  /** No write interrupts a promotion, no lateral move puts its dummy object in place, and no version check
      is mistaken. */
  predicate Disciplined(w: World, events: seq<Event>)
    decreases |events|
  {
    events != [] ==>
      !Interrupts(w, events[0]) && !Exposes(w, events[0]) && !Mistakes(w, events[0])
      && Disciplined(Next(w, events[0]), events[1..])
  }

  predicate CopyOf(s: Slots, t: Lower, d: Data) {
    Backing(s, t).Some? && Backing(s, t).value.data == d
  }

  /** A reader finds `reg`, or nothing while the name is out of the cache pool and `reg` is in a lower one. */
  predicate Reads(s: Slots, reg: Data) {
    match Visible(s)
    case Some(o) => o.data == reg
    case None => s.cache == NoEntry && (CopyOf(s, Slow, reg) || CopyOf(s, Archive, reg))
  }

  /** What the holder's copies are worth while the register holds `reg`. */
  predicate Current(s: Slots, pc: Pc, reg: Data) {
    match pc
    case Promote(from) => CopyOf(s, from, reg)
    case Install(to, v) =>
      && Visible(s).Some? && v <= Visible(s).value.version
      && (v == Visible(s).value.version ==> CopyOf(s, to, reg))
    case LateralCopy(from, _) => CopyOf(s, from, reg)
    case LateralDropSource(from, to) => CopyOf(s, from, reg) && CopyOf(s, to, reg)
    case _ => true
  }

  predicate Faithful(w: World, reg: Data) {
    && Reads(w.slots, reg)
    && (forall a :: a in w.clients ==> Current(w.slots, w.clients[a].pc, reg) || !Critical(w.clients[a].pc))
  }

  /** A lateral move has removed its source and has not put its dummy object in place. */
  predicate Drifts(w: World, reg: Data) {
    && w.slots.cache == NoEntry && Reads(w.slots, reg)
    && (forall a :: a in w.clients ==>
          var pc := w.clients[a].pc; pc.Locking? || pc.LateralDummy? || Ended(pc))
  }

  /** What a plain write makes of a name that a lateral move or a failed promotion has taken out of the
      cache pool: an object without a label, which no mover moves any more. */
  predicate Forsaken(w: World, reg: Data) {
    && w.slots.cache.Full? && w.slots.cache.obj.tag == Unset && w.slots.cache.obj.data == reg
    && (forall a :: a in w.clients ==>
          var pc := w.clients[a].pc;
          pc.Locking? || pc.Locating? || pc.Unlocking? || Ended(pc)
          || pc.LateralCopy? || pc.LateralDropSource? || pc.LateralDummy?)
  }

  ghost predicate Registers(w: World, reg: Data) {
    (Ordered(w, false) && Faithful(w, reg)) || Drifts(w, reg) || Forsaken(w, reg)
  }

  lemma HolderKeepsRegister(s: Slots, tier: Tier, pc: Pc, fault: int, jump: nat, reg: Data)
    requires Critical(pc) && Possesses(s, tier, pc, false) && Current(s, pc, reg) && Reads(s, reg)
    requires fault == 0 ==> !Mistaken(s, pc)
    ensures var p := Step(MoveCall(tier), pc, s, fault, jump);
            Reads(p.slots, reg) && (Critical(p.pc) ==> Current(p.slots, p.pc, reg))
  {
  }

  lemma LockerKeepsRegister(s: Slots, tier: Tier, fault: int, jump: nat, reg: Data)
    requires Reads(s, reg)
    ensures var p := Step(MoveCall(tier), Locking, s, fault, jump);
            Reads(p.slots, reg) && (Critical(p.pc) ==> Current(p.slots, p.pc, reg))
  {
  }

  lemma WriteKeepsCurrent(s: Slots, tier: Tier, pc: Pc, d: Data, jump: nat, reg: Data)
    requires Critical(pc) && Possesses(s, tier, pc, false) && Current(s, pc, reg) && s.cache != NoEntry
    ensures Current(WriteThrough(s, d, None, jump), pc, d)
  {
  }

  lemma WriteKeepsFaith(w: World, d: Data, jump: nat, reg: Data)
    requires Ordered(w, false) && Faithful(w, reg) && w.slots.cache != NoEntry
    ensures var v := Next(w, Write(d, jump)); Ordered(v, false) && Faithful(v, d)
  {
    var v := Next(w, Write(d, jump));
    EntryIsVisible(w, false);
    forall a | a in w.clients && Critical(w.clients[a].pc)
      ensures Current(v.slots, w.clients[a].pc, d)
    {
      WriteKeepsCurrent(w.slots, w.clients[a].tier, w.clients[a].pc, d, jump, reg);
    }
    OrderedKept(w, Write(d, jump), false);
  }

  lemma WriteForsakes(w: World, d: Data, jump: nat, reg: Data)
    requires (Ordered(w, false) && Faithful(w, reg)) || Drifts(w, reg)
    requires w.slots.cache == NoEntry && !Interrupts(w, Write(d, jump))
    ensures Forsaken(Next(w, Write(d, jump)), d)
  {
    forall a | a in w.clients && Critical(w.clients[a].pc)
      ensures var pc := w.clients[a].pc; pc.Unlocking? || pc.LateralCopy? || pc.LateralDropSource? || pc.LateralDummy?
    {
      assert Ordered(w, false) ==> Possesses(w.slots, w.clients[a].tier, w.clients[a].pc, false);
    }
  }

  lemma ActKeepsFaith(w: World, who: nat, fault: int, jump: nat, reg: Data)
    requires who in w.clients
    requires Ordered(w, false) && Faithful(w, reg) && !Mistakes(w, Act(who, fault, jump))
    ensures Faithful(Next(w, Act(who, fault, jump)), reg)
  {
    var c := w.clients[who];
    var v := Next(w, Act(who, fault, jump));
    assert forall a :: a in w.clients && a != who ==> v.clients[a] == w.clients[a];
    if Critical(c.pc) {
      HolderKeepsRegister(w.slots, c.tier, c.pc, fault, jump, reg);
      assert forall a :: a in w.clients && a != who ==> !Critical(v.clients[a].pc);
    } else if c.pc.Locking? {
      LockerKeepsRegister(w.slots, c.tier, fault, jump, reg);
      forall a | a in w.clients && a != who && Critical(w.clients[a].pc)
        ensures v.slots == w.slots
      {
        OthersAreShutOut(w.slots, w.clients[a].tier, w.clients[a].pc, c.tier, fault, jump, false);
      }
    } else {
      assert v == w;
    }
  }

  lemma RemovalDrifts(w: World, e: Event, reg: Data)
    requires Ordered(w, false) && Faithful(w, reg) && Strands(w, e)
    ensures Drifts(Next(w, e), reg)
  {
    var c := w.clients[e.who];
    assert Possesses(w.slots, c.tier, c.pc, false) && Current(w.slots, c.pc, reg);
    forall a | a in w.clients && a != e.who
      ensures w.clients[a].pc.Locking? || Ended(w.clients[a].pc)
    {
      assert !Critical(w.clients[a].pc);
    }
  }

  lemma OrderedStaysRegister(w: World, e: Event, reg: Data)
    requires Ordered(w, false) && Faithful(w, reg) && !Interrupts(w, e) && !Mistakes(w, e)
    ensures Registers(Next(w, e), if e.Write? then e.data else reg)
  {
    match e
    case Begin(_, _) => OrderedKept(w, e, false);
    case Write(d, jump) =>
      if w.slots.cache == NoEntry {
        WriteForsakes(w, d, jump, reg);
      } else {
        WriteKeepsFaith(w, d, jump, reg);
      }
    case Act(who, fault, jump) =>
      if who in w.clients {
        if Strands(w, e) {
          RemovalDrifts(w, e, reg);
        } else {
          ActKeepsFaith(w, who, fault, jump, reg);
          OrderedKept(w, e, false);
        }
      }
  }

  lemma DriftsKept(w: World, e: Event, reg: Data)
    requires Drifts(w, reg) && !Exposes(w, e) && !e.Write?
    ensures Drifts(Next(w, e), reg)
  {
  }

  lemma ForsakenKept(w: World, e: Event, reg: Data)
    requires Forsaken(w, reg) && !Exposes(w, e)
    ensures Forsaken(Next(w, e), if e.Write? then e.data else reg)
  {
  }

  lemma RegistersKept(w: World, e: Event, reg: Data)
    requires Registers(w, reg) && !Interrupts(w, e) && !Exposes(w, e) && !Mistakes(w, e)
    ensures Registers(Next(w, e), if e.Write? then e.data else reg)
  {
    if Forsaken(w, reg) {
      ForsakenKept(w, e, reg);
    } else if !Drifts(w, reg) {
      OrderedStaysRegister(w, e, reg);
    } else if e.Write? {
      WriteForsakes(w, e.data, e.jump, reg);
    } else {
      DriftsKept(w, e, reg);
    }
  }

  lemma {:induction false} RunRegisters(w: World, events: seq<Event>, reg: Data)
    requires Registers(w, reg) && Disciplined(w, events)
    ensures Registers(Trail(w, events), LastWrite(reg, events))
    decreases |events|
  {
    if events != [] {
      RegistersKept(w, events[0], reg);
      RunRegisters(Next(w, events[0]), events[1..], if events[0].Write? then events[0].data else reg);
    }
  }

  /** Movers to any tiers and plain writers in any interleaving and with any faults: what a reader sees
      through the cache pool is the last value written, never an older copy.  While the name is out of the
      cache pool, that value is in a lower pool. */
  lemma AtomicRegister(s: Slots, d: Data, events: seq<Event>)
    requires Legible(s) && Visible(s).value.data == d
    requires Disciplined(World(s, map[]), events)
    ensures Reads(Trail(World(s, map[]), events).slots, LastWrite(d, events))
  {
    RunRegisters(World(s, map[]), events, d);
  }

  // ---------------------------------------------------------------- where updates are lost

  /** What a plain write between two operations of the lock holder is worth after the second one.  If that
      one is the copy of a promotion, or a redirect whose version check is mistaken, readers are back at
      the holder's copy; otherwise they see the write. */
  lemma WriteIsLostIff(s: Slots, tier: Tier, pc: Pc, d: Data, jump: nat, next: nat, reg: Data)
    requires Critical(pc) && Possesses(s, tier, pc, false) && Current(s, pc, reg) && Reads(s, reg)
    ensures var t := WriteThrough(s, d, None, jump);
            Reads(Step(MoveCall(tier), pc, t, 0, next).slots, d)
            <==> if pc.Promote? then reg == d else Mistaken(t, pc) ==> CopyOf(s, pc.to, d)
  {
  }

  /** The one step of a lateral move that breaks the register: once the dummy object is in place, readers
      find it empty. */
  lemma DummyIsEmpty(s: Slots, tier: Tier, to: Lower, jump: nat, reg: Data)
    requires !s.cache.Stub?
    ensures Reads(Step(MoveCall(tier), LateralDummy(to), s, 0, jump).slots, reg) <==> reg == ""
  {
  }

  /** The value that the client in a lateral move carries. */
  predicate Carries(s: Slots, pc: Pc, reg: Data) {
    match pc
    case LateralDropStub(from, _) => CopyOf(s, from, reg)
    case LateralCopy(from, _) => CopyOf(s, from, reg)
    case LateralDropSource(_, to) => CopyOf(s, to, reg)
    case LateralDummy(to) => CopyOf(s, to, reg)
    case LateralRedirect(to) => CopyOf(s, to, reg)
    case _ => false
  }

  predicate LockedCopy(s: Slots, t: Lower, d: Data) {
    CopyOf(s, t, d) && Backing(s, t).value.lock == Held
  }

  lemma RedirectShows(to: Lower, s: Slots, script: seq<Tick>, reg: Data)
    requires Quiet(script) && |script| >= 2 && s.cache.Full? && LockedCopy(s, to, reg)
    ensures var r := Exec(MoveCall(to), LateralRedirect(to), s, script);
            r.pc == Stopped(FallOut(0)) && Visible(r.slots).Some? && Visible(r.slots).value.data == reg
  {
    hide Exec;
    var p, rest := QuietStep(MoveCall(to), LateralRedirect(to), s, script);
    p, rest := QuietStep(MoveCall(to), p.pc, p.slots, rest);
    ExecOver(MoveCall(to), p.pc, p.slots, rest);
  }

  lemma DummyShows(to: Lower, s: Slots, script: seq<Tick>, reg: Data)
    requires Quiet(script) && |script| >= 3 && !s.cache.Stub? && LockedCopy(s, to, reg)
    ensures var r := Exec(MoveCall(to), LateralDummy(to), s, script);
            r.pc == Stopped(FallOut(0)) && Visible(r.slots).Some? && Visible(r.slots).value.data == reg
  {
    hide Exec;
    var p, rest := QuietStep(MoveCall(to), LateralDummy(to), s, script);
    RedirectShows(to, p.slots, rest, reg);
  }

  lemma RemovalShows(from: Lower, to: Lower, s: Slots, script: seq<Tick>, reg: Data)
    requires Quiet(script) && |script| >= 4 && !s.cache.Stub? && to == Other(from)
    requires Backing(s, from).Some? && LockedCopy(s, to, reg)
    ensures var r := Exec(MoveCall(to), LateralDropSource(from, to), s, script);
            r.pc == Stopped(FallOut(0)) && Visible(r.slots).Some? && Visible(r.slots).value.data == reg
  {
    hide Exec;
    var p, rest := QuietStep(MoveCall(to), LateralDropSource(from, to), s, script);
    DummyShows(to, p.slots, rest, reg);
  }

  lemma CopyShows(from: Lower, to: Lower, s: Slots, script: seq<Tick>, reg: Data)
    requires Quiet(script) && |script| >= 5 && !s.cache.Stub? && to == Other(from) && LockedCopy(s, from, reg)
    ensures var r := Exec(MoveCall(to), LateralCopy(from, to), s, script);
            r.pc == Stopped(FallOut(0)) && Visible(r.slots).Some? && Visible(r.slots).value.data == reg
  {
    hide Exec;
    var p, rest := QuietStep(MoveCall(to), LateralCopy(from, to), s, script);
    RemovalShows(from, to, p.slots, rest, reg);
  }

  lemma LateralShows(from: Lower, to: Lower, s: Slots, script: seq<Tick>, reg: Data)
    requires Quiet(script) && |script| >= 6 && s.cache != NoEntry && to == Other(from) && LockedCopy(s, from, reg)
    ensures var r := Exec(MoveCall(to), LateralDropStub(from, to), s, script);
            r.pc == Stopped(FallOut(0)) && Visible(r.slots).Some? && Visible(r.slots).value.data == reg
  {
    hide Exec;
    var p, rest := QuietStep(MoveCall(to), LateralDropStub(from, to), s, script);
    CopyShows(from, to, p.slots, rest, reg);
  }

  /** A plain write just before one of the five operations of a lateral move that is not disturbed from
      there on: the move ends normally, and readers see the write exactly when that operation was the
      first one; otherwise they see the value that the move carries. */
  lemma LateralWriteIsLostIff(s: Slots, to: Lower, pc: Pc, d: Data, jump: nat, script: seq<Tick>, reg: Data)
    requires Lateral(pc) && pc.to == to && Works(s, to, pc, false) && Carries(s, pc, reg)
    requires Quiet(script) && |script| >= 6
    ensures var r := Exec(MoveCall(to), pc, WriteThrough(s, d, None, jump), script);
            && r.pc == Stopped(FallOut(0))
            && Visible(r.slots).Some? && Visible(r.slots).value.data == (if pc.LateralDropStub? then d else reg)
            && (Reads(r.slots, d) <==> pc.LateralDropStub? || d == reg)
  {
    hide Exec;
    var t := WriteThrough(s, d, None, jump);
    match pc
    case LateralDropStub(from, _) => LateralShows(from, to, t, script, d);
    case LateralCopy(from, _) => CopyShows(from, to, t, script, reg);
    case LateralDropSource(from, _) => RemovalShows(from, to, t, script, reg);
    case LateralDummy(_) => DummyShows(to, t, script, reg);
    case LateralRedirect(_) => RedirectShows(to, t, script, reg);
  }

  // ---------------------------------------------------------------- objects labelled "fast"

  /** Objects created in FAST keep the label "fast" for good, so every move of them is a demotion. */
  predicate OnlyDemotes(w: World) {
    && Visible(w.slots).Some? && Visible(w.slots).value.tag == SaysFast
    && (forall a :: a in w.clients ==>
          var pc := w.clients[a].pc;
          pc.Locking? || pc.Locating? || pc.Demote? || pc.Install? || pc.Unlocking? || Ended(pc))
  }

  lemma OnlyDemotesKept(w: World, e: Event)
    requires Ordered(w, false) && OnlyDemotes(w)
    ensures Finds(w, e) && !Strands(w, e) && OnlyDemotes(Next(w, e))
  {
    if e.Act? && e.who in w.clients {
      var c := w.clients[e.who];
      assert Critical(c.pc) ==> Possesses(w.slots, c.tier, c.pc, false);
    }
  }

  lemma {:induction false} RunOnlyDemotes(w: World, events: seq<Event>)
    requires Ordered(w, false) && OnlyDemotes(w)
    ensures Ordered(Trail(w, events), false) && OnlyDemotes(Trail(w, events))
    decreases |events|
  {
    if events != [] {
      OnlyDemotesKept(w, events[0]);
      OrderedKept(w, events[0], false);
      RunOnlyDemotes(Next(w, events[0]), events[1..]);
    }
  }

  /** An object labelled "fast", as every object created in FAST is for good, can be read at every point of
      every run, whatever the movers, writers and faults, and never more than one mover holds its lock. */
  lemma FastObjectsStayReachable(s: Slots, events: seq<Event>)
    requires Legible(s) && Visible(s).value.tag == SaysFast
    ensures var w := Trail(World(s, map[]), events);
            Visible(w.slots).Some? && Visible(w.slots).value.tag == SaysFast && SoleHolder(w)
  {
    RunOnlyDemotes(World(s, map[]), events);
  }

  // ---------------------------------------------------------------- when repeated demotions are safe

  /** A demotion to `to` can send readers to an older copy: the cache pool holds a redirect to the other
      lower pool, whose version, which is the one that the demotion asserts against, survives the `int`. */
  predicate Hideable(s: Slots, to: Lower) {
    s.cache.Stub? && s.cache.target != to && ThroughInt(s.cache.stubVersion) == s.cache.stubVersion
  }

  /** The first 64-bit version that an older one can be mistaken for. */
  const MISTAKABLE := TWO_64 - TWO_31

  lemma NoFalseMatch(v: nat, w: nat)
    requires v <= w < MISTAKABLE
    ensures ThroughInt(v) == w ==> v == w
  {
  }

  lemma ThroughIntTwice(v: nat)
    ensures ThroughInt(ThroughInt(v)) == ThroughInt(v)
  {
  }

  /** Every mover goes to `to`, or to FAST, where the label says that the object already is. */
  predicate AllGoTo(to: Lower, events: seq<Event>) {
    forall e :: e in events && e.Begin? ==> e.tier in {Fast, to}
  }

  /** The store has handed out no version from `limit` on to a full object. */
  predicate Fits(w: World, limit: nat) {
    w.slots.cache.Full? ==> w.slots.cache.obj.version < limit
  }

  predicate AllFit(w: World, events: seq<Event>, limit: nat)
    decreases |events|
  {
    Fits(w, limit) && (events != [] ==> AllFit(Next(w, events[0]), events[1..], limit))
  }

  predicate Aims(w: World, to: Lower) {
    && !Hideable(w.slots, to)
    && (forall a :: a in w.clients ==>
          var c := w.clients[a];
          c.tier in {Fast, to} && (c.pc.Demote? || c.pc.Install? ==> c.pc.to == to))
  }

  lemma AimsKept(w: World, e: Event, to: Lower)
    requires Ordered(w, false) && OnlyDemotes(w) && Aims(w, to) && (e.Begin? ==> e.tier in {Fast, to})
    ensures Aims(Next(w, e), to)
  {
    if e.Act? && e.who in w.clients {
      var c := w.clients[e.who];
      assert Critical(c.pc) ==> Possesses(w.slots, c.tier, c.pc, false);
    }
  }

  lemma AimedIsDisciplined(w: World, e: Event, to: Lower, reg: Data)
    requires OnlyDemotes(w) && Aims(w, to) && Faithful(w, reg) && Fits(w, MISTAKABLE)
    ensures !Interrupts(w, e) && !Exposes(w, e) && !Mistakes(w, e)
  {
    if e.Act? && e.who in w.clients && w.clients[e.who].pc.Install? {
      var pc := w.clients[e.who].pc;
      assert Current(w.slots, pc, reg);
      ThroughIntTwice(pc.copied);
      if w.slots.cache.Full? {
        NoFalseMatch(pc.copied, w.slots.cache.obj.version);
      }
    }
  }

  lemma {:induction false} AimedRunIsDisciplined(w: World, events: seq<Event>, to: Lower, reg: Data, limit: nat)
    requires Ordered(w, false) && OnlyDemotes(w) && Aims(w, to) && Faithful(w, reg)
    requires AllGoTo(to, events) && AllFit(w, events, limit) && (w.slots.cache.Full? ==> limit <= MISTAKABLE)
    ensures Disciplined(w, events)
    decreases |events|
  {
    if events != [] {
      var e := events[0];
      AimedIsDisciplined(w, e, to, reg);
      AimsKept(w, e, to);
      OnlyDemotesKept(w, e);
      OrderedKept(w, e, false);
      FaithStays(w, e, reg);
      AimedRunIsDisciplined(Next(w, e), events[1..], to, if e.Write? then e.data else reg, limit);
    }
  }

  lemma FaithStays(w: World, e: Event, reg: Data)
    requires Ordered(w, false) && Faithful(w, reg) && OnlyDemotes(w) && !Mistakes(w, e)
    ensures Faithful(Next(w, e), if e.Write? then e.data else reg)
    ensures Next(w, e).slots.cache.Full? ==> w.slots.cache.Full?
  {
    OnlyDemotesKept(w, e);
    match e
    case Begin(_, _) =>
    case Write(d, jump) => WriteKeepsFaith(w, d, jump, reg);
    case Act(who, fault, jump) =>
      if who in w.clients {
        ActKeepsFaith(w, who, fault, jump, reg);
      }
  }

  /** In every run of movers to `to` from `s`, with writers and faults, that hands out no version from
      `limit` on to a full object, readers see the last value written. */
  ghost predicate SafeFor(s: Slots, to: Lower, d: Data, limit: nat) {
    forall events :: AllGoTo(to, events) && AllFit(World(s, map[]), events, limit) ==>
      Reads(Trail(World(s, map[]), events).slots, LastWrite(d, events))
  }

  /** However many movers carry an object labelled "fast" to one lower tier, as the executions of a task
      that the watcher posts again do: no run loses an update exactly when there is no redirect to the
      other pool that can hide one, and a full object never gets one of the last 2^31 versions.  A second
      demotion to the pool that already holds the object is harmless; one from there to the third tier
      is not. */
  lemma DemotionsAreSafeIff(s: Slots, to: Lower, d: Data, limit: nat)
    requires Legible(s) && Unlocked(s) && Visible(s).value.tag == SaysFast && Visible(s).value.data == d
    requires s.cache.Full? && limit > MISTAKABLE ==> s.cache.obj.version < TWO_64 - 3 * TWO_32
    ensures SafeFor(s, to, d, limit) <==> !Hideable(s, to) && (s.cache.Full? ==> limit <= MISTAKABLE)
  {
    var w := World(s, map[]);
    if Hideable(s, to) || (s.cache.Full? && limit > MISTAKABLE) {
      var events;
      if s.cache.Full? {
        events := MistakenRun(s, to, d, limit);
      } else {
        events := HidingRun(s, to, d, limit);
      }
      assert |d + "!"| != |d|;
      assert !Reads(Trail(w, events).slots, LastWrite(d, events));
    } else {
      forall events | AllGoTo(to, events) && AllFit(w, events, limit)
        ensures Reads(Trail(w, events).slots, LastWrite(d, events))
      {
        AimedRunIsDisciplined(w, events, to, d, limit);
        AtomicRegister(s, d, events);
      }
    }
  }

  lemma {:induction false} LastWriteThen(d: Data, events: seq<Event>, e: Event)
    ensures LastWrite(d, events + [e]) == if e.Write? then e.data else LastWrite(d, events)
    decreases |events|
  {
    if events == [] {
      assert (events + [e])[1..] == [];
    } else {
      assert (events + [e])[1..] == events[1..] + [e];
      LastWriteThen(if events[0].Write? then events[0].data else d, events[1..], e);
    }
  }

  lemma {:induction false} FitThen(w: World, events: seq<Event>, e: Event, limit: nat)
    requires AllFit(w, events, limit) && Fits(Next(Trail(w, events), e), limit)
    ensures AllFit(w, events + [e], limit)
    decreases |events|
  {
    if events == [] {
      assert (events + [e])[1..] == [];
    } else {
      assert (events + [e])[1..] == events[1..] + [e];
      FitThen(Next(w, events[0]), events[1..], e, limit);
    }
  }

  /** A run with its end and the last value written. */
  ghost predicate Leads(w: World, to: Lower, d: Data, events: seq<Event>, v: World, reg: Data, limit: nat) {
    && Trail(w, events) == v && LastWrite(d, events) == reg
    && FaultFree(events) && AllGoTo(to, events) && AllFit(w, events, limit)
  }

  lemma Extend(w: World, to: Lower, d: Data, events: seq<Event>, v: World, reg: Data, limit: nat, e: Event)
    returns (more: seq<Event>)
    requires Leads(w, to, d, events, v, reg, limit) && Fits(Next(v, e), limit)
    requires (e.Act? ==> e.fault == 0) && (e.Begin? ==> e.tier == to)
    ensures Leads(w, to, d, more, Next(v, e), if e.Write? then e.data else reg, limit)
  {
    more := events + [e];
    TrailThen(w, events, e);
    LastWriteThen(d, events, e);
    FitThen(w, events, e, limit);
  }

  /** A mover to `to` has the lock and has read "fast". */
  lemma DemotionBegun(s: Slots, to: Lower, d: Data, jump: nat, limit: nat) returns (events: seq<Event>, v: World)
    requires Legible(s) && Unlocked(s) && Visible(s).value.tag == SaysFast
    requires s.cache.Full? ==> s.cache.obj.version + 1 + jump < limit
    ensures Leads(World(s, map[]), to, d, events, v, d, limit)
    ensures v == World(TakeLock(s, jump).slots, map[0 := Client(to, Demote(to))])
  {
    var w := World(s, map[]);
    v := Next(w, Begin(0, to));
    events := Extend(w, to, d, [], w, d, limit, Begin(0, to));
    assert v == World(s, map[0 := Client(to, Locking)]);
    events := Extend(w, to, d, events, v, d, limit, Act(0, 0, jump));
    v := Next(v, Act(0, 0, jump));
    assert v == World(TakeLock(s, jump).slots, map[0 := Client(to, Locating)]);
    events := Extend(w, to, d, events, v, d, limit, Act(0, 0, 0));
    v := Next(v, Act(0, 0, 0));
  }

  /** A jump that takes version `v` to one that reads as `k` after the `int`. */
  lemma JumpTo(v: nat, k: nat) returns (jump: nat)
    requires ThroughInt(k) == k
    ensures ThroughInt(v + 1 + jump) == k && v + 1 + jump < v + 2 * TWO_32
  {
    var low := k % TWO_32;
    jump := low + TWO_32 * (v / TWO_32 + 1) - v - 1;
    assert v + 1 + jump == low + TWO_32 * (v / TWO_32 + 1);
  }

  /** The mover has its copy, under a version that reads as `k` after the `int`. */
  lemma Copied(s: Slots, to: Lower, d: Data, k: nat, limit: nat) returns (events: seq<Event>, v: World, copied: nat)
    requires Legible(s) && Unlocked(s) && Visible(s).value.tag == SaysFast && Visible(s).value.data == d
    requires ThroughInt(k) == k && !(s.cache.Stub? && s.cache.target == to)
    requires s.cache.Full? ==> s.cache.obj.version + 2 * TWO_32 <= limit
    ensures Leads(World(s, map[]), to, d, events, v, d, limit)
    ensures v.clients == map[0 := Client(to, Install(to, copied))] && ThroughInt(copied) == k
    ensures if s.cache.Full? then v.slots.cache.Full? && v.slots.cache.obj.version == copied else v.slots.cache == s.cache
    ensures CopyOf(v.slots, to, d) && copied < Visible(s).value.version + 2 * TWO_32
  {
    hide Leads;
    var w := World(s, map[]);
    var jump := JumpTo(Visible(s).value.version, k);
    events, v := DemotionBegun(s, to, d, jump, limit);
    copied := Visible(v.slots).value.version;
    events := Extend(w, to, d, events, v, d, limit, Act(0, 0, 0));
    v := Next(v, Act(0, 0, 0));
  }

  /** The run that loses an update behind a redirect: the write goes to the old pool, and then the redirect
      is turned away from it. */
  lemma HidingRun(s: Slots, to: Lower, d: Data, limit: nat) returns (events: seq<Event>)
    requires Legible(s) && Unlocked(s) && Visible(s).value.tag == SaysFast && Visible(s).value.data == d
    requires Hideable(s, to)
    ensures FaultFree(events) && AllGoTo(to, events) && AllFit(World(s, map[]), events, limit)
    ensures LastWrite(d, events) == d + "!"
    ensures var o := Visible(Trail(World(s, map[]), events).slots); o.Some? && o.value.data == d
  {
    var w := World(s, map[]);
    var v, copied;
    events, v, copied := Copied(s, to, d, s.cache.stubVersion, limit);
    events := Redirected(w, to, d, events, v, copied, 0, limit);
  }

  /** The run that loses an update of a full object: the write takes the object to the version that the
      copied one reads as. */
  lemma MistakenRun(s: Slots, to: Lower, d: Data, limit: nat) returns (events: seq<Event>)
    requires Legible(s) && Unlocked(s) && Visible(s).value.tag == SaysFast && Visible(s).value.data == d
    requires s.cache.Full? && s.cache.obj.version < TWO_64 - 3 * TWO_32 && limit > MISTAKABLE
    ensures FaultFree(events) && AllGoTo(to, events) && AllFit(World(s, map[]), events, limit)
    ensures LastWrite(d, events) == d + "!"
    ensures var o := Visible(Trail(World(s, map[]), events).slots); o.Some? && o.value.data == d
  {
    var w := World(s, map[]);
    var v, copied;
    events, v, copied := Copied(s, to, d, MISTAKABLE, limit);
    events := Redirected(w, to, d, events, v, copied, MISTAKABLE - copied - 1, limit);
  }

  /** A write that the version check does not notice. */
  lemma Redirected(w: World, to: Lower, d: Data, before: seq<Event>, v: World, copied: nat, jump: nat, limit: nat)
    returns (events: seq<Event>)
    requires Leads(w, to, d, before, v, d, limit)
    requires v.clients == map[0 := Client(to, Install(to, copied))] && CopyOf(v.slots, to, d)
    requires v.slots.cache != NoEntry && !(v.slots.cache.Stub? && v.slots.cache.target == to)
    requires ThroughInt(copied) == EntryVersion(v.slots.cache) + if v.slots.cache.Full? then 1 + jump else 0
    requires v.slots.cache.Full? ==> ThroughInt(copied) < limit
    ensures FaultFree(events) && AllGoTo(to, events) && AllFit(w, events, limit)
    ensures LastWrite(d, events) == d + "!"
    ensures var o := Visible(Trail(w, events).slots); o.Some? && o.value.data == d
  {
    var e := Write(d + "!", jump);
    events := Extend(w, to, d, before, v, d, limit, e);
    var u := Next(v, e);
    assert u.clients == v.clients && CopyOf(u.slots, to, d) && EntryVersion(u.slots.cache) == ThroughInt(copied);
    events := Extend(w, to, d, events, u, d + "!", limit, Act(0, 0, 0));
  }

  /** After a demotion, running it again is always safe; sending the object on to the third tier is safe
      exactly when the redirect's version does not survive the `int`. */
  lemma SafeAfterDemotion(s: Slots, to: Lower, o: Obj, script: seq<Tick>, limit: nat)
    requires Resides(s, Fast, o) && o.tag == SaysFast && o.lock != Held
    requires Quiet(script) && |script| >= 8
    requires var locked := o.version + 1 + script[0].jump; ThroughInt(locked) == locked
    ensures var t := Exec(MoveCall(to), Start(MoveCall(to)), s, script).slots;
            && t.cache.Stub? && SafeFor(t, to, o.data, limit)
            && (SafeFor(t, Other(to), o.data, limit) <==> ThroughInt(t.cache.stubVersion) != t.cache.stubVersion)
  {
    hide Exec, SafeFor;
    MoveIsCorrectIff(s, Fast, to, o, script);
    var t := Exec(MoveCall(to), Start(MoveCall(to)), s, script).slots;
    DemotionsAreSafeIff(t, to, o.data, limit);
    DemotionsAreSafeIff(t, Other(to), o.data, limit);
  }
}
