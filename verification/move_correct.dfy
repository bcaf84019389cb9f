/** What undisturbed calls achieve: the nine tier pairs of `Move`, repeated promotions, `Create` and `Delete`. */
module MoveCorrect {
  import opened Prelude
  import opened Store
  import opened MoverMachine
  import opened Crowd
  import opened Demotion

  lemma QuietStep(call: Call, pc: Pc, s: Slots, script: seq<Tick>) returns (p: Point, rest: seq<Tick>)
    requires Quiet(script) && script != [] && !Ended(pc)
    ensures p == Step(call, pc, s, 0, script[0].jump) && rest == script[1..] && Quiet(rest)
    ensures Exec(call, pc, s, script) == Exec(call, p.pc, p.slots, rest)
  {
    assert script[0] in script;
    p := Step(call, pc, s, 0, script[0].jump);
    rest := script[1..];
  }

  lemma ExecOver(call: Call, pc: Pc, s: Slots, script: seq<Tick>)
    requires Ended(pc)
    ensures Exec(call, pc, s, script) == Run(pc, s, script)
  {
  }

  /** The label of a redirect. */
  function EntryLabel(c: CacheSlot): Option<Tag> {
    if c.Stub? then Some(c.stubTag) else None
  }

  /** The label that a move from `home` to `to` leaves on the redirect, if there is one in the end. */
  function LabelLeft(s: Slots, home: Tier, to: Tier): Option<Tag> {
    if to == Fast then None
    else if home == to then EntryLabel(s.cache)
    else if home == Fast then Some(if to == Slow then SaysStorage else SaysArchive)
    else Some(Unset)
  }

  /** The outcome of a move of `o` to `to` that ended normally. */
  predicate Arrived(r: Run, to: Tier, o: Obj, entry: Option<Tag>) {
    && EntryLabel(r.slots.cache) == entry
    && r.pc == Stopped(FallOut(0))
    && Visible(r.slots).Some?
    && var a := Visible(r.slots).value;
       Resides(r.slots, to, a) && a.data == o.data && a.lock == Released
       && a.tag == if to == Fast then SaysFast else o.tag
  }

  lemma UnlockArrives(call: Call, to: Tier, o: Obj, s: Slots, script: seq<Tick>)
    requires Quiet(script) && script != []
    requires Resides(s, to, o) && o.lock == Held && (to == Fast ==> o.tag == SaysFast)
    ensures Arrived(Exec(call, Unlocking(FallOut(0)), s, script), to, o, EntryLabel(s.cache))
  {
    hide Exec;
    var p, rest := QuietStep(call, Unlocking(FallOut(0)), s, script);
    ExecOver(call, p.pc, p.slots, rest);
  }

  lemma PromotionArrives(from: Lower, o: Obj, s: Slots, script: seq<Tick>)
    requires Quiet(script) && |script| >= 4 && Resides(s, from, o) && o.lock == Held
    ensures Arrived(Exec(MoveCall(Fast), DropStub(from), s, script), Fast, o, None)
  {
    hide Exec;
    var call := MoveCall(Fast);
    var p, rest := QuietStep(call, DropStub(from), s, script);
    p, rest := QuietStep(call, p.pc, p.slots, rest);
    assert p.pc == DropSource(from);
    p, rest := QuietStep(call, p.pc, p.slots, rest);
    UnlockArrives(call, Fast, o.(tag := SaysFast), p.slots, rest);
  }

  lemma DemotionArrives(to: Lower, o: Obj, s: Slots, script: seq<Tick>)
    requires Quiet(script) && |script| >= 3 && s.cache == Full(o) && Backing(s, Other(to)) == None && o.lock == Held
    requires ThroughInt(o.version) == o.version
    ensures Arrived(Exec(MoveCall(to), Demote(to), s, script), to, o, LabelLeft(s, Fast, to))
  {
    hide Exec;
    var call := MoveCall(to);
    var p, rest := QuietStep(call, Demote(to), s, script);
    p, rest := QuietStep(call, p.pc, p.slots, rest);
    UnlockArrives(call, to, o, p.slots, rest);
  }

  lemma LateralArrives(from: Lower, to: Lower, o: Obj, s: Slots, script: seq<Tick>)
    requires Quiet(script) && |script| >= 6 && Resides(s, from, o) && o.lock == Held && to == Other(from)
    ensures Arrived(Exec(MoveCall(to), LateralDropStub(from, to), s, script), to, o, Some(Unset))
  {
    hide Exec;
    var call := MoveCall(to);
    var p, rest := QuietStep(call, LateralDropStub(from, to), s, script);
    p, rest := QuietStep(call, p.pc, p.slots, rest);
    assert p.pc == LateralDropSource(from, to);
    p, rest := QuietStep(call, p.pc, p.slots, rest);
    assert p.slots == SetBacking(EMPTY, to, Some(o));
    DummyArrives(to, o, rest);
  }

  lemma DummyArrives(to: Lower, o: Obj, script: seq<Tick>)
    requires Quiet(script) && |script| >= 3 && o.lock == Held
    ensures Arrived(Exec(MoveCall(to), LateralDummy(to), SetBacking(EMPTY, to, Some(o)), script), to, o, Some(Unset))
  {
    hide Exec;
    var call := MoveCall(to);
    var p, rest := QuietStep(call, LateralDummy(to), SetBacking(EMPTY, to, Some(o)), script);
    assert p.pc == LateralRedirect(to) && p.slots.cache.Full?;
    p, rest := QuietStep(call, p.pc, p.slots, rest);
    UnlockArrives(call, to, o, p.slots, rest);
  }

  /** `Lock` and `GetLocation` on a truthfully labelled, unlocked object. */
  lemma Found(tier: Tier, home: Tier, o: Obj, s: Slots, script: seq<Tick>)
    returns (held: Obj, t: Slots, rest: seq<Tick>)
    requires Quiet(script) && |script| >= 8
    requires Resides(s, home, o) && o.tag == TagOf(home) && o.lock != Held
    ensures held == o.(lock := Held, version := o.version + 1 + script[0].jump)
    ensures Resides(t, home, held) && EntryLabel(t.cache) == EntryLabel(s.cache) && Quiet(rest) && |rest| >= 6
    ensures Exec(MoveCall(tier), Locking, s, script) == Exec(MoveCall(tier), Branch(tier, o.tag), t, rest)
  {
    hide Exec;
    var call := MoveCall(tier);
    held := o.(lock := Held, version := o.version + 1 + script[0].jump);
    var p;
    p, rest := QuietStep(call, Locking, s, script);
    assert p.pc == Locating;
    p, rest := QuietStep(call, p.pc, p.slots, rest);
    t := p.slots;
  }

  /** `Move` from any tier to any tier: a truthfully labelled, unlocked object ends up as the only full
      copy in the pool it was sent to, unchanged and unlocked, behind a redirect exactly when that pool
      is not FAST, and `Move` reports success.  The one exception is a demotion whose version does not
      survive the 32-bit variable that carries it: that one never ends. */
  lemma MoveIsCorrectIff(s: Slots, home: Tier, to: Tier, o: Obj, script: seq<Tick>)
    requires Resides(s, home, o) && o.tag == TagOf(home) && o.lock != Held
    requires Quiet(script) && |script| >= 8
    ensures var r := Exec(MoveCall(to), Start(MoveCall(to)), s, script);
            var locked := o.version + 1 + script[0].jump;
            if home == Fast && to != Fast && ThroughInt(locked) != locked then !Ended(r.pc)
            else Arrived(r, to, o, LabelLeft(s, home, to))
  {
    hide Exec;
    var held, t, rest := Found(to, home, o, s, script);
    if home == to {
      UnlockArrives(MoveCall(to), to, held, t, rest);
    } else if to == Fast {
      PromotionArrives(home, held, t, rest);
    } else if home != Fast {
      LateralArrives(home, to, held, t, rest);
    } else if ThroughInt(held.version) == held.version {
      DemotionArrives(to, held, t, rest);
    } else {
      DemotionEndsIff(MoveCall(to), to, t, rest);
    }
  }

  /** The same pool by pool and label by label: what the three slots hold after an undisturbed `Move`. */
  lemma MoveLeaves(s: Slots, home: Tier, to: Tier, o: Obj, script: seq<Tick>)
    requires Resides(s, home, o) && o.tag == TagOf(home) && o.lock != Held
    requires Quiet(script) && |script| >= 8
    requires home == Fast && to != Fast ==> var locked := o.version + 1 + script[0].jump; ThroughInt(locked) == locked
    ensures var r := Exec(MoveCall(to), Start(MoveCall(to)), s, script);
            r.pc == Stopped(FallOut(0)) && Visible(r.slots).Some?
            && var a := Visible(r.slots).value;
               a.data == o.data && a.lock == Released
               && match to
                  case Fast => r.slots == Slots(Full(a), None, None) && a.tag == SaysFast
                  case Slow =>
                    && r.slots.cache.Stub? && r.slots.cache.target == Slow && r.slots.storage == Some(a) && r.slots.archive == None
                    && (match home
                        case Fast => a.tag == SaysFast && r.slots.cache.stubTag == SaysStorage
                        case Slow => a.tag == SaysSlow && s.cache.Stub? && r.slots.cache.stubTag == s.cache.stubTag
                        case Archive => a.tag == SaysArchive && r.slots.cache.stubTag == Unset)
                  case Archive =>
                    && r.slots.cache.Stub? && r.slots.cache.target == Archive && r.slots.storage == None && r.slots.archive == Some(a)
                    && (match home
                        case Fast => a.tag == SaysFast && r.slots.cache.stubTag == SaysArchive
                        case Slow => a.tag == SaysSlow && r.slots.cache.stubTag == Unset
                        case Archive => a.tag == SaysArchive && s.cache.Stub? && r.slots.cache.stubTag == s.cache.stubTag)
  {
    hide Exec;
    MoveIsCorrectIff(s, home, to, o, script);
  }

  // ---------------------------------------------------------------- repeated promotion

  /** Consecutive runs of `Move(FAST)`, one per script. */
  function PromoteAll(s: Slots, scripts: seq<seq<Tick>>): Slots
    decreases |scripts|
  {
    if scripts == [] then s
    else PromoteAll(Exec(MoveCall(Fast), Locking, s, scripts[0]).slots, scripts[1..])
  }

  /** However often the watcher has a promotion run again, the object is where one run would have put
      it, with the same data, label and released lock. */
  lemma {:induction false} PromotionIsIdempotent(s: Slots, home: Tier, o: Obj, scripts: seq<seq<Tick>>)
    requires Resides(s, home, o) && o.tag == TagOf(home) && o.lock != Held
    requires scripts != [] && forall q :: q in scripts ==> Quiet(q) && |q| >= 8
    ensures var t := PromoteAll(s, scripts);
            var once := Exec(MoveCall(Fast), Locking, s, scripts[0]).slots;
            && Visible(t).Some? && Visible(once).Some?
            && Resides(t, Fast, Visible(t).value) && Resides(once, Fast, Visible(once).value)
            && Visible(t).value == Visible(once).value.(version := Visible(t).value.version)
            && Visible(once).value == o.(tag := SaysFast, lock := Released, version := Visible(once).value.version)
    decreases |scripts|
  {
    assert scripts[0] in scripts;
    MoveIsCorrectIff(s, home, Fast, o, scripts[0]);
    var once := Exec(MoveCall(Fast), Locking, s, scripts[0]).slots;
    if |scripts| > 1 {
      assert forall q :: q in scripts[1..] ==> q in scripts;
      PromotionIsIdempotent(once, Fast, Visible(once).value, scripts[1..]);
    } else {
      assert scripts[1..] == [];
    }
  }

  // ---------------------------------------------------------------- Create

  /** An undisturbed `Create` leaves `d` readable in the tier asked for exactly when its empty dummy
      object does not reach the data: either the tier is FAST, or the name was not already redirected to
      that tier's pool, or there is nothing to lose.  A `Create` that the watcher posts a second time
      therefore erases the object unless the tier is FAST. */
  lemma CreateShowsDataIff(s: Slots, t: Tier, d: Data, script: seq<Tick>)
    requires Quiet(script) && |script| >= 3
    ensures var r := Exec(CreateCall(t, d), Start(CreateCall(t, d)), s, script);
            && r.pc == Stopped(FallOut(0))
            && Visible(r.slots).Some?
            && (t != Fast ==> r.slots.cache.Stub? && r.slots.cache.target == t)
            && (Visible(r.slots).value.data == d
                <==> t == Fast || !s.cache.Stub? || s.cache.target != t || d == "")
  {
    hide Exec;
    var call := CreateCall(t, d);
    var p, rest := QuietStep(call, Start(call), s, script);
    if t != Fast {
      p, rest := QuietStep(call, p.pc, p.slots, rest);
      p, rest := QuietStep(call, p.pc, p.slots, rest);
    }
    ExecOver(call, p.pc, p.slots, rest);
  }

  /** A name that nobody uses gets a truthfully labelled, unlocked object in the tier asked for. */
  lemma CreatePlaces(t: Tier, d: Data, script: seq<Tick>)
    requires Quiet(script) && |script| >= 3
    ensures var r := Exec(CreateCall(t, d), Start(CreateCall(t, d)), EMPTY, script);
            && r.pc == Stopped(FallOut(0))
            && Visible(r.slots) == Some(Obj(d, TagOf(t), NeverLocked, 1 + script[0].jump))
            && Resides(r.slots, t, Visible(r.slots).value)
            && EntryLabel(r.slots.cache) == (if t == Fast then None else Some(Unset))
  {
    hide Exec;
    var call := CreateCall(t, d);
    var o := Obj(d, TagOf(t), NeverLocked, 1 + script[0].jump);
    var p, rest := QuietStep(call, Start(call), EMPTY, script);
    if t == Fast {
      ExecOver(call, p.pc, p.slots, rest);
    } else {
      assert p == Point(CreateDummy(t), SetBacking(EMPTY, t, Some(o)));
      CreateRedirects(call, t, o, rest);
    }
  }

  /** The same pool by pool and label by label. */
  lemma CreateLeaves(t: Tier, d: Data, script: seq<Tick>)
    requires Quiet(script) && |script| >= 3
    ensures var s := Exec(CreateCall(t, d), Start(CreateCall(t, d)), EMPTY, script).slots;
            var v := 1 + script[0].jump;
            match t
            case Fast => s == Slots(Full(Obj(d, SaysFast, NeverLocked, v)), None, None)
            case Slow =>
              && s.storage == Some(Obj(d, SaysSlow, NeverLocked, v)) && s.archive == None
              && s.cache.Stub? && s.cache.target == Slow && s.cache.stubTag == Unset
            case Archive =>
              && s.archive == Some(Obj(d, SaysArchive, NeverLocked, v)) && s.storage == None
              && s.cache.Stub? && s.cache.target == Archive && s.cache.stubTag == Unset
  {
    hide Exec;
    CreatePlaces(t, d, script);
  }

  lemma CreateRedirects(call: Call, t: Lower, o: Obj, script: seq<Tick>)
    requires Quiet(script) && |script| >= 2
    ensures var r := Exec(call, CreateDummy(t), SetBacking(EMPTY, t, Some(o)), script);
            r.pc == Stopped(FallOut(0)) && Visible(r.slots) == Some(o) && Resides(r.slots, t, o)
            && EntryLabel(r.slots.cache) == Some(Unset)
  {
    hide Exec;
    var p, rest := QuietStep(call, CreateDummy(t), SetBacking(EMPTY, t, Some(o)), script);
    assert p.pc == CreateRedirect(t) && p.slots.cache.Full?;
    p, rest := QuietStep(call, p.pc, p.slots, rest);
    ExecOver(call, p.pc, p.slots, rest);
  }

  // ---------------------------------------------------------------- Delete

  /** An undisturbed `Delete` empties all three pools exactly when the object that the name shows is
      the only one there is; otherwise it leaves an orphan, or, behind a dangling redirect, it returns
      early with the redirect still in place. */
  lemma DeleteEmptiesIff(s: Slots, script: seq<Tick>)
    requires Quiet(script) && |script| >= 2
    ensures var r := Exec(DeleteCall, Start(DeleteCall), s, script);
            && (r.slots == EMPTY <==> s == EMPTY || exists t, o :: Resides(s, t, o))
            && (r.pc == Stopped(FallOut(0)) <==> Visible(s).Some?)
            && (Visible(s) == None ==> r.pc == Stopped(EarlyReturn(-2)) && r.slots == s)
  {
    hide Exec;
    var p, rest := QuietStep(DeleteCall, DeleteTarget, s, script);
    if p.pc == DeleteEntry {
      var shown := Visible(s).value;
      p, rest := QuietStep(DeleteCall, p.pc, p.slots, rest);
      var home := if s.cache.Stub? then s.cache.target else Fast;
      if p.slots == EMPTY {
        assert Resides(s, home, shown);
      }
    }
    ExecOver(DeleteCall, p.pc, p.slots, rest);
  }

  /** `Create`, `Move` and `Delete` of a fresh name leave nothing behind, whatever the tiers and the data. */
  lemma CreateMoveDelete(home: Tier, to: Tier, d: Data, c: seq<Tick>, m: seq<Tick>, e: seq<Tick>)
    requires Quiet(c) && Quiet(m) && Quiet(e) && |c| >= 3 && |m| >= 8 && |e| >= 2
    requires 2 + c[0].jump + m[0].jump < TWO_31
    ensures var created := Exec(CreateCall(home, d), Start(CreateCall(home, d)), EMPTY, c);
            var moved := Exec(MoveCall(to), Start(MoveCall(to)), created.slots, m);
            var deleted := Exec(DeleteCall, Start(DeleteCall), moved.slots, e);
            && Visible(moved.slots).Some? && Visible(moved.slots).value.data == d
            && deleted.slots == EMPTY && deleted.pc == Stopped(FallOut(0))
  {
    hide Exec;
    CreatePlaces(home, d, c);
    var created := Exec(CreateCall(home, d), Start(CreateCall(home, d)), EMPTY, c);
    SmallVersionsPass(2 + c[0].jump + m[0].jump);
    MoveIsCorrectIff(created.slots, home, to, Visible(created.slots).value, m);
    var moved := Exec(MoveCall(to), Start(MoveCall(to)), created.slots, m);
    DeleteEmptiesIff(moved.slots, e);
  }
}
