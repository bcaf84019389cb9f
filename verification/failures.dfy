/** What `Move` reports and leaves when exactly one of its operations fails, whichever one that is. */
module Failures {
  import opened Prelude
  import opened Store
  import opened MoverMachine
  import opened Crowd
  import opened Demotion
  import opened MoveCorrect

  /** Nothing happens around these operations but that the operation number `k` fails with `f`. */
  predicate FailsAt(script: seq<Tick>, k: int, f: int) {
    f != 0 && forall i :: 0 <= i < |script| ==> script[i].writes == [] && script[i].fault == if i == k then f else 0
  }

  lemma FailStep(call: Call, pc: Pc, s: Slots, script: seq<Tick>, k: int, f: int) returns (p: Point, rest: seq<Tick>)
    requires FailsAt(script, k, f) && script != [] && !Ended(pc)
    ensures p == Step(call, pc, s, if k == 0 then f else 0, script[0].jump) && rest == script[1..] && FailsAt(rest, k - 1, f)
    ensures Exec(call, pc, s, script) == Exec(call, p.pc, p.slots, rest)
  {
    p := Step(call, pc, s, if k == 0 then f else 0, script[0].jump);
    rest := script[1..];
  }

  /** `o` with this lock and some version. */
  predicate Locks(o: Obj, a: Option<Obj>, lock: LockAttr) {
    a.Some? && a.value == o.(lock := lock, version := a.value.version)
  }

  /** A promotion that cannot remove the redirect returns early and leaves the object as it was. */
  lemma PromotionFailsToDropStub(from: Lower, o: Obj, s: Slots, script: seq<Tick>, f: int)
    requires Resides(s, from, o) && o.lock == Held && FailsAt(script, 0, f) && |script| >= 2
    ensures var r := Exec(MoveCall(Fast), DropStub(from), s, script);
            r.pc == Stopped(EarlyReturn(f)) && Locks(o, Visible(r.slots), Released) && Resides(r.slots, from, Visible(r.slots).value)
  {
    hide Exec;
    var call := MoveCall(Fast);
    var p, rest := FailStep(call, DropStub(from), s, script, 0, f);
    p, rest := FailStep(call, p.pc, p.slots, rest, -1, f);
    ExecOver(call, p.pc, p.slots, rest);
  }

  /** A promotion that cannot copy dies in `Unlock`: the object is in its old pool, locked, out of reach. */
  lemma PromotionFailsToCopy(from: Lower, o: Obj, s: Slots, script: seq<Tick>, f: int)
    requires Resides(s, from, o) && o.lock == Held && FailsAt(script, 1, f) && |script| >= 3
    ensures var r := Exec(MoveCall(Fast), DropStub(from), s, script);
            r.pc == Aborted && r.slots == SetBacking(EMPTY, from, Some(o))
  {
    hide Exec;
    var call := MoveCall(Fast);
    var p, rest := FailStep(call, DropStub(from), s, script, 1, f);
    p, rest := FailStep(call, p.pc, p.slots, rest, 0, f);
    assert p == Point(Unlocking(FallOut(f)), SetBacking(EMPTY, from, Some(o)));
    p, rest := FailStep(call, p.pc, p.slots, rest, -1, f);
    ExecOver(call, p.pc, p.slots, rest);
  }

  /** A promotion that cannot remove the old copy reports the failure, but the object is in FAST and
      unlocked; the old copy stays behind, still locked. */
  lemma PromotionFailsToDropSource(from: Lower, o: Obj, s: Slots, script: seq<Tick>, f: int)
    requires Resides(s, from, o) && o.lock == Held && FailsAt(script, 2, f) && |script| >= 4
    ensures var r := Exec(MoveCall(Fast), DropStub(from), s, script);
            && r.pc == Stopped(FallOut(f)) && r.slots.cache.Full?
            && Locks(o.(tag := SaysFast), Visible(r.slots), Released) && Backing(r.slots, from) == Some(o)
  {
    hide Exec;
    var call := MoveCall(Fast);
    var p, rest := FailStep(call, DropStub(from), s, script, 2, f);
    p, rest := FailStep(call, p.pc, p.slots, rest, 1, f);
    assert p == Point(DropSource(from), SetBacking(EMPTY, from, Some(o)).(cache := Full(o.(tag := SaysFast))));
    p, rest := FailStep(call, p.pc, p.slots, rest, 0, f);
    p, rest := FailStep(call, p.pc, p.slots, rest, -1, f);
    ExecOver(call, p.pc, p.slots, rest);
  }

  /** A lateral move that cannot remove the redirect reports it and leaves the object as it was. */
  lemma LateralFailsToDropStub(from: Lower, o: Obj, s: Slots, script: seq<Tick>, f: int)
    requires Resides(s, from, o) && o.lock == Held && FailsAt(script, 0, f) && |script| >= 2
    ensures var to := Other(from);
            var r := Exec(MoveCall(to), LateralDropStub(from, to), s, script);
            r.pc == Stopped(FallOut(f)) && Locks(o, Visible(r.slots), Released) && Resides(r.slots, from, Visible(r.slots).value)
  {
    hide Exec;
    var call := MoveCall(Other(from));
    var p, rest := FailStep(call, LateralDropStub(from, Other(from)), s, script, 0, f);
    p, rest := FailStep(call, p.pc, p.slots, rest, -1, f);
    ExecOver(call, p.pc, p.slots, rest);
  }

  /** The first two operations of a lateral move, with the failure still to come. */
  lemma LateralUnderWay(from: Lower, o: Obj, s: Slots, script: seq<Tick>, k: int, f: int) returns (rest: seq<Tick>)
    requires Resides(s, from, o) && FailsAt(script, k, f) && k >= 2 && |script| >= 4
    ensures FailsAt(rest, k - 2, f) && |rest| == |script| - 2
    ensures var to := Other(from);
            Exec(MoveCall(to), LateralDropStub(from, to), s, script)
            == Exec(MoveCall(to), LateralDropSource(from, to), Slots(NoEntry, Some(o), Some(o)), rest)
  {
    hide Exec;
    var call := MoveCall(Other(from));
    var p;
    p, rest := FailStep(call, LateralDropStub(from, Other(from)), s, script, k, f);
    p, rest := FailStep(call, p.pc, p.slots, rest, k - 1, f);
  }

  /** A lateral move that cannot copy, or cannot remove the old copy, dies in `Unlock` with the name gone
      from the cache pool: one locked copy is left, or two. */
  lemma LateralFailsHalfway(from: Lower, o: Obj, s: Slots, script: seq<Tick>, k: int, f: int)
    requires Resides(s, from, o) && o.lock == Held && FailsAt(script, k, f) && 1 <= k <= 2 && |script| >= 4
    ensures var to := Other(from);
            var r := Exec(MoveCall(to), LateralDropStub(from, to), s, script);
            && r.pc == Aborted && r.slots.cache == NoEntry && Backing(r.slots, from) == Some(o)
            && Backing(r.slots, to) == if k == 1 then None else Some(o)
  {
    hide Exec;
    var to := Other(from);
    var call := MoveCall(to);
    var p, rest;
    if k == 1 {
      p, rest := FailStep(call, LateralDropStub(from, to), s, script, 1, f);
      p, rest := FailStep(call, p.pc, p.slots, rest, 0, f);
      p, rest := FailStep(call, p.pc, p.slots, rest, -1, f);
    } else {
      rest := LateralUnderWay(from, o, s, script, 2, f);
      p, rest := FailStep(call, LateralDropSource(from, to), Slots(NoEntry, Some(o), Some(o)), rest, 0, f);
      p, rest := FailStep(call, p.pc, p.slots, rest, -1, f);
    }
    ExecOver(call, p.pc, p.slots, rest);
  }

  /** A lateral move that fails after that comes back without unlocking: the only copy is in its new pool
      with the lock set, behind no entry or behind the empty dummy object. */
  lemma LateralFailsLate(from: Lower, o: Obj, s: Slots, script: seq<Tick>, k: int, f: int)
    requires Resides(s, from, o) && o.lock == Held && FailsAt(script, k, f) && 3 <= k <= 4 && |script| >= 5
    ensures var to := Other(from);
            var r := Exec(MoveCall(to), LateralDropStub(from, to), s, script);
            && r.pc == Stopped(FallOut(f)) && Backing(r.slots, to) == Some(o) && Backing(r.slots, from) == None
            && if k == 3 then r.slots.cache == NoEntry
               else r.slots.cache.Full? && r.slots.cache.obj.data == "" && r.slots.cache.obj.tag == Unset
  {
    hide Exec;
    var to := Other(from);
    var call := MoveCall(to);
    var rest := LateralUnderWay(from, o, s, script, k, f);
    var p;
    p, rest := FailStep(call, LateralDropSource(from, to), Slots(NoEntry, Some(o), Some(o)), rest, k - 2, f);
    assert p == Point(LateralDummy(to), SetBacking(EMPTY, to, Some(o)));
    p, rest := FailStep(call, p.pc, p.slots, rest, k - 3, f);
    if k == 4 {
      p, rest := FailStep(call, p.pc, p.slots, rest, 0, f);
    }
    ExecOver(call, p.pc, p.slots, rest);
  }

  lemma NoneLeft(script: seq<Tick>, k: int, f: int)
    requires FailsAt(script, k, f) && k < 0
    ensures Quiet(script)
  {
  }

  /** `Unlock` fails, and the client dies. */
  lemma UnlockFails(call: Call, exit: Exit, s: Slots, script: seq<Tick>, f: int)
    requires FailsAt(script, 0, f) && script != []
    ensures Exec(call, Unlocking(exit), s, script) == Run(Aborted, s, script[1..])
  {
    hide Exec;
    var p, rest := FailStep(call, Unlocking(exit), s, script, 0, f);
    ExecOver(call, p.pc, p.slots, rest);
  }

  /** A failed copy of a demotion is reported as success, and the object stays; a failed redirect is tried
      again; a failed unlock kills the client. */
  lemma DemotionFails(to: Lower, o: Obj, s: Slots, script: seq<Tick>, k: int, f: int)
    requires Resides(s, Fast, o) && o.lock == Held && FailsAt(script, k, f) && 0 <= k <= 2 && |script| >= 5
    requires ThroughInt(o.version) == o.version
    ensures var r := Exec(MoveCall(to), Demote(to), s, script);
            match k
            case 0 => r.pc == Stopped(FallOut(0)) && Locks(o, Visible(r.slots), Released) && Resides(r.slots, Fast, Visible(r.slots).value)
            case 1 => Arrived(r, to, o, LabelLeft(s, Fast, to))
            case _ => r.pc == Aborted && Resides(r.slots, to, o)
  {
    hide Exec;
    var call := MoveCall(to);
    var p, rest := FailStep(call, Demote(to), s, script, k, f);
    if k == 0 {
      p, rest := FailStep(call, p.pc, p.slots, rest, -1, f);
      ExecOver(call, p.pc, p.slots, rest);
    } else {
      p, rest := FailStep(call, p.pc, p.slots, rest, k - 1, f);
      if k == 1 {
        NoneLeft(rest, -1, f);
        DemotionArrives(to, o, p.slots, rest);
      } else {
        UnlockFails(call, FallOut(0), p.slots, rest, f);
      }
    }
  }

  lemma PromotionFailsToUnlock(from: Lower, o: Obj, s: Slots, script: seq<Tick>, f: int)
    requires Resides(s, from, o) && o.lock == Held && FailsAt(script, 3, f) && |script| >= 4
    ensures var r := Exec(MoveCall(Fast), DropStub(from), s, script);
            r.pc == Aborted && Resides(r.slots, Fast, o.(tag := SaysFast))
  {
    hide Exec;
    var call := MoveCall(Fast);
    var p, rest := FailStep(call, DropStub(from), s, script, 3, f);
    p, rest := FailStep(call, p.pc, p.slots, rest, 2, f);
    assert p == Point(DropSource(from), SetBacking(EMPTY, from, Some(o)).(cache := Full(o.(tag := SaysFast))));
    p, rest := FailStep(call, p.pc, p.slots, rest, 1, f);
    UnlockFails(call, FallOut(0), p.slots, rest, f);
  }

  lemma LateralFailsToUnlock(from: Lower, o: Obj, s: Slots, script: seq<Tick>, f: int)
    requires Resides(s, from, o) && o.lock == Held && FailsAt(script, 5, f) && |script| >= 6
    ensures var to := Other(from);
            var r := Exec(MoveCall(to), LateralDropStub(from, to), s, script);
            r.pc == Aborted && Resides(r.slots, to, o)
  {
    hide Exec;
    var to := Other(from);
    var call := MoveCall(to);
    var rest := LateralUnderWay(from, o, s, script, 5, f);
    var p;
    p, rest := FailStep(call, LateralDropSource(from, to), Slots(NoEntry, Some(o), Some(o)), rest, 3, f);
    assert p == Point(LateralDummy(to), SetBacking(EMPTY, to, Some(o)));
    p, rest := FailStep(call, p.pc, p.slots, rest, 2, f);
    assert p.pc == LateralRedirect(to) && p.slots.cache.Full?;
    p, rest := FailStep(call, p.pc, p.slots, rest, 1, f);
    UnlockFails(call, FallOut(0), p.slots, rest, f);
  }

  // ---------------------------------------------------------------- the whole of `Move`

  /** The operations of a move that nothing disturbs. */
  function Operations(home: Tier, tier: Tier): nat {
    if home == tier then 3 else if tier == Fast then 6 else if home == Fast then 5 else 8
  }

  /** How a move of an object ends when one of its operations fails. */
  datatype Fate =
    | Arrives
      // dead in `Lock`, nothing touched
    | DiesOutside
      // dead; the object can be read in `at` and stays locked
    | DiesLocked(at: Tier)
      // dead; no entry, and a locked copy in each of `pools`
    | DiesHidden(pools: set<Lower>)
      // over; the object is where it was, unlocked
    | Stays(exit: Exit)
      // over; the object is in FAST, unlocked, and its old copy is still there
    | Doubles(r: int)
      // over; no entry, and the only copy is in its new pool, locked
    | EndsHidden(r: int)
      // over; an empty object hides the only copy, which is in its new pool, locked
    | EndsBehindDummy(r: int)

  /** The fate of a move whose operation number `k` fails with `f`. */
  function FateOf(home: Tier, tier: Tier, k: nat, f: int): Fate {
    if k == 0 then (if f == -125 then Arrives else DiesOutside)
    else if k == 1 then DiesLocked(home)
    else if home == tier then DiesLocked(home)
    else if tier == Fast then
      match k
      case 2 => Stays(EarlyReturn(f))
      case 3 => DiesHidden({home})
      case 4 => Doubles(f)
      case _ => DiesLocked(Fast)
    else if home == Fast then
      match k
      case 2 => Stays(FallOut(0))
      case 3 => Arrives
      case _ => DiesLocked(tier)
    else
      match k
      case 2 => Stays(FallOut(f))
      case 3 => DiesHidden({home})
      case 4 => DiesHidden({home, tier})
      case 5 => EndsHidden(f)
      case 6 => EndsBehindDummy(f)
      case _ => DiesLocked(tier)
  }

  predicate Meets(r: Run, fate: Fate, s: Slots, home: Tier, tier: Tier, o: Obj) {
    match fate
    case Arrives => Arrived(r, tier, o, LabelLeft(s, home, tier))
    case DiesOutside => r.pc == Aborted && r.slots == s
    case DiesLocked(at) =>
      && r.pc == Aborted && Locks(if at == Fast then o.(tag := SaysFast) else o, Visible(r.slots), Held)
      && Resides(r.slots, at, Visible(r.slots).value)
    case DiesHidden(pools) =>
      && r.pc == Aborted && r.slots.cache == NoEntry
      && (forall t: Lower :: if t in pools then Locks(o, Backing(r.slots, t), Held) else Backing(r.slots, t) == None)
    case Stays(exit) =>
      && r.pc == Stopped(exit) && Locks(o, Visible(r.slots), Released) && Resides(r.slots, home, Visible(r.slots).value)
    case Doubles(f) =>
      && r.pc == Stopped(FallOut(f)) && r.slots.cache.Full? && Locks(o.(tag := SaysFast), Visible(r.slots), Released)
      && home != Fast && Locks(o, Backing(r.slots, home), Held)
    case EndsHidden(f) =>
      && r.pc == Stopped(FallOut(f)) && r.slots.cache == NoEntry
      && home != Fast && tier != Fast && Locks(o, Backing(r.slots, tier), Held) && Backing(r.slots, home) == None
    case EndsBehindDummy(f) =>
      && r.pc == Stopped(FallOut(f))
      && r.slots.cache.Full? && r.slots.cache.obj.data == "" && r.slots.cache.obj.tag == Unset
      && home != Fast && tier != Fast && Locks(o, Backing(r.slots, tier), Held) && Backing(r.slots, home) == None
  }

  lemma PromotionFails(from: Lower, o: Obj, s: Slots, script: seq<Tick>, k: int, f: int)
    requires Resides(s, from, o) && o.lock == Held && FailsAt(script, k, f) && 0 <= k <= 3 && |script| >= 4
    ensures Meets(Exec(MoveCall(Fast), DropStub(from), s, script), FateOf(from, Fast, k + 2, f), s, from, Fast, o)
  {
    hide Exec;
    match k
    case 0 => PromotionFailsToDropStub(from, o, s, script, f);
    case 1 => PromotionFailsToCopy(from, o, s, script, f);
    case 2 => PromotionFailsToDropSource(from, o, s, script, f);
    case _ => PromotionFailsToUnlock(from, o, s, script, f);
  }

  lemma LateralFails(from: Lower, o: Obj, s: Slots, script: seq<Tick>, k: int, f: int)
    requires Resides(s, from, o) && o.lock == Held && FailsAt(script, k, f) && 0 <= k <= 5 && |script| >= 6
    ensures var to := Other(from);
            Meets(Exec(MoveCall(to), LateralDropStub(from, to), s, script), FateOf(from, to, k + 2, f), s, from, to, o)
  {
    hide Exec;
    if k == 0 {
      LateralFailsToDropStub(from, o, s, script, f);
    } else if k <= 2 {
      LateralFailsHalfway(from, o, s, script, k, f);
    } else if k <= 4 {
      LateralFailsLate(from, o, s, script, k, f);
    } else {
      LateralFailsToUnlock(from, o, s, script, f);
    }
  }

  /** `Lock` and `GetLocation` with the failure still to come. */
  lemma FoundBefore(tier: Tier, home: Tier, o: Obj, s: Slots, script: seq<Tick>, k: int, f: int)
    returns (held: Obj, t: Slots, rest: seq<Tick>)
    requires FailsAt(script, k, f) && k >= 2 && |script| >= 8
    requires Resides(s, home, o) && o.tag == TagOf(home) && o.lock != Held
    ensures held == o.(lock := Held, version := o.version + 1 + script[0].jump)
    ensures Resides(t, home, held) && FailsAt(rest, k - 2, f) && |rest| >= 6
    ensures Exec(MoveCall(tier), Locking, s, script) == Exec(MoveCall(tier), Branch(tier, o.tag), t, rest)
  {
    hide Exec;
    var call := MoveCall(tier);
    held := o.(lock := Held, version := o.version + 1 + script[0].jump);
    var p;
    p, rest := FailStep(call, Locking, s, script, k, f);
    assert p.pc == Locating;
    p, rest := FailStep(call, p.pc, p.slots, rest, k - 1, f);
    t := p.slots;
  }

  /** A failure of `Lock` or of `GetLocation`. */
  lemma FailsAtOnce(tier: Tier, home: Tier, o: Obj, s: Slots, script: seq<Tick>, k: int, f: int)
    requires FailsAt(script, k, f) && 0 <= k <= 1 && |script| >= 9
    requires Resides(s, home, o) && o.tag == TagOf(home) && o.lock != Held
    requires k == 0 && home == Fast && tier != Fast ==> ThroughInt(o.version + 1 + script[1].jump) == o.version + 1 + script[1].jump
    ensures Meets(Exec(MoveCall(tier), Locking, s, script), FateOf(home, tier, k, f), s, home, tier, o)
  {
    hide Exec;
    var call := MoveCall(tier);
    var p, rest := FailStep(call, Locking, s, script, k, f);
    if k == 0 && f == ECANCELED {
      NoneLeft(rest, -1, f);
      MoveIsCorrectIff(s, home, tier, o, rest);
    } else {
      if k == 1 {
        assert p.pc == Locating;
        p, rest := FailStep(call, p.pc, p.slots, rest, 0, f);
      }
      ExecOver(call, p.pc, p.slots, rest);
    }
  }

  /** A failure after those two. */
  lemma FailsLater(tier: Tier, home: Tier, o: Obj, s: Slots, script: seq<Tick>, k: int, f: int)
    requires FailsAt(script, k, f) && 0 <= k < Operations(home, tier) - 2 && |script| >= 6
    requires Resides(s, home, o) && o.lock == Held && (home == Fast ==> o.tag == SaysFast)
    requires home == Fast && tier != Fast ==> ThroughInt(o.version) == o.version
    ensures Meets(Exec(MoveCall(tier), Branch(tier, TagOf(home)), s, script), FateOf(home, tier, k + 2, f), s, home, tier, o)
  {
    hide Exec;
    if home == tier {
      UnlockFails(MoveCall(tier), FallOut(0), s, script, f);
    } else if tier == Fast {
      PromotionFails(home, o, s, script, k, f);
    } else if home == Fast {
      DemotionFails(tier, o, s, script, k, f);
    } else {
      LateralFails(home, o, s, script, k, f);
    }
  }

  lemma MeetsForHeld(r: Run, k: nat, f: int, s: Slots, t: Slots, home: Tier, tier: Tier, o: Obj, held: Obj)
    requires k >= 2 && Meets(r, FateOf(home, tier, k, f), t, home, tier, held)
    requires held == o.(lock := held.lock, version := held.version)
    ensures Meets(r, FateOf(home, tier, k, f), s, home, tier, o)
  {
  }

  /** What one failure does to `Move`, for all nine tier pairs and every operation that can fail.  (A
      demotion is taken with a version that survives the `int`.) */
  lemma OneFailure(tier: Tier, home: Tier, o: Obj, s: Slots, script: seq<Tick>, k: int, f: int)
    requires FailsAt(script, k, f) && 0 <= k < Operations(home, tier) && |script| >= 9
    requires Resides(s, home, o) && o.tag == TagOf(home) && o.lock != Held
    requires home == Fast && tier != Fast ==> forall i :: 0 <= i <= 1 ==>
               ThroughInt(o.version + 1 + script[i].jump) == o.version + 1 + script[i].jump
    ensures Meets(Exec(MoveCall(tier), Start(MoveCall(tier)), s, script), FateOf(home, tier, k, f), s, home, tier, o)
  {
    hide Exec, Meets, FateOf;
    if k <= 1 {
      FailsAtOnce(tier, home, o, s, script, k, f);
    } else {
      var held, t, rest := FoundBefore(tier, home, o, s, script, k, f);
      FailsLater(tier, home, held, t, rest, k - 2, f);
      var r := Exec(MoveCall(tier), Branch(tier, o.tag), t, rest);
      MeetsForHeld(r, k, f, s, t, home, tier, o, held);
    }
  }

  // ---------------------------------------------------------------- `Create` and `Delete`

  /** What a `Create` reports and leaves when its operation number `k` fails: nothing has changed, or the
      object is in its pool and the cache pool is as it was, or there is an empty object in the way, which
      is the object itself if the name was already redirected to that pool. */
  lemma CreateFails(t: Tier, d: Data, s: Slots, script: seq<Tick>, k: int, f: int)
    requires FailsAt(script, k, f) && 0 <= k < (if t == Fast then 1 else 3) && |script| >= 3
    ensures var r := Exec(CreateCall(t, d), Start(CreateCall(t, d)), s, script);
            && r.pc == Stopped(FallOut(f))
            && (k == 0 ==> r.slots == s)
            && (k > 0 ==>
                  && t != Fast && Backing(r.slots, t).Some? && Backing(r.slots, t).value.tag == TagOf(t)
                  && (k == 1 ==> r.slots.cache == s.cache && Backing(r.slots, Other(t)) == Backing(s, Other(t)))
                  && (k == 2 ==> Visible(r.slots).Some? && Visible(r.slots).value.data == "" && (r.slots.cache.Stub? <==> s.cache.Stub?))
                  && Backing(r.slots, t).value.data == if k == 2 && s.cache.Stub? && s.cache.target == t then "" else d)
  {
    hide Exec;
    var call := CreateCall(t, d);
    var p, rest := FailStep(call, Start(call), s, script, k, f);
    if k > 0 {
      p, rest := FailStep(call, p.pc, p.slots, rest, k - 1, f);
    }
    if k > 1 {
      p, rest := FailStep(call, p.pc, p.slots, rest, k - 2, f);
    }
    ExecOver(call, p.pc, p.slots, rest);
  }

  /** What a `Delete` of a name that shows an object reports and leaves when its operation number `k` fails:
      an early return with nothing changed, or, with the object gone, the failure, unless that is ENOENT,
      which counts as success. */
  lemma DeleteFails(s: Slots, script: seq<Tick>, k: int, f: int)
    requires FailsAt(script, k, f) && 0 <= k <= 1 && |script| >= 2 && Visible(s).Some?
    ensures var r := Exec(DeleteCall, Start(DeleteCall), s, script);
            if k == 0 then r.pc == Stopped(EarlyReturn(f)) && r.slots == s
            else
              && r.pc == Stopped(FallOut(if f == -2 then 0 else f)) && Visible(r.slots) == None
              && (if s.cache.Stub? then r.slots.cache == s.cache else r.slots.cache == NoEntry)
              && forall t: Lower ::
                   Backing(r.slots, t) == if s.cache.Stub? && s.cache.target == t then None else Backing(s, t)
  {
    hide Exec;
    var p, rest := FailStep(DeleteCall, DeleteTarget, s, script, k, f);
    if k > 0 {
      p, rest := FailStep(DeleteCall, p.pc, p.slots, rest, k - 1, f);
    }
    ExecOver(DeleteCall, p.pc, p.slots, rest);
  }
}
