/** How long a demotion from FAST goes on: its `copy_from` rounds and when it ends at all. */
module Demotion {
  import opened Prelude
  import opened Store
  import opened MoverMachine
  import opened Crowd

  predicate Disturbed(t: Tick) {
    t.writes != [] || t.fault != 0
  }

  function Disturbances(script: seq<Tick>): nat {
    if script == [] then 0 else (if Disturbed(script[0]) then 1 else 0) + Disturbances(script[1..])
  }

  /** The number of `copy_from` operations that a run issues for a demotion. */
  function Rounds(call: Call, pc: Pc, s: Slots, script: seq<Tick>): nat
    decreases |script|
  {
    if script == [] || Ended(pc) then 0
    else
      var t := script[0];
      var p := Step(call, pc, Interfere(s, t.writes, t.jump), t.fault, t.jump);
      (if pc.Demote? then 1 else 0) + Rounds(call, p.pc, p.slots, script[1..])
  }

  /** The version `v` of a full object survives the `int` whatever part of the script has been written to it. */
  predicate AllSurvive(v: nat, script: seq<Tick>)
    decreases |script|
  {
    script != [] ==>
      var next := v + |script[0].writes| * (1 + script[0].jump);
      ThroughInt(next) == next && AllSurvive(next, script[1..])
  }

  /** How far the plain writes of a script can push a version. */
  function Growth(script: seq<Tick>): nat {
    if script == [] then 0 else |script[0].writes| * (1 + script[0].jump) + Growth(script[1..])
  }

  predicate InCache(s: Slots) {
    s.cache.Full? && s.cache.obj.lock == Held && s.cache.obj.tag == SaysFast
  }

  lemma {:induction false} WritesStayInCache(s: Slots, writes: seq<Data>, jump: nat)
    requires InCache(s)
    ensures var t := Interfere(s, writes, jump);
            && InCache(t) && t.storage == s.storage && t.archive == s.archive
            && t.cache.obj.version == s.cache.obj.version + |writes| * (1 + jump)
    decreases |writes|
  {
    if writes != [] {
      WritesStayInCache(WriteThrough(s, writes[0], None, jump), writes[1..], jump);
    }
  }

  lemma SmallVersionsPass(v: nat)
    requires v < TWO_31
    ensures ThroughInt(v) == v
  {
  }

  /** Versions that stay below 2^31 survive. */
  lemma {:induction false} SmallVersionsSurvive(v: nat, script: seq<Tick>)
    requires v + Growth(script) < TWO_31
    ensures AllSurvive(v, script)
    decreases |script|
  {
    if script != [] {
      var next := v + |script[0].writes| * (1 + script[0].jump);
      SmallVersionsPass(next);
      SmallVersionsSurvive(next, script[1..]);
    }
  }

  /** A demotion copies at most once more often than it is disturbed, and it has ended by the time the
      script has two operations for each of those rounds and one for the unlock: every retry is paid for
      by a write or a fault between a copy and its redirect. */
  lemma {:induction false} DemotionIsBounded(call: Call, to: Lower, s: Slots, script: seq<Tick>)
    requires call == MoveCall(to) && InCache(s)
    requires AllSurvive(s.cache.obj.version, script)
    ensures Rounds(call, Demote(to), s, script) <= 1 + Disturbances(script)
    ensures |script| >= 2 * (1 + Disturbances(script)) + 1 ==> Ended(Exec(call, Demote(to), s, script).pc)
    decreases |script|
  {
    if script != [] {
      var t := script[0];
      var s0 := Interfere(s, t.writes, t.jump);
      WritesStayInCache(s, t.writes, t.jump);
      var p := Step(call, Demote(to), s0, t.fault, t.jump);
      if t.fault != 0 {
        assert p.pc == Unlocking(FallOut(0));
        UnlockEnds(call, FallOut(0), p.slots, script[1..]);
      } else {
        assert p.pc == Install(to, s0.cache.obj.version) && p.slots.cache == s0.cache;
        InstallIsBounded(call, to, p.slots, script[1..]);
      }
    }
  }

  lemma {:induction false} InstallIsBounded(call: Call, to: Lower, s: Slots, script: seq<Tick>)
    requires call == MoveCall(to) && InCache(s)
    requires Backing(s, to).Some? && Backing(s, to).value.lock == Held
    requires ThroughInt(s.cache.obj.version) == s.cache.obj.version && AllSurvive(s.cache.obj.version, script)
    ensures var pc := Install(to, s.cache.obj.version);
            && Rounds(call, pc, s, script) <= Disturbances(script)
            && (|script| >= 2 * Disturbances(script) + 2 ==> Ended(Exec(call, pc, s, script).pc))
    decreases |script|
  {
    if script != [] {
      var t := script[0];
      var v := s.cache.obj.version;
      var s0 := Interfere(s, t.writes, t.jump);
      WritesStayInCache(s, t.writes, t.jump);
      var p := Step(call, Install(to, v), s0, t.fault, t.jump);
      if Disturbed(t) {
        assert t.writes != [] ==> |t.writes| * (1 + t.jump) >= 1;
        assert p.pc == Demote(to) && p.slots == s0;
        DemotionIsBounded(call, to, s0, script[1..]);
      } else {
        assert p.pc == Unlocking(FallOut(0));
        UnlockEnds(call, FallOut(0), p.slots, script[1..]);
      }
    }
  }

  lemma UnlockEnds(call: Call, exit: Exit, s: Slots, script: seq<Tick>)
    ensures script != [] ==> Ended(Exec(call, Unlocking(exit), s, script).pc)
    ensures Rounds(call, Unlocking(exit), s, script) == 0
  {
    if script != [] {
      var t := script[0];
      var p := Step(call, Unlocking(exit), Interfere(s, t.writes, t.jump), t.fault, t.jump);
      assert Ended(p.pc);
      assert Exec(call, p.pc, p.slots, script[1..]).pc == p.pc;
    }
  }

  // ---------------------------------------------------------------- when it ends at all

  predicate Quiet(script: seq<Tick>) {
    forall t :: t in script ==> !Disturbed(t)
  }

  /** A demotion that nothing disturbs ends exactly when the version it copied, squeezed through an
      `int`, is the version of the cache entry.  If it is not, the demotion copies for ever, and all the
      while the object stays as it is, with the lock held. */
  lemma {:induction false} DemotionEndsIff(call: Call, to: Lower, s: Slots, script: seq<Tick>)
    requires call == MoveCall(to) && LegibleAndHeld(s) && Visible(s).value.tag == SaysFast
    requires Quiet(script) && |script| >= 3
    ensures var r := Exec(call, Demote(to), s, script);
            && (Ended(r.pc) <==> ThroughInt(Visible(s).value.version) == EntryVersion(s.cache))
            && (!Ended(r.pc) ==> Visible(r.slots) == Visible(s) && r.slots.cache == s.cache)
    decreases |script|
  {
    var v := Visible(s).value.version;
    var p := Step(call, Demote(to), s, 0, script[0].jump);
    assert script[0] in script && script[1] in script && script[2] in script;
    assert p.pc == Install(to, v) && p.slots.cache == s.cache && Visible(p.slots) == Visible(s);
    var rest := script[1..];
    var q := Step(call, p.pc, p.slots, 0, rest[0].jump);
    var last := rest[1..];
    assert rest[0] == script[1] && last[0] == script[2];
    assert Exec(call, Demote(to), s, script) == Exec(call, q.pc, q.slots, last) by {
      assert Exec(call, Demote(to), s, script) == Exec(call, p.pc, p.slots, rest);
    }
    if ThroughInt(v) == EntryVersion(s.cache) {
      UnlockEnds(call, FallOut(0), q.slots, last);
    } else {
      assert q.pc == Demote(to) && q.slots == p.slots;
      SpinsFor(call, to, q.slots, last);
    }
  }

  lemma {:induction false} SpinsFor(call: Call, to: Lower, s: Slots, script: seq<Tick>)
    requires call == MoveCall(to) && Visible(s).Some? && s.cache != NoEntry
    requires ThroughInt(Visible(s).value.version) != EntryVersion(s.cache)
    requires Quiet(script)
    ensures var r := Exec(call, Demote(to), s, script);
            !Ended(r.pc) && Visible(r.slots) == Visible(s) && r.slots.cache == s.cache
    decreases |script|
  {
    if |script| >= 2 {
      var v := Visible(s).value.version;
      assert script[0] in script && script[1] in script;
      var p := Step(call, Demote(to), s, 0, script[0].jump);
      var rest := script[1..];
      assert rest[0] == script[1];
      assert p.pc == Install(to, v) && p.slots.cache == s.cache && Visible(p.slots) == Visible(s);
      var q := Step(call, p.pc, p.slots, 0, rest[0].jump);
      assert q.pc == Demote(to) && q.slots == p.slots;
      SpinsFor(call, to, q.slots, rest[1..]);
    } else if |script| == 1 {
      assert script[0] in script;
      assert script[1..] == [];
    }
  }

  /** Which 64-bit versions survive the `int`. */
  lemma ThroughIntExact(v: nat)
    requires v < 18446744073709551616
    ensures ThroughInt(v) == v <==> v < 2147483648 || v >= 18446744073709551616 - 2147483648
    ensures ThroughInt(v) % 4294967296 == v % 4294967296
  {
  }

  // ---------------------------------------------------------------- what a demotion reports

  predicate Demoting(pc: Pc) {
    pc.Demote? || pc.Install? || pc == Unlocking(FallOut(0)) || pc == Stopped(FallOut(0)) || pc.Aborted?
  }

  /** Whatever goes wrong, a demotion from FAST that comes back reports 0: the variable that holds its
      failures shadows the one that is reported. */
  lemma {:induction false} DemotionReportsZero(tier: Tier, pc: Pc, s: Slots, script: seq<Tick>)
    requires Demoting(pc)
    ensures Demoting(Exec(MoveCall(tier), pc, s, script).pc)
    decreases |script|
  {
    if script != [] && !Ended(pc) {
      var t := script[0];
      var p := Step(MoveCall(tier), pc, Interfere(s, t.writes, t.jump), t.fault, t.jump);
      DemotionReportsZero(tier, p.pc, p.slots, script[1..]);
    }
  }

  /** In particular it reports 0 when its copy fails and the object has not moved at all. */
  lemma FailedCopyReportsZero(tier: Tier, to: Lower, s: Slots, script: seq<Tick>)
    requires InCache(s) && |script| >= 2
    requires script[0].fault != 0 && script[0].writes == [] && !Disturbed(script[1])
    ensures var r := Exec(MoveCall(tier), Demote(to), s, script);
            && r.pc == Stopped(FallOut(0)) && r.slots.cache.Full?
            && r.slots.storage == s.storage && r.slots.archive == s.archive
            && r.slots.cache.obj.data == s.cache.obj.data && r.slots.cache.obj.lock == Released
  {
    var call := MoveCall(tier);
    var p := Step(call, Demote(to), s, script[0].fault, script[0].jump);
    assert p == Point(Unlocking(FallOut(0)), s);
    var rest := script[1..];
    var q := Step(call, p.pc, p.slots, 0, rest[0].jump);
    assert Exec(call, q.pc, q.slots, rest[1..]) == Run(q.pc, q.slots, rest[1..]);
    assert Exec(call, p.pc, p.slots, rest) == Exec(call, q.pc, q.slots, rest[1..]);
  }
}
