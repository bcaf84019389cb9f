/** The mover's methods as the program writes them, against a store that changes under their hands.

    `script` is what the surroundings will do, one tick for each store operation.  A call that uses the
    script up has been observed halfway; a call whose assertion fails is dead.  Each method is proved to
    go exactly where the machine of the same call goes, so whatever is proved of the machine holds here.
 */
module Mover {
  import opened Prelude
  import opened Store
  import opened MoverMachine

  type Name = string

  datatype Outcome<+T> = Got(value: T) | Died | Halfway {
    predicate IsFailure() {
      !Got?
    }

    function PropagateFailure<U>(): Outcome<U>
      requires !Got?
    {
      if Died? then Died else Halfway
    }

    function Extract(): T
      requires Got?
    {
      value
    }
  }

  /** What a completed operation reports: its return value, and the label and version of the object
      that the cache pool showed when it ran. */
  datatype Answer = Answer(r: int, tag: Tag, version: nat)

  class ObjectMover {
    var store: map<Name, Slots>
    var script: seq<Tick>

    /** The call under way: where it has got to, where its machine goes from there, what the rest of
        the store holds, and the slots that its last operation met. */
    ghost var call: Call
    ghost var at: Pc
    ghost var goal: Run
    ghost var others: map<Name, Slots>
    ghost var met: Slots

    constructor (store: map<Name, Slots>, script: seq<Tick>)
      ensures this.store == store && this.script == script
    {
      this.store := store;
      this.script := script;
      this.call := DeleteCall;
      this.at := Aborted;
      this.goal := Run(Aborted, EMPTY, []);
      this.others := map[];
      this.met := EMPTY;
    }

    function Of(name: Name): Slots
      reads this
    {
      if name in store then store[name] else EMPTY
    }

    /** The call under way gets where its machine gets, and leaves other names alone. */
    ghost predicate OnCourse(name: Name)
      reads this
    {
      Exec(call, at, Of(name), script) == goal && store - {name} == others
    }

    ghost method Begin(c: Call, name: Name)
      modifies `call, `at, `goal, `others
      ensures call == c && at == Start(c) && OnCourse(name)
      ensures goal == Exec(c, Start(c), Of(name), script) && others == store - {name}
    {
      call, at, others := c, Start(c), store - {name};
      goal := Exec(c, Start(c), Of(name), script);
    }

    /** What a call that did not come back leaves. */
    ghost predicate Stranded<T>(o: Outcome<T>)
      reads this
    {
      (o == Died ==> at == Aborted) && (o == Halfway ==> script == [] && !Ended(at))
    }

    method AioOperate(name: Name, op: Operation) returns (o: Outcome<Answer>)
      requires OnCourse(name)
      requires !Ended(at) && op == Issues(call, at)
      modifies `store, `script, `at, `met
      ensures OnCourse(name) && Stranded(o) && o != Died
      ensures o.Got? ==>
        && |script| < |old(script)| && at == After(call, old(at), met, o.value.r)
        && (o.value.r == 0 && (op.GetTag? || op.CopyFromCache?) ==> Visible(met).Some?)
        && (Visible(met).Some? ==> o.value.tag == Visible(met).value.tag && o.value.version == Visible(met).value.version)
    {
      if script == [] {
        return Halfway;
      }
      var t := script[0];
      var s := Interfere(Of(name), t.writes, t.jump);
      var reply := Perform(op, s, t.fault, t.jump);
      var seen := Visible(s);
      o := Got(Answer(reply.r, if seen.Some? then seen.value.tag else Unset, if seen.Some? then seen.value.version else 0));
      script := script[1..];
      store := store[name := reply.slots];
      met := s;
      at := After(call, at, s, reply.r);
      assert store - {name} == old(store) - {name};
    }

    method Lock(name: Name) returns (o: Outcome<()>)
      requires OnCourse(name)
      requires at == Locking
      modifies `store, `script, `at, `met
      ensures OnCourse(name) && Stranded(o)
      ensures o.Got? ==> at == Locating
    {
      hide OnCourse, Exec, Apply, Visible;
      var r := ECANCELED;
      while r == ECANCELED
        invariant OnCourse(name)
        invariant at == if r == ECANCELED then Locking else if r == 0 then Locating else Aborted
        decreases |script|, r == ECANCELED
      {
        var a :- AioOperate(name, CmpSetLock(false));
        r := a.r;
      }
      if r != 0 {
        return Died;
      }
      o := Got(());
    }

    method Unlock(name: Name) returns (o: Outcome<()>)
      requires OnCourse(name)
      requires at.Unlocking?
      modifies `store, `script, `at, `met
      ensures OnCourse(name) && Stranded(o)
      ensures o.Got? ==> at == Stopped(old(at).exit)
    {
      hide OnCourse, Exec, Apply, Visible;
      var a :- AioOperate(name, CmpSetLock(true));
      if a.r != 0 {
        return Died;
      }
      o := Got(());
    }

    method GetLocation(name: Name) returns (o: Outcome<Tier>)
      requires OnCourse(name)
      requires at == Locating && call.MoveCall?
      modifies `store, `script, `at, `met
      ensures OnCourse(name) && Stranded(o)
      ensures o.Got? ==> at == Branch(call.tier, TagOf(o.value))
      ensures o.Got? ==> Visible(met).Some? && Visible(met).value.tag == match o.value
        case Fast => SaysFast
        case Slow => SaysSlow
        case Archive => SaysArchive
    {
      hide OnCourse, Exec, Apply, Visible;
      var a :- AioOperate(name, GetTag);
      if a.r != 0 {
        return Died;
      }
      if a.tag == SaysFast {
        o := Got(Fast);
      } else if a.tag == SaysSlow {
        o := Got(Slow);
      } else if a.tag == SaysArchive {
        o := Got(Archive);
      } else {
        o := Died;
      }
    }

    /** `Move` goes where the machine of `MoveCall(tier)` goes, and touches no other name. */
    method Move(tier: Tier, name: Name) returns (o: Outcome<Exit>)
      modifies this
      ensures Stranded(o) && (o.Got? ==> at == Stopped(o.value))
      ensures Run(at, Of(name), script) == Exec(MoveCall(tier), Start(MoveCall(tier)), old(Of(name)), old(script))
      ensures store - {name} == old(store) - {name}
    {
      Begin(MoveCall(tier), name);
      if tier == Fast {
        o := MoveUp(name);
      } else {
        o := MoveDown(tier, name);
      }
    }

    method MoveUp(name: Name) returns (o: Outcome<Exit>)
      requires OnCourse(name)
      requires at == Locking && call == MoveCall(Fast)
      modifies `store, `script, `at, `met
      ensures OnCourse(name) && Stranded(o) && (o.Got? ==> at == Stopped(o.value))
    {
      hide OnCourse, Exec, Apply, Visible;
      var _ :- Lock(name);
      var current :- GetLocation(name);
      if current == Fast {
        var _ :- Unlock(name);
        return Got(FallOut(0));
      }
      o := PromoteFrom(current, name);
    }

    method PromoteFrom(current: Lower, name: Name) returns (o: Outcome<Exit>)
      requires OnCourse(name)
      requires at == DropStub(current)
      modifies `store, `script, `at, `met
      ensures OnCourse(name) && Stranded(o) && (o.Got? ==> at == Stopped(o.value))
    {
      hide OnCourse, Exec, Apply, Visible;
      var a :- AioOperate(name, RemoveIgnoringRedirect);
      assert at == if a.r == 0 then Promote(current) else Unlocking(EarlyReturn(a.r));
      if a.r != 0 {
        var _ :- Unlock(name);
        return Got(EarlyReturn(a.r));
      }
      // from the last operation to the next, no reader finds the name
      a :- AioOperate(name, CopyToCache(current));
      assert at == if a.r == 0 then DropSource(current) else Unlocking(FallOut(a.r));
      if a.r != 0 {
        var _ :- Unlock(name);
        return Got(FallOut(a.r));
      }
      a :- AioOperate(name, RemoveFrom(current));
      assert at == Unlocking(FallOut(a.r));
      var _ :- Unlock(name);
      o := Got(FallOut(a.r));
    }

    method MoveDown(tier: Lower, name: Name) returns (o: Outcome<Exit>)
      requires OnCourse(name)
      requires at == Locking && call == MoveCall(tier)
      modifies `store, `script, `at, `met
      ensures OnCourse(name) && Stranded(o) && (o.Got? ==> at == Stopped(o.value))
    {
      hide OnCourse, Exec, Apply, Visible;
      var _ :- Lock(name);
      var current :- GetLocation(name);
      if current == tier {
        var _ :- Unlock(name);
        return Got(FallOut(0));
      }
      if current == Fast {
        var installed := false;
        while !installed
          invariant OnCourse(name)
          invariant at == if installed then Unlocking(FallOut(0)) else Demote(tier)
          decreases |script|, !installed
        {
          var a :- AioOperate(name, CopyFromCache(tier));
          assert at == if a.r == 0 then Install(tier, a.version) else Unlocking(FallOut(0));
          if a.r != 0 {
            // this failure is not the one that is reported
            var _ :- Unlock(name);
            return Got(FallOut(0));
          }
          a :- AioOperate(name, SetRedirectIfVersion(tier, ThroughInt(a.version), if tier == Slow then SaysStorage else SaysArchive));
          installed := a.r == 0;
        }
      } else {
        var done := MoveAcross(current, tier, name);
        if done != Got(None) {
          return if done.Got? then Got(done.value.value) else done.PropagateFailure();
        }
      }
      var _ :- Unlock(name);
      o := Got(FallOut(0));
    }

    /** The five operations of a lateral move.  `Some(exit)` when one of them failed and `Move` is over. */
    method MoveAcross(current: Lower, tier: Lower, name: Name) returns (o: Outcome<Option<Exit>>)
      requires OnCourse(name)
      requires at == LateralDropStub(current, tier)
      modifies `store, `script, `at, `met
      ensures OnCourse(name) && Stranded(o)
      ensures o.Got? ==> at == if o.value.Some? then Stopped(o.value.value) else Unlocking(FallOut(0))
    {
      hide OnCourse, Exec, Apply, Visible;
      var a :- AioOperate(name, RemoveIgnoringRedirect);
      assert at == if a.r == 0 then LateralCopy(current, tier) else Unlocking(FallOut(a.r));
      if a.r != 0 {
        var _ :- Unlock(name);
        return Got(Some(FallOut(a.r)));
      }
      // this failure, too, is not the one that is reported
      a :- AioOperate(name, CopyBetween(current, tier));
      assert at == if a.r == 0 then LateralDropSource(current, tier) else Unlocking(FallOut(0));
      if a.r != 0 {
        var _ :- Unlock(name);
        return Got(Some(FallOut(0)));
      }
      a :- AioOperate(name, RemoveFrom(current));
      assert at == if a.r == 0 then LateralDummy(tier) else Unlocking(FallOut(a.r));
      if a.r != 0 {
        var _ :- Unlock(name);
        return Got(Some(FallOut(a.r)));
      }
      o := Readdress(tier, name);
    }

    method Readdress(tier: Lower, name: Name) returns (o: Outcome<Option<Exit>>)
      requires OnCourse(name)
      requires at == LateralDummy(tier)
      modifies `store, `script, `at, `met
      ensures OnCourse(name) && Stranded(o)
      ensures o.Got? ==> at == if o.value.Some? then Stopped(o.value.value) else Unlocking(FallOut(0))
    {
      hide OnCourse, Exec, Apply, Visible;
      // a failure here leaves the lock set
      var a :- AioOperate(name, WriteFullToCache("", None));
      assert at == if a.r == 0 then LateralRedirect(tier) else Stopped(FallOut(a.r));
      if a.r != 0 {
        return Got(Some(FallOut(a.r)));
      }
      // and so does one here
      a :- AioOperate(name, SetRedirect(tier));
      o := Got(if a.r == 0 then None else Some(FallOut(a.r)));
    }

    method Create(tier: Tier, name: Name, d: Data) returns (o: Outcome<Exit>)
      modifies this
      ensures Stranded(o) && (o.Got? ==> at == Stopped(o.value))
      ensures Run(at, Of(name), script)
              == Exec(CreateCall(tier, d), Start(CreateCall(tier, d)), old(Of(name)), old(script))
      ensures store - {name} == old(store) - {name}
    {
      Begin(CreateCall(tier, d), name);
      if tier == Fast {
        var a :- AioOperate(name, WriteFullToCache(d, Some(SaysFast)));
        o := Got(FallOut(a.r));
      } else {
        o := CreateIn(tier, name, d);
      }
    }

    method CreateIn(tier: Lower, name: Name, d: Data) returns (o: Outcome<Exit>)
      requires OnCourse(name)
      requires call == CreateCall(tier, d) && at == Start(call)
      modifies `store, `script, `at, `met
      ensures OnCourse(name) && Stranded(o) && (o.Got? ==> at == Stopped(o.value))
    {
      hide OnCourse, Exec, Apply, Visible;
      var a :- AioOperate(name, WriteFullTo(tier, d, TagOf(tier)));
      assert at == if a.r == 0 then CreateDummy(tier) else Stopped(FallOut(a.r));
      if a.r != 0 {
        return Got(FallOut(a.r));
      }
      // behind a redirect this write reaches the object that has just been written
      a :- AioOperate(name, WriteFullToCache("", None));
      assert at == if a.r == 0 then CreateRedirect(tier) else Stopped(FallOut(a.r));
      if a.r != 0 {
        return Got(FallOut(a.r));
      }
      a :- AioOperate(name, SetRedirect(tier));
      o := Got(FallOut(a.r));
    }

    method Delete(name: Name) returns (o: Outcome<Exit>)
      modifies this
      ensures Stranded(o) && (o.Got? ==> at == Stopped(o.value))
      ensures Run(at, Of(name), script) == Exec(DeleteCall, Start(DeleteCall), old(Of(name)), old(script))
      ensures store - {name} == old(store) - {name}
    {
      Begin(DeleteCall, name);
      var a :- AioOperate(name, RemoveFromCache);
      if a.r != 0 {
        return Got(EarlyReturn(a.r));
      }
      // a full object is gone already, and its missing entry is no failure
      a :- AioOperate(name, RemoveIgnoringRedirect);
      o := Got(FallOut(if a.r == ENOENT then 0 else a.r));
    }
  }
}
