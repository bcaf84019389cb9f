/** `Create`, `Move` and `Delete` as machines that issue one store operation per step. */
module MoverMachine {
  import opened Prelude
  import opened Store

  datatype Call =
    | MoveCall(tier: Tier)
    | CreateCall(tier: Tier, data: Data)
    | DeleteCall

  /** How a call ends: it leaves its `switch` and reports `r` through `FinishTask`, or it stores `r`
      and returns without asking `FinishTask`. */
  datatype Exit = FallOut(r: int) | EarlyReturn(r: int)

  /** The store operation that a call issues next. */
  datatype Pc =
    | Locking
    | Locating
    | DropStub(from: Lower)
    | Promote(from: Lower)
    | DropSource(from: Lower)
    | Demote(to: Lower)
    | Install(to: Lower, copied: nat)
    | LateralDropStub(from: Lower, to: Lower)
    | LateralCopy(from: Lower, to: Lower)
    | LateralDropSource(from: Lower, to: Lower)
    | LateralDummy(to: Lower)
    | LateralRedirect(to: Lower)
    | Unlocking(exit: Exit)
    | CreateFast
    | CreateBacking(to: Lower)
    | CreateDummy(to: Lower)
    | CreateRedirect(to: Lower)
    | DeleteTarget
    | DeleteEntry
    | Stopped(exit: Exit)
    | Aborted

  function Start(call: Call): Pc {
    match call
    case MoveCall(_) => Locking
    case CreateCall(t, _) => if t == Fast then CreateFast else CreateBacking(t)
    case DeleteCall => DeleteTarget
  }

  predicate Ended(pc: Pc) {
    pc.Stopped? || pc.Aborted?
  }

  /** The store operation that a call issues at `pc`, if it has not ended. */
  function Issues(call: Call, pc: Pc): Operation
    requires !Ended(pc)
  {
    match pc
    case Locking => CmpSetLock(false)
    case Locating => GetTag
    case DropStub(_) => RemoveIgnoringRedirect
    case Promote(from) => CopyToCache(from)
    case DropSource(from) => RemoveFrom(from)
    case Demote(to) => CopyFromCache(to)
    case Install(to, v) => SetRedirectIfVersion(to, ThroughInt(v), if to == Slow then SaysStorage else SaysArchive)
    case LateralDropStub(_, _) => RemoveIgnoringRedirect
    case LateralCopy(from, to) => CopyBetween(from, to)
    case LateralDropSource(from, _) => RemoveFrom(from)
    case LateralDummy(_) => WriteFullToCache("", None)
    case LateralRedirect(to) => SetRedirect(to)
    case Unlocking(_) => CmpSetLock(true)
    case CreateFast => WriteFullToCache(CallData(call), Some(SaysFast))
    case CreateBacking(to) => WriteFullTo(to, CallData(call), TagOf(to))
    case CreateDummy(_) => WriteFullToCache("", None)
    case CreateRedirect(to) => SetRedirect(to)
    case DeleteTarget => RemoveFromCache
    case DeleteEntry => RemoveIgnoringRedirect
  }

  function CallData(call: Call): Data {
    if call.CreateCall? then call.data else ""
  }

  /** `GetLocation` turns the tag into a tier and aborts on any other string. */
  function TierOf(tag: Tag): Option<Tier> {
    match tag
    case SaysFast => Some(Fast)
    case SaysSlow => Some(Slow)
    case SaysArchive => Some(Archive)
    case _ => None
  }

  /** The branch that `Move` takes after `GetLocation`. */
  function Branch(tier: Tier, tag: Tag): Pc {
    match TierOf(tag)
    case None => Aborted
    case Some(current) =>
      if current == tier then Unlocking(FallOut(0))
      else if tier == Fast then DropStub(current)
      else if current == Fast then Demote(tier)
      else LateralDropStub(current, tier)
  }

  /** Where a call goes when its operation on `s` returned `r`. */
  function After(call: Call, pc: Pc, s: Slots, r: int): Pc {
    match pc
    case Locking => if r == 0 then Locating else if r == ECANCELED then Locking else Aborted
    case Locating =>
      if r != 0 || !call.MoveCall? || Visible(s) == None then Aborted
      else Branch(call.tier, Visible(s).value.tag)
    case DropStub(from) => if r == 0 then Promote(from) else Unlocking(EarlyReturn(r))
    case Promote(from) => if r == 0 then DropSource(from) else Unlocking(FallOut(r))
    case DropSource(_) => Unlocking(FallOut(r))
    case Demote(to) =>
      // A failure here is kept in a variable that shadows the one reported.
      if r != 0 || Visible(s) == None then Unlocking(FallOut(0)) else Install(to, Visible(s).value.version)
    case Install(to, _) => if r == 0 then Unlocking(FallOut(0)) else Demote(to)
    case LateralDropStub(from, to) => if r == 0 then LateralCopy(from, to) else Unlocking(FallOut(r))
    case LateralCopy(from, to) => if r == 0 then LateralDropSource(from, to) else Unlocking(FallOut(0))
    case LateralDropSource(_, to) => if r == 0 then LateralDummy(to) else Unlocking(FallOut(r))
    case LateralDummy(to) => if r == 0 then LateralRedirect(to) else Stopped(FallOut(r))
    case LateralRedirect(_) => if r == 0 then Unlocking(FallOut(0)) else Stopped(FallOut(r))
    case Unlocking(exit) => if r == 0 then Stopped(exit) else Aborted
    case CreateFast => Stopped(FallOut(r))
    case CreateBacking(to) => if r == 0 then CreateDummy(to) else Stopped(FallOut(r))
    case CreateDummy(to) => if r == 0 then CreateRedirect(to) else Stopped(FallOut(r))
    case CreateRedirect(_) => Stopped(FallOut(r))
    case DeleteTarget => if r == 0 then DeleteEntry else Stopped(EarlyReturn(r))
    case DeleteEntry => Stopped(FallOut(if r == ENOENT then 0 else r))
    case Stopped(_) => pc
    case Aborted => pc
  }

  /** One operation.  A nonzero `fault` makes the operation fail with no effect. */
  function Perform(op: Operation, s: Slots, fault: int, jump: nat): Reply {
    if fault != 0 then Reply(s, fault) else Apply(op, s, jump)
  }

  datatype Point = Point(pc: Pc, slots: Slots)

  function Step(call: Call, pc: Pc, s: Slots, fault: int, jump: nat): Point {
    if Ended(pc) then Point(pc, s)
    else
      var reply := Perform(Issues(call, pc), s, fault, jump);
      Point(After(call, pc, s, reply.r), reply.slots)
  }

  /** What the surroundings do around one operation: plain writes through the cache pool that land
      just before it, a fault, and how far the versions advance. */
  datatype Tick = Tick(writes: seq<Data>, fault: int, jump: nat)

  function Interfere(s: Slots, writes: seq<Data>, jump: nat): Slots
    decreases |writes|
  {
    if writes == [] then s else Interfere(WriteThrough(s, writes[0], None, jump), writes[1..], jump)
  }

  /** Where a call has got to when its surroundings have gone through `script`. */
  datatype Run = Run(pc: Pc, slots: Slots, rest: seq<Tick>)

  function Exec(call: Call, pc: Pc, s: Slots, script: seq<Tick>): Run
    decreases |script|
  {
    if script == [] || Ended(pc) then Run(pc, s, script)
    else
      var t := script[0];
      var p := Step(call, pc, Interfere(s, t.writes, t.jump), t.fault, t.jump);
      Exec(call, p.pc, p.slots, script[1..])
  }
}
