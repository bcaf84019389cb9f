/** The three pools as one object name sees them, and the atomic operations that the mover issues.

    Every compound operation is all-or-nothing.  An operation sent through the cache pool acts on the
    target of a redirect, except those that carry `set_redirect` or IGNORE_REDIRECT, which act on the
    entry itself.  Each change of an object gives it a larger version; how much larger is up to the
    store (`jump`), because versions are drawn from counters that other objects share.
 */
module Store {
  import opened Prelude

  type Data = string

  datatype Tier = Fast | Slow | Archive

  /** The tiers that have a pool of their own behind the cache pool. */
  type Lower = t: Tier | t != Fast witness Slow

  /** The "tier" attribute: absent, or one of the strings that the code writes. */
  datatype Tag = Unset | SaysFast | SaysSlow | SaysStorage | SaysArchive

  /** The "lock" attribute: absent, "1" or "0". */
  datatype LockAttr = NeverLocked | Held | Released

  datatype Obj = Obj(data: Data, tag: Tag, lock: LockAttr, version: nat)

  datatype CacheSlot =
    | NoEntry
    | Full(obj: Obj)
    | Stub(target: Lower, stubTag: Tag, stubVersion: nat)

  datatype Slots = Slots(cache: CacheSlot, storage: Option<Obj>, archive: Option<Obj>)

  /** The store after an operation, and the operation's return value. */
  datatype Reply = Reply(slots: Slots, r: int)

  const ENOENT := -2
  const ENODATA := -61
  const ERANGE := -34
  const ECANCELED := -125

  const EMPTY := Slots(NoEntry, None, None)

  function TagOf(t: Tier): Tag {
    match t
    case Fast => SaysFast
    case Slow => SaysSlow
    case Archive => SaysArchive
  }

  function Other(t: Lower): Lower {
    if t == Slow then Archive else Slow
  }

  function Backing(s: Slots, t: Lower): Option<Obj> {
    if t == Slow then s.storage else s.archive
  }

  function SetBacking(s: Slots, t: Lower, o: Option<Obj>): Slots {
    if t == Slow then s.(storage := o) else s.(archive := o)
  }

  /** The object that an operation through the cache pool acts on. */
  function Visible(s: Slots): Option<Obj> {
    match s.cache
    case NoEntry => None
    case Full(o) => Some(o)
    case Stub(t, _, _) => Backing(s, t)
  }

  function SetVisible(s: Slots, o: Obj): Slots {
    match s.cache
    case Stub(t, _, _) => SetBacking(s, t, Some(o))
    case _ => s.(cache := Full(o))
  }

  /** `write_full`, with the tag that the same operation sets, if any. */
  function Written(before: Option<Obj>, d: Data, tag: Option<Tag>, jump: nat): Obj {
    match before
    case None => Obj(d, if tag.Some? then tag.value else Unset, NeverLocked, 1 + jump)
    case Some(o) => Obj(d, if tag.Some? then tag.value else o.tag, o.lock, o.version + 1 + jump)
  }

  /** A write through the cache pool. */
  function WriteThrough(s: Slots, d: Data, tag: Option<Tag>, jump: nat): Slots {
    SetVisible(s, Written(Visible(s), d, tag, jump))
  }

  function WriteBacking(s: Slots, t: Lower, d: Data, tag: Tag, jump: nat): Slots {
    SetBacking(s, t, Some(Written(Backing(s, t), d, Some(tag), jump)))
  }

  /** `cmpxattr("lock", NE, "1")` and `setxattr("lock", "1")` in one operation. */
  function TakeLock(s: Slots, jump: nat): Reply {
    match Visible(s)
    case None => Reply(s, ENOENT)
    case Some(o) =>
      if o.lock == Held then Reply(s, ECANCELED)
      else Reply(SetVisible(s, o.(lock := Held, version := o.version + 1 + jump)), 0)
  }

  /** `cmpxattr("lock", EQ, "1")` and `setxattr("lock", "0")` in one operation. */
  function DropLock(s: Slots, jump: nat): Reply {
    match Visible(s)
    case None => Reply(s, ENOENT)
    case Some(o) =>
      if o.lock != Held then Reply(s, ECANCELED)
      else Reply(SetVisible(s, o.(lock := Released, version := o.version + 1 + jump)), 0)
  }

  /** `getxattr("tier")` through the cache pool. */
  function ReadTag(s: Slots): Reply {
    match Visible(s)
    case None => Reply(s, ENOENT)
    case Some(o) => Reply(s, if o.tag == Unset then ENODATA else 0)
  }

  /** `remove` with IGNORE_REDIRECT in the cache pool. */
  function RemoveEntry(s: Slots): Reply {
    if s.cache == NoEntry then Reply(s, ENOENT) else Reply(s.(cache := NoEntry), 0)
  }

  /** `remove` through the cache pool: the target of a redirect, or the object itself. */
  function RemoveThrough(s: Slots): Reply {
    match s.cache
    case NoEntry => Reply(s, ENOENT)
    case Full(_) => Reply(s.(cache := NoEntry), 0)
    case Stub(t, _, _) => RemoveBacking(s, t)
  }

  function RemoveBacking(s: Slots, t: Lower): Reply {
    if Backing(s, t) == None then Reply(s, ENOENT) else Reply(SetBacking(s, t, None), 0)
  }

  /** `copy_from` a lower pool and `setxattr("tier", "fast")`, through the cache pool. */
  function CopyUp(s: Slots, from: Lower): Reply {
    match Backing(s, from)
    case None => Reply(s, ENOENT)
    case Some(o) => Reply(SetVisible(s, o.(tag := SaysFast)), 0)
  }

  /** `copy_from` the cache pool into a lower pool. */
  function CopyDown(s: Slots, to: Lower): Reply {
    match Visible(s)
    case None => Reply(s, ENOENT)
    case Some(o) => Reply(SetBacking(s, to, Some(o)), 0)
  }

  /** `copy_from` one lower pool into another. */
  function CopyAcross(s: Slots, from: Lower, to: Lower): Reply {
    match Backing(s, from)
    case None => Reply(s, ENOENT)
    case Some(o) => Reply(SetBacking(s, to, Some(o)), 0)
  }

  /** `set_redirect` on the cache entry itself. */
  function Redirect(s: Slots, to: Lower, jump: nat): Reply {
    match s.cache
    case NoEntry => Reply(s, ENOENT)
    case Full(o) => Reply(s.(cache := Stub(to, o.tag, o.version + 1 + jump)), 0)
    case Stub(_, g, v) => Reply(s.(cache := Stub(to, g, v + 1 + jump)), 0)
  }

  function EntryVersion(c: CacheSlot): nat
    requires c != NoEntry
  {
    if c.Full? then c.obj.version else c.stubVersion
  }

  /** `assert_version`, `set_redirect` and `setxattr("tier", tag)` on the cache entry itself. */
  function RedirectIfVersion(s: Slots, to: Lower, asserted: nat, tag: Tag, jump: nat): Reply {
    if s.cache == NoEntry then Reply(s, ENOENT)
    else if EntryVersion(s.cache) != asserted then Reply(s, ERANGE)
    else Reply(s.(cache := Stub(to, tag, asserted + 1 + jump)), 0)
  }

  const TWO_31 := 0x8000_0000
  const TWO_32 := 0x1_0000_0000
  const TWO_64 := 0x1_0000_0000_0000_0000

  /** A 64-bit version kept in a 32-bit `int` and widened again for `assert_version`. */
  function ThroughInt(v: nat): nat {
    var low := v % TWO_32;
    if low < TWO_31 then low else low + TWO_64 - TWO_32
  }

  // ---------------------------------------------------------------- operations

  /** The compound operations that the mover sends, each to one pool. */
  datatype Operation =
    | CmpSetLock(wasHeld: bool)
    | GetTag
    | RemoveIgnoringRedirect
    | RemoveFromCache
    | RemoveFrom(pool: Lower)
    | CopyToCache(from: Lower)
    | CopyFromCache(to: Lower)
    | CopyBetween(from: Lower, to: Lower)
    | SetRedirect(to: Lower)
    | SetRedirectIfVersion(to: Lower, asserted: nat, tag: Tag)
    | WriteFullToCache(data: Data, newTag: Option<Tag>)
    | WriteFullTo(pool: Lower, data: Data, tag: Tag)

  function Apply(op: Operation, s: Slots, jump: nat): Reply {
    match op
    case CmpSetLock(wasHeld) => if wasHeld then DropLock(s, jump) else TakeLock(s, jump)
    case GetTag => ReadTag(s)
    case RemoveIgnoringRedirect => RemoveEntry(s)
    case RemoveFromCache => RemoveThrough(s)
    case RemoveFrom(t) => RemoveBacking(s, t)
    case CopyToCache(from) => CopyUp(s, from)
    case CopyFromCache(to) => CopyDown(s, to)
    case CopyBetween(from, to) => CopyAcross(s, from, to)
    case SetRedirect(to) => Redirect(s, to, jump)
    case SetRedirectIfVersion(to, v, tag) => RedirectIfVersion(s, to, v, tag, jump)
    case WriteFullToCache(d, tag) => Reply(WriteThrough(s, d, tag, jump), 0)
    case WriteFullTo(t, d, tag) => Reply(WriteBacking(s, t, d, tag, jump), 0)
  }

  /** An operation that changes the cache entry and leaves one gives it a larger version, as long as it does
      not bring an object and its version in from another pool. */
  lemma VersionsGrow(op: Operation, s: Slots, jump: nat)
    requires s.cache != NoEntry && !op.CopyToCache?
    ensures var t := Apply(op, s, jump).slots;
            t.cache == s.cache || t.cache == NoEntry || EntryVersion(t.cache) > EntryVersion(s.cache)
  {
  }
}
