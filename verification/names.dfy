/** Many object names at once: every store operation is on the name of its call, so what happens to one
    name is what its own movers and writers do. */
module Names {
  import opened Store
  import opened Crowd

  type Name = string

  /** The store and the calls in progress, by name. */
  type Universe = map<Name, World>

  datatype NamedEvent = On(name: Name, e: Event)

  function View(u: Universe, name: Name): World {
    if name in u then u[name] else World(EMPTY, map[])
  }

  function NextAll(u: Universe, ne: NamedEvent): Universe {
    u[ne.name := Next(View(u, ne.name), ne.e)]
  }

  function TrailAll(u: Universe, events: seq<NamedEvent>): Universe
    decreases |events|
  {
    if events == [] then u else TrailAll(NextAll(u, events[0]), events[1..])
  }

  /** The events of one name. */
  function Of(events: seq<NamedEvent>, name: Name): seq<Event> {
    if events == [] then []
    else (if events[0].name == name then [events[0].e] else []) + Of(events[1..], name)
  }

  /** Names do not interfere: a run of all names, seen from one of them, is that name's own run. */
  lemma {:induction false} RunViewed(u: Universe, events: seq<NamedEvent>, name: Name)
    ensures View(TrailAll(u, events), name) == Trail(View(u, name), Of(events, name))
    decreases |events|
  {
    hide Next;
    if events != [] {
      var v, rest := NextAll(u, events[0]), Of(events[1..], name);
      RunViewed(v, events[1..], name);
      if events[0].name == name {
        assert View(v, name) == Next(View(u, name), events[0].e);
        assert Of(events, name) == [events[0].e] + rest;
        assert ([events[0].e] + rest)[1..] == rest;
      } else {
        assert View(v, name) == View(u, name);
        assert Of(events, name) == rest;
      }
    }
  }

  /** In any run on any number of names, each name has at most one holder of its lock, as long as its own
      events are orderly. */
  lemma ExclusionPerName(u: Universe, events: seq<NamedEvent>)
    requires forall n :: n in u ==>
      && u[n].clients == map[] && Legible(u[n].slots) && Unlocked(u[n].slots) && Orderly(u[n], Of(events, n))
    ensures forall n :: n in u ==> SoleHolder(View(TrailAll(u, events), n))
  {
    forall n | n in u
      ensures SoleHolder(View(TrailAll(u, events), n))
    {
      RunViewed(u, events, n);
      assert u[n] == World(u[n].slots, map[]);
      MutualExclusion(u[n].slots, Of(events, n), false);
    }
  }
}
