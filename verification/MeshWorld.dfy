/** The router and neighbor controllers as a machine over the API server's store. Each step is one API
    call of a pass, so passes of different objects, the init containers and the sidecars interleave,
    and a pass may stop anywhere. */
module MeshWorld {
  import opened Wrappers
  import opened Conditions
  import opened MeshTypes

  /** What never changes: the network of every object that may come to exist, and the URIs of Neighbors. */
  datatype Config = Config(network: map<Owner, Name>, uri: map<Name, Uri>, generation: int)

  predicate ValidConfig(cfg: Config) {
    forall o :: o in cfg.network && o.OfNeighbor? ==> o.name in cfg.uri
  }

  datatype Meta = Meta(finalizer: bool, deleting: bool)

  /** What a router's pass saw of its own status when it began, and when. */
  datatype Seen = Seen(status: Status, at: Time)

  /** A pass in flight, by the API call it makes next. */
  datatype Pass =
    | Listing(face: Option<Uri>, seen: Seen)
    | Adding(uri: Uri, todo: seq<Name>, seen: Seen)
    | Closing(seen: Seen, syncedAt: Option<Time>)
    | CleanupListing
    | Removing(todo: seq<Name>)

  /** `used` and `published` are auxiliary: every object that ever existed, and every face that a
      router's init container published. */
  datatype World = World(
    routers: map<Name, Option<Status>>,
    meta: map<Owner, Meta>,
    passes: map<Owner, Pass>,
    used: set<Owner>,
    published: set<(Name, Uri)>)

  const EMPTY_WORLD := World(map[], map[], map[], {}, {})

  function StatusOf(w: World, n: Name): Option<Status> {
    if n in w.routers then w.routers[n] else None
  }

  /** What router `p` lists for `o`. */
  function EntryOf(w: World, p: Name, o: Owner): Option<Uri> {
    if StatusOf(w, p).Some? then EntryIn(StatusOf(w, p).value, o) else None
  }

  predicate SameNetwork(cfg: Config, a: Owner, b: Owner) {
    a in cfg.network && b in cfg.network && cfg.network[a] == cfg.network[b]
  }

  /** The routers that `o` announces itself to: those of its network, without itself. */
  predicate IsPeer(cfg: Config, w: World, o: Owner, p: Name) {
    p in w.routers && OfRouter(p) != o && SameNetwork(cfg, OfRouter(p), o)
  }

  predicate NoRepeats(names: seq<Name>) {
    forall i, j :: 0 <= i < j < |names| ==> names[i] != names[j]
  }

  /** The API server lists the peers in any order. */
  ghost predicate IsListing(cfg: Config, w: World, o: Owner, order: seq<Name>) {
    NoRepeats(order) && forall p :: p in order <==> IsPeer(cfg, w, o, p)
  }

  // ---------------------------------------------------------------------------------------
  // One step of a pass
  // ---------------------------------------------------------------------------------------

  datatype Effect =
    | Proceed(next: Pass)
    | PutEntry(p: Name, uri: Uri, next: Pass)
    | DropEntry(p: Name, next: Pass)
    | Report(conditions: RouterConditions)
    | AddFinalizer
    | Release
    | Finish
    | Fail

  /** `finalizer`: the first call adds the finalizer, later ones reconcile, and once deletion is
      requested they clean up. A router that is offline only publishes its conditions. */
  function Begin(cfg: Config, w: World, o: Owner, now: Time): Effect
    requires ValidConfig(cfg) && o in cfg.network && o in w.meta
  {
    if w.meta[o].deleting then
      if w.meta[o].finalizer then Proceed(CleanupListing) else Finish
    else if !w.meta[o].finalizer then AddFinalizer
    else
      match o
      case OfRouter(n) =>
        var st := StatusOf(w, n).GetOr(DEFAULT_STATUS);
        if st.online then Proceed(Listing(st.innerFace, Seen(st, now))) else Proceed(Closing(Seen(st, now), None))
      case OfNeighbor(n) => Proceed(Listing(Some(cfg.uri[n]), Seen(DEFAULT_STATUS, now)))
  }

  /** The names whose router lists `o`. */
  function Holding(w: World, names: seq<Name>, o: Owner): (r: seq<Name>)
    ensures forall p :: p in r <==> p in names && EntryOf(w, p, o).Some?
    ensures NoRepeats(names) ==> NoRepeats(r)
  {
    if names == [] then []
    else
      var rest := Holding(w, names[1..], o);
      if EntryOf(w, names[0], o).Some? then [names[0]] + rest else rest
  }

  /** A router's cleanup removes its entry where the listed status showed one, a Neighbor's cleanup
      removes it everywhere. */
  function ToRemove(w: World, order: seq<Name>, o: Owner): seq<Name> {
    if o.OfRouter? then Holding(w, order, o) else order
  }

  /** The next API call of the pass on `o`; `order` is the answer to a list call. */
  ghost function Continue(cfg: Config, w: World, o: Owner, order: seq<Name>, now: Time): Effect
    requires o in w.passes
  {
    match w.passes[o]
    case Listing(uri, seen) =>
      if !IsListing(cfg, w, o, order) then Proceed(w.passes[o])
      else if uri.None? then Proceed(Closing(seen, Some(now)))
      else Proceed(Adding(uri.value, order, seen))
    case Adding(uri, todo, seen) =>
      if todo == [] then
        if o.OfRouter? then Report(PassConditions(seen.status, cfg.generation, seen.at, Some(now))) else Finish
      else if StatusOf(w, todo[0]).None? then Fail
      else PutEntry(todo[0], uri, Adding(uri, todo[1..], seen))
    case Closing(seen, syncedAt) => Report(PassConditions(seen.status, cfg.generation, seen.at, syncedAt))
    case CleanupListing =>
      if IsListing(cfg, w, o, order) then Proceed(Removing(ToRemove(w, order, o))) else Proceed(CleanupListing)
    case Removing(todo) =>
      if todo == [] then Release
      else if EntryOf(w, todo[0], o).None? then Fail
      else DropEntry(todo[0], Removing(todo[1..]))
  }

  /** The patched store, when the patch is accepted. */
  function Patched(w: World, p: Name, status: Option<Status>): World {
    if status.Some? then w.(routers := w.routers[p := status]) else w
  }

  function Without(w: World, o: Owner): World {
    w.(routers := if o.OfRouter? then w.routers - {o.name} else w.routers, meta := w.meta - {o})
  }

  function Apply(w: World, o: Owner, e: Effect): World {
    match e
    case Proceed(p) => w.(passes := w.passes[o := p])
    case PutEntry(p, u, next) => Patched(w, p, AddEntry(StatusOf(w, p), o, u)).(passes := w.passes[o := next])
    case DropEntry(p, next) => Patched(w, p, RemoveEntry(StatusOf(w, p), o)).(passes := w.passes[o := next])
    case Report(c) =>
      if o.name in w.routers then
        Patched(w, o.name, Some(PublishConditions(w.routers[o.name], c))).(passes := w.passes - {o})
      else w.(passes := w.passes - {o})
    case AddFinalizer => if o in w.meta then w.(meta := w.meta[o := w.meta[o].(finalizer := true)]) else w
    case Release => Without(w, o).(passes := w.passes - {o})
    case Finish => w.(passes := w.passes - {o})
    case Fail => w.(passes := w.passes - {o})
  }

  // ---------------------------------------------------------------------------------------
  // Steps and runs
  // ---------------------------------------------------------------------------------------

  datatype Action =
    | Create(o: Owner)
    | RequestDelete(o: Owner)
    | Init(n: Name, face: Option<Uri>)
    | Online(n: Name)
    | BeginPass(o: Owner, now: Time)
    | ContinuePass(o: Owner, order: seq<Name>, now: Time)
    | Crash(o: Owner)

  /** One step of the world. An action that is not enabled changes nothing. */
  ghost function Step(cfg: Config, w: World, a: Action): World
    requires ValidConfig(cfg)
  {
    match a
    case Create(o) =>
      if o in cfg.network && o !in w.used then
        w.(routers := if o.OfRouter? then w.routers[o.name := None] else w.routers,
           meta := w.meta[o := Meta(false, false)],
           used := w.used + {o})
      else w
    case RequestDelete(o) =>
      if o !in w.meta then w
      else if w.meta[o].finalizer then w.(meta := w.meta[o := w.meta[o].(deleting := true)])
      else Without(w, o)
    case Init(n, face) =>
      if n !in w.routers then w
      else Patched(w, n, Some(Initialize(w.routers[n], face)))
           .(published := if face.Some? then w.published + {(n, face.value)} else w.published)
    case Online(n) => if n in w.routers then Patched(w, n, GoOnline(w.routers[n])) else w
    case BeginPass(o, now) =>
      if o in cfg.network && o in w.meta && o !in w.passes then Apply(w, o, Begin(cfg, w, o, now)) else w
    case ContinuePass(o, order, now) => if o in w.passes then Apply(w, o, Continue(cfg, w, o, order, now)) else w
    case Crash(o) => w.(passes := w.passes - {o})
  }

  ghost function Run(cfg: Config, w: World, actions: seq<Action>): World
    requires ValidConfig(cfg)
    decreases |actions|
  {
    if actions == [] then w else Run(cfg, Step(cfg, w, actions[0]), actions[1..])
  }

  lemma {:induction false} RunSplit(cfg: Config, w: World, a: seq<Action>, b: seq<Action>)
    requires ValidConfig(cfg)
    ensures Run(cfg, w, a + b) == Run(cfg, Run(cfg, w, a), b)
    decreases |a|
  {
    if a == [] {
      assert a + b == b;
    } else {
      assert (a + b)[1..] == a[1..] + b;
      RunSplit(cfg, Step(cfg, w, a[0]), a[1..], b);
    }
  }
}
