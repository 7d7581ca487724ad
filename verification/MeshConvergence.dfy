/** When every router of a network is up, one full pass of each router and Neighbor makes the neighbour
    maps complete, however the single patches of all of them interleave. */
module MeshConvergence {
  import opened Wrappers
  import opened Conditions
  import opened MeshTypes
  import opened MeshWorld
  import opened MeshSafety
  import Sidecar
  import MeshPasses
  import MeshTheorems

  predicate OnNet(cfg: Config, o: Owner, net: Name) {
    o in cfg.network && cfg.network[o] == net
  }

  /** Why a router announces nothing: it has not come online, or it has no face. */
  datatype Silence = Offline | Faceless

  /** A settled network: which routers it has, what each of the owners that announce themselves announces,
      and why each of the other routers does not. */
  datatype Plan = Plan(net: Name, members: set<Name>, values: map<Owner, Uri>, silent: map<Name, Silence>)

  /** The router is online with its face published; the Neighbor announces its URI. */
  predicate Announces(cfg: Config, w: World, o: Owner, u: Uri) {
    match o
    case OfRouter(n) => StatusOf(w, n).Some? && StatusOf(w, n).value.online && StatusOf(w, n).value.innerFace == Some(u)
    case OfNeighbor(n) => n in cfg.uri && cfg.uri[n] == u
  }

  predicate Staying(w: World, o: Owner) {
    o in w.meta && !w.meta[o].deleting
  }

  ghost predicate MembersOk(cfg: Config, w: World, plan: Plan) {
    && (forall n :: n in plan.members <==> n in w.routers && OnNet(cfg, OfRouter(n), plan.net))
    && (forall n :: n in plan.members ==> StatusOf(w, n).Some? && Staying(w, OfRouter(n)))
  }

  ghost predicate OwnersOk(cfg: Config, w: World, plan: Plan) {
    forall o :: o in plan.values ==> OnNet(cfg, o, plan.net) && Staying(w, o) && Announces(cfg, w, o, plan.values[o])
  }

  ghost predicate Settled(cfg: Config, w: World, plan: Plan) {
    MembersOk(cfg, w, plan) && OwnersOk(cfg, w, plan)
  }

  /** No router of the network joins or leaves, no owner that matters is deleted, and init containers
      publish the same face again at most. Everything else may happen, crashes of passes included. */
  predicate Quiet(cfg: Config, plan: Plan, a: Action) {
    match a
    case Create(o) => o.OfRouter? ==> !OnNet(cfg, o, plan.net)
    case RequestDelete(o) => !(o.OfRouter? && OnNet(cfg, o, plan.net)) && o !in plan.values
    case Init(n, face) => OfRouter(n) in plan.values ==> face == Some(plan.values[OfRouter(n)])
    case _ => true
  }

  // ---------------------------------------------------------------------------------------
  // Full passes in a run
  // ---------------------------------------------------------------------------------------

  /** The owners with a pass in flight that began within the run, and those that completed one. */
  datatype Progress = Progress(begun: set<Owner>, done: set<Owner>)

  ghost function Track(cfg: Config, w: World, a: Action, pr: Progress): Progress
    requires ValidConfig(cfg)
  {
    match a
    case BeginPass(o, now) =>
      if o in cfg.network && o in w.meta && o !in w.passes && Begin(cfg, w, o, now).Proceed? then
        pr.(begun := pr.begun + {o})
      else pr
    case ContinuePass(o, order, now) =>
      if o !in w.passes then pr
      else
        (match Continue(cfg, w, o, order, now)
         case Report(_) => Completed(pr, o)
         case Finish => Completed(pr, o)
         case Fail => pr.(begun := pr.begun - {o})
         case Release => pr.(begun := pr.begun - {o})
         case _ => pr)
    case Crash(o) => pr.(begun := pr.begun - {o})
    case _ => pr
  }

  function Completed(pr: Progress, o: Owner): Progress {
    if o in pr.begun then Progress(pr.begun - {o}, pr.done + {o}) else pr
  }

  ghost function TrackRun(cfg: Config, w: World, actions: seq<Action>, pr: Progress): Progress
    requires ValidConfig(cfg)
    decreases |actions|
  {
    if actions == [] then pr else TrackRun(cfg, Step(cfg, w, actions[0]), actions[1..], Track(cfg, w, actions[0], pr))
  }

  const NOTHING_DONE := Progress({}, {})

  // ---------------------------------------------------------------------------------------
  // What holds meanwhile
  // ---------------------------------------------------------------------------------------

  /** Every other member lists the owner with its value, but possibly those still to do. */
  ghost predicate Announced(w: World, plan: Plan, o: Owner, todo: seq<Name>)
    requires o in plan.values
  {
    forall p :: p in plan.members && OfRouter(p) != o && p !in todo ==> EntryOf(w, p, o) == Some(plan.values[o])
  }

  ghost predicate BegunOk(w: World, plan: Plan, o: Owner, pass: Pass)
    requires o in plan.values
  {
    match pass
    case Listing(face, _) => face == Some(plan.values[o])
    case Adding(u, todo, _) =>
      u == plan.values[o] && (forall p :: p in todo ==> p in plan.members) && Announced(w, plan, o, todo)
    case _ => false
  }

  ghost predicate OwnerSynced(w: World, plan: Plan, pr: Progress, o: Owner)
    requires o in plan.values
  {
    && (o in pr.begun ==> o in w.passes && BegunOk(w, plan, o, w.passes[o]))
    && (o in pr.done ==> Announced(w, plan, o, []) && (o in w.passes ==> o in pr.begun))
  }

  ghost predicate Syncing(w: World, plan: Plan, pr: Progress) {
    forall o :: o in plan.values ==> OwnerSynced(w, plan, pr, o)
  }

  // ---------------------------------------------------------------------------------------
  // A settled network stays settled
  // ---------------------------------------------------------------------------------------

  /** What concerns the plan in a status, a patch of another field leaves alone. */
  lemma EffectStatus(w: World, o: Owner, e: Effect, n: Name)
    requires !(e.Release? && o == OfRouter(n))
    ensures StatusOf(w, n).Some? ==>
              StatusOf(Apply(w, o, e), n).Some?
              && StatusOf(Apply(w, o, e), n).value.online == StatusOf(w, n).value.online
              && StatusOf(Apply(w, o, e), n).value.innerFace == StatusOf(w, n).value.innerFace
  {
    match e {
      case PutEntry(q, u, next) =>
      case DropEntry(q, next) =>
      case Report(_) =>
      case Release =>
      case Proceed(_) =>
      case AddFinalizer =>
      case Finish =>
      case Fail =>
    }
  }

  lemma EffectStaying(w: World, o: Owner, e: Effect, other: Owner)
    requires !(e.Release? && o == other)
    ensures Staying(w, other) ==> Staying(Apply(w, o, e), other)
  {
    hide Apply;
    OwnMeta(w, o, e);
  }

  lemma EffectSettled(cfg: Config, w: World, plan: Plan, o: Owner, e: Effect)
    requires Settled(cfg, w, plan) && EffectOk(cfg, w, o, e)
    requires e.Release? ==> o in w.meta && w.meta[o].deleting
    ensures Settled(cfg, Apply(w, o, e), plan)
  {
    hide Apply, EffectOk, StatusOf, OnNet;
    var w' := Apply(w, o, e);
    ApplyRouters(cfg, w, o, e);
    forall n | n in plan.members ensures n in w'.routers && StatusOf(w', n).Some? && Staying(w', OfRouter(n)) {
      EffectStatus(w, o, e, n);
      EffectStaying(w, o, e, OfRouter(n));
    }
    forall x | x in plan.values ensures Staying(w', x) && Announces(cfg, w', x, plan.values[x]) {
      EffectStaying(w, o, e, x);
      if x.OfRouter? { EffectStatus(w, o, e, x.name); }
    }
  }

  lemma ReleaseIsDeleting(cfg: Config, w: World, o: Owner, order: seq<Name>, now: Time)
    requires o in w.passes && PassOk(cfg, w, o, w.passes[o])
    requires Continue(cfg, w, o, order, now).Release?
    ensures o in w.meta && w.meta[o].deleting
  {
  }

  lemma SettledStep(cfg: Config, w: World, plan: Plan, a: Action)
    requires ValidConfig(cfg) && Inv(cfg, w) && Settled(cfg, w, plan) && Quiet(cfg, plan, a)
    ensures Settled(cfg, Step(cfg, w, a), plan)
  {
    hide EntriesOk, FacesOk, Settled, EffectOk, PassOk, Begin, Continue, Apply, ObjectsOk;
    match a {
      case BeginPass(o, now) =>
        if o in cfg.network && o in w.meta && o !in w.passes {
          BeginOk(cfg, w, o, now);
          EffectSettled(cfg, w, plan, o, Begin(cfg, w, o, now));
        }
      case ContinuePass(o, order, now) =>
        if o in w.passes {
          ContinueOk(cfg, w, o, order, now);
          if Continue(cfg, w, o, order, now).Release? { ReleaseIsDeleting(cfg, w, o, order, now); }
          EffectSettled(cfg, w, plan, o, Continue(cfg, w, o, order, now));
        }
      case Create(o) => CreateSettled(cfg, w, plan, o);
      case RequestDelete(o) => DeleteSettled(cfg, w, plan, o);
      case Init(n, face) => InitSettled(cfg, w, plan, n, face);
      case Online(n) => OnlineSettled(cfg, w, plan, n);
      case Crash(o) => CrashSettled(cfg, w, plan, o);
    }
  }

  lemma CreateSettled(cfg: Config, w: World, plan: Plan, o: Owner)
    requires ValidConfig(cfg) && ObjectsOk(cfg, w) && Settled(cfg, w, plan) && Quiet(cfg, plan, Create(o))
    ensures Settled(cfg, Step(cfg, w, Create(o)), plan)
  {
    var w' := Step(cfg, w, Create(o));
    assert MembersOk(cfg, w', plan);
    assert OwnersOk(cfg, w', plan);
  }

  lemma DeleteSettled(cfg: Config, w: World, plan: Plan, o: Owner)
    requires ValidConfig(cfg) && ObjectsOk(cfg, w) && Settled(cfg, w, plan) && Quiet(cfg, plan, RequestDelete(o))
    ensures Settled(cfg, Step(cfg, w, RequestDelete(o)), plan)
  {
    hide MembersOk, OwnersOk;
    if o in w.meta {
      if w.meta[o].finalizer {
        MarkedSettled(cfg, w, plan, o);
      } else {
        RemovedSettled(cfg, w, plan, o);
      }
    }
  }

  lemma MarkedSettled(cfg: Config, w: World, plan: Plan, o: Owner)
    requires Settled(cfg, w, plan) && Quiet(cfg, plan, RequestDelete(o)) && o in w.meta
    ensures Settled(cfg, w.(meta := w.meta[o := w.meta[o].(deleting := true)]), plan)
  {
    var w' := w.(meta := w.meta[o := w.meta[o].(deleting := true)]);
    assert forall n :: StatusOf(w', n) == StatusOf(w, n);
    hide StatusOf;
    assert MembersOk(cfg, w', plan);
    assert OwnersOk(cfg, w', plan);
  }

  lemma RemovedSettled(cfg: Config, w: World, plan: Plan, o: Owner)
    requires ObjectsOk(cfg, w) && Settled(cfg, w, plan) && Quiet(cfg, plan, RequestDelete(o)) && o in w.meta
    ensures Settled(cfg, Without(w, o), plan)
  {
    var w' := Without(w, o);
    assert forall n :: OfRouter(n) != o ==> StatusOf(w', n) == StatusOf(w, n);
    hide StatusOf;
    assert MembersOk(cfg, w', plan);
    assert OwnersOk(cfg, w', plan);
  }

  lemma InitSettled(cfg: Config, w: World, plan: Plan, n: Name, face: Option<Uri>)
    requires ValidConfig(cfg) && Settled(cfg, w, plan) && Quiet(cfg, plan, Init(n, face))
    ensures Settled(cfg, Step(cfg, w, Init(n, face)), plan)
  {
    var w' := Step(cfg, w, Init(n, face));
    assert MembersOk(cfg, w', plan);
    assert OwnersOk(cfg, w', plan);
  }

  lemma OnlineSettled(cfg: Config, w: World, plan: Plan, n: Name)
    requires ValidConfig(cfg) && Settled(cfg, w, plan)
    ensures Settled(cfg, Step(cfg, w, Online(n)), plan)
  {
    var w' := Step(cfg, w, Online(n));
    assert MembersOk(cfg, w', plan);
    assert OwnersOk(cfg, w', plan);
  }

  lemma CrashSettled(cfg: Config, w: World, plan: Plan, o: Owner)
    requires ValidConfig(cfg) && Settled(cfg, w, plan)
    ensures Settled(cfg, Step(cfg, w, Crash(o)), plan)
  {
    var w' := Step(cfg, w, Crash(o));
    assert MembersOk(cfg, w', plan);
    assert OwnersOk(cfg, w', plan);
  }

  // ---------------------------------------------------------------------------------------
  // Announcements are not lost
  // ---------------------------------------------------------------------------------------

  /** Nothing happened to the owner's entries at the members, nor to its pass. */
  ghost predicate Aside(w: World, w': World, plan: Plan, o: Owner) {
    && (forall p :: p in plan.members ==> EntryOf(w', p, o) == EntryOf(w, p, o))
    && (o in w'.passes <==> o in w.passes)
    && (o in w.passes ==> w'.passes[o] == w.passes[o])
  }

  lemma AsideSynced(w: World, w': World, plan: Plan, pr: Progress, pr': Progress, o: Owner)
    requires o in plan.values && OwnerSynced(w, plan, pr, o) && Aside(w, w', plan, o)
    requires (o in pr'.begun <==> o in pr.begun) && (o in pr'.done <==> o in pr.done)
    ensures OwnerSynced(w', plan, pr', o)
  {
    hide EntryOf;
  }

  lemma EffectAside(cfg: Config, w: World, plan: Plan, x: Owner, e: Effect, o: Owner)
    requires o != x && MembersOk(cfg, w, plan) && EffectOk(cfg, w, x, e)
    requires e.Release? ==> x in w.meta && w.meta[x].deleting
    ensures Aside(w, Apply(w, x, e), plan, o)
  {
    hide Apply, EntryOf, EffectOk;
    OtherMeta(w, x, e, o);
    forall p | p in plan.members ensures EntryOf(Apply(w, x, e), p, o) == EntryOf(w, p, o) {
      OtherEntry(w, x, e, p, o);
    }
  }

  /** A pass that begins in a settled network announces the value that matters. */
  lemma BeginSynced(cfg: Config, w: World, plan: Plan, pr: Progress, o: Owner, now: Time)
    requires ValidConfig(cfg) && Settled(cfg, w, plan) && o in plan.values && OwnerSynced(w, plan, pr, o)
    requires o in cfg.network && o in w.meta && o !in w.passes
    ensures OwnerSynced(Step(cfg, w, BeginPass(o, now)), plan, Track(cfg, w, BeginPass(o, now), pr), o)
  {
    hide EntryOf;
    var e := Begin(cfg, w, o, now);
    assert Announces(cfg, w, o, plan.values[o]);
    forall p ensures EntryOf(Apply(w, o, e), p, o) == EntryOf(w, p, o) {
      ApplyEntry(w, o, e, p, o);
    }
  }

  lemma ListedAreMembers(cfg: Config, w: World, plan: Plan, o: Owner, order: seq<Name>)
    requires Settled(cfg, w, plan) && o in plan.values && IsListing(cfg, w, o, order)
    ensures forall p :: p in order <==> p in plan.members && OfRouter(p) != o
  {
    hide NoRepeats;
    forall p ensures IsPeer(cfg, w, o, p) <==> p in plan.members && OfRouter(p) != o { }
  }

  /** The pass goes on: a listing covers all other members, and one patch strikes one off the list. */
  lemma ContinueSynced(cfg: Config, w: World, plan: Plan, pr: Progress, o: Owner, order: seq<Name>, now: Time)
    requires ValidConfig(cfg) && Settled(cfg, w, plan) && o in plan.values && OwnerSynced(w, plan, pr, o)
    requires o in pr.begun && o in w.passes
    ensures var a := ContinuePass(o, order, now);
            OwnerSynced(Step(cfg, w, a), plan, Track(cfg, w, a, pr), o)
    ensures !Continue(cfg, w, o, order, now).Fail?
  {
    hide EntryOf, IsListing, StatusOf;
    var e := Continue(cfg, w, o, order, now);
    OwnMeta(w, o, e);
    match w.passes[o] {
      case Listing(face, seen) =>
        forall p ensures EntryOf(Apply(w, o, e), p, o) == EntryOf(w, p, o) { ApplyEntry(w, o, e, p, o); }
        if IsListing(cfg, w, o, order) { ListedAreMembers(cfg, w, plan, o, order); }
      case Adding(u, todo, seen) =>
        if todo == [] {
          forall p ensures EntryOf(Apply(w, o, e), p, o) == EntryOf(w, p, o) { ApplyEntry(w, o, e, p, o); }
        } else {
          assert todo[0] in plan.members && StatusOf(w, todo[0]).Some?;
          forall p ensures EntryOf(Apply(w, o, e), p, o) == if p == todo[0] then Some(u) else EntryOf(w, p, o) {
            ApplyEntry(w, o, e, p, o);
          }
          assert forall p :: p in todo ==> p == todo[0] || p in todo[1..];
        }
    }
  }

  /** One step of anyone keeps what has been announced. */
  lemma SyncStep(cfg: Config, w: World, plan: Plan, pr: Progress, a: Action)
    requires ValidConfig(cfg) && Inv(cfg, w) && Settled(cfg, w, plan) && Quiet(cfg, plan, a) && Syncing(w, plan, pr)
    ensures Syncing(Step(cfg, w, a), plan, Track(cfg, w, a, pr))
  {
    hide Inv, Settled, OwnerSynced, Step, Track, Quiet;
    forall o | o in plan.values ensures OwnerSynced(Step(cfg, w, a), plan, Track(cfg, w, a, pr), o) {
      OwnerStep(cfg, w, plan, pr, a, o);
    }
  }

  lemma OwnerStep(cfg: Config, w: World, plan: Plan, pr: Progress, a: Action, o: Owner)
    requires ValidConfig(cfg) && Inv(cfg, w) && Settled(cfg, w, plan) && Quiet(cfg, plan, a)
    requires o in plan.values && OwnerSynced(w, plan, pr, o)
    ensures OwnerSynced(Step(cfg, w, a), plan, Track(cfg, w, a, pr), o)
  {
    hide EntriesOk, FacesOk, OwnersOk, OwnerSynced, EffectOk, PassOk, Begin, Continue, Apply, ObjectsOk, MembersOk, Quiet;
    match a {
      case BeginPass(x, now) =>
        if x in cfg.network && x in w.meta && x !in w.passes {
          if x == o {
            BeginSynced(cfg, w, plan, pr, o, now);
          } else {
            BeginOk(cfg, w, x, now);
            EffectAside(cfg, w, plan, x, Begin(cfg, w, x, now), o);
            AsideSynced(w, Step(cfg, w, a), plan, pr, Track(cfg, w, a, pr), o);
          }
        }
      case ContinuePass(x, order, now) =>
        if x in w.passes {
          if x != o {
            ContinueOk(cfg, w, x, order, now);
            if Continue(cfg, w, x, order, now).Release? { ReleaseIsDeleting(cfg, w, x, order, now); }
            EffectAside(cfg, w, plan, x, Continue(cfg, w, x, order, now), o);
            AsideSynced(w, Step(cfg, w, a), plan, pr, Track(cfg, w, a, pr), o);
          } else if o in pr.begun {
            ContinueSynced(cfg, w, plan, pr, o, order, now);
          } else {
            StaleSynced(cfg, w, plan, pr, o, order, now);
          }
        }
      case Create(x) => OtherAside(cfg, w, plan, a, o); AsideSynced(w, Step(cfg, w, a), plan, pr, pr, o);
      case RequestDelete(x) => OtherAside(cfg, w, plan, a, o); AsideSynced(w, Step(cfg, w, a), plan, pr, pr, o);
      case Init(n, face) => OtherAside(cfg, w, plan, a, o); AsideSynced(w, Step(cfg, w, a), plan, pr, pr, o);
      case Online(n) => OtherAside(cfg, w, plan, a, o); AsideSynced(w, Step(cfg, w, a), plan, pr, pr, o);
      case Crash(x) =>
        if x == o { CrashSynced(cfg, w, plan, pr, o); }
        else { OtherAside(cfg, w, plan, a, o); AsideSynced(w, Step(cfg, w, a), plan, pr, Track(cfg, w, a, pr), o); }
    }
  }

  /** A pass from before the run neither counts nor harms: its owner has not completed a pass yet. */
  lemma StaleSynced(cfg: Config, w: World, plan: Plan, pr: Progress, o: Owner, order: seq<Name>, now: Time)
    requires ValidConfig(cfg) && o in plan.values && OwnerSynced(w, plan, pr, o)
    requires o !in pr.begun && o in w.passes
    ensures var a := ContinuePass(o, order, now);
            OwnerSynced(Step(cfg, w, a), plan, Track(cfg, w, a, pr), o)
  {
    hide Continue, Apply, Announced;
  }

  lemma CrashSynced(cfg: Config, w: World, plan: Plan, pr: Progress, o: Owner)
    requires ValidConfig(cfg) && o in plan.values && OwnerSynced(w, plan, pr, o)
    ensures OwnerSynced(Step(cfg, w, Crash(o)), plan, Track(cfg, w, Crash(o), pr), o)
  {
    var w' := Step(cfg, w, Crash(o));
    forall p ensures EntryOf(w', p, o) == EntryOf(w, p, o) { SameRouters(w, w', p, o); }
    hide EntryOf;
  }

  lemma OtherAside(cfg: Config, w: World, plan: Plan, a: Action, o: Owner)
    requires ValidConfig(cfg) && ObjectsOk(cfg, w) && MembersOk(cfg, w, plan) && Quiet(cfg, plan, a)
    requires !a.BeginPass? && !a.ContinuePass? && a != Crash(o)
    ensures Aside(w, Step(cfg, w, a), plan, o)
  {
    hide EntryIn;
    var w' := Step(cfg, w, a);
    forall p | p in plan.members ensures EntryOf(w', p, o) == EntryOf(w, p, o) {
      match a {
        case Create(x) => assert w.routers[p] == w'.routers[p];
        case RequestDelete(x) => if x in w.meta { assert p in w'.routers && w.routers[p] == w'.routers[p]; }
        case Init(n, face) => if n in w.routers { InitThenLook(w.routers[n], face, o); }
        case Online(n) => if n in w.routers { OnlineThenLook(w.routers[n], o); }
        case Crash(x) =>
      }
    }
  }

  lemma InitThenLook(status: Option<Status>, face: Option<Uri>, o: Owner)
    ensures EntryIn(Initialize(status, face), o) == if status.Some? then EntryIn(status.value, o) else None
  {
  }

  lemma OnlineThenLook(status: Option<Status>, o: Owner)
    ensures GoOnline(status).Some? <==> status.Some?
    ensures status.Some? ==> EntryIn(GoOnline(status).value, o) == EntryIn(status.value, o)
  {
  }

  lemma {:induction false} SyncRun(cfg: Config, w: World, plan: Plan, pr: Progress, actions: seq<Action>)
    requires ValidConfig(cfg) && Inv(cfg, w) && Settled(cfg, w, plan) && Syncing(w, plan, pr)
    requires forall a :: a in actions ==> Quiet(cfg, plan, a)
    ensures var w' := Run(cfg, w, actions);
            Inv(cfg, w') && Settled(cfg, w', plan) && Syncing(w', plan, TrackRun(cfg, w, actions, pr))
    decreases |actions|
  {
    hide Inv, Settled, Syncing, Step, Track, Quiet;
    if actions != [] {
      StepInv(cfg, w, actions[0]);
      SettledStep(cfg, w, plan, actions[0]);
      SyncStep(cfg, w, plan, pr, actions[0]);
      SyncRun(cfg, Step(cfg, w, actions[0]), plan, Track(cfg, w, actions[0], pr), actions[1..]);
    }
  }

  // ---------------------------------------------------------------------------------------
  // Main results
  // ---------------------------------------------------------------------------------------

  /** Whatever the interleaving, once every owner of the plan has completed one pass each member lists
      each of them, itself excepted, with its value: no update is lost. */
  lemma EveryoneListed(cfg: Config, w: World, plan: Plan, actions: seq<Action>, p: Name, o: Owner)
    requires ValidConfig(cfg) && Inv(cfg, w) && Settled(cfg, w, plan)
    requires forall a :: a in actions ==> Quiet(cfg, plan, a)
    requires plan.values.Keys <= TrackRun(cfg, w, actions, NOTHING_DONE).done
    requires p in plan.members && o in plan.values && OfRouter(p) != o
    ensures EntryOf(Run(cfg, w, actions), p, o) == Some(plan.values[o])
  {
    hide Run, TrackRun, Inv, Settled, EntryOf, Quiet;
    assert Syncing(w, plan, NOTHING_DONE);
    SyncRun(cfg, w, plan, NOTHING_DONE, actions);
    var w' := Run(cfg, w, actions);
    var pr := TrackRun(cfg, w, actions, NOTHING_DONE);
    assert OwnerSynced(w', plan, pr, o);
    assert o in plan.values.Keys;
  }

  // ---------------------------------------------------------------------------------------
  // Routers that announce nothing
  // ---------------------------------------------------------------------------------------

  /** A pass that announces nothing. */
  predicate Mute(pass: Pass) {
    pass.Closing? || (pass.Listing? && pass.face.None?)
  }

  predicate KeepsSilence(st: Status, kind: Silence) {
    match kind
    case Offline => !st.online
    case Faceless => st.innerFace.None?
  }

  /** The router announces nothing, and nobody lists it. */
  ghost predicate Silent(w: World, n: Name, kind: Silence) {
    && (StatusOf(w, n).Some? ==> KeepsSilence(StatusOf(w, n).value, kind))
    && (forall p :: EntryOf(w, p, OfRouter(n)).None?)
    && (OfRouter(n) in w.passes ==> Mute(w.passes[OfRouter(n)]))
  }

  /** The router does not come online, or gets no face, and is not deleted. */
  predicate LeavesSilent(a: Action, n: Name, kind: Silence) {
    match a
    case Online(m) => m == n ==> kind.Faceless?
    case Init(m, face) => m == n ==> kind.Offline? || face.None?
    case RequestDelete(o) => o != OfRouter(n)
    case _ => true
  }

  /** A router that is silent stays so. */
  predicate Hushed(plan: Plan, a: Action) {
    forall n :: n in plan.silent ==> LeavesSilent(a, n, plan.silent[n])
  }

  predicate NotLeaving(w: World, o: Owner) {
    o in w.meta ==> !w.meta[o].deleting
  }

  /** Every router of the network announces its face or is silent. */
  ghost predicate Accounted(w: World, plan: Plan) {
    && (forall n :: n in plan.members ==> OfRouter(n) in plan.values || n in plan.silent)
    && (forall n :: n in plan.silent ==> OfRouter(n) !in plan.values && n in plan.members && Silent(w, n, plan.silent[n]))
  }

  /** What the pass of a silent router can do. */
  predicate MuteEffect(e: Effect) {
    (e.Proceed? && Mute(e.next)) || e.Report? || e.AddFinalizer?
  }

  lemma MuteBegin(cfg: Config, w: World, n: Name, kind: Silence, now: Time)
    requires ValidConfig(cfg) && OfRouter(n) in cfg.network && Staying(w, OfRouter(n)) && Silent(w, n, kind)
    ensures MuteEffect(Begin(cfg, w, OfRouter(n), now))
  {
    hide EntryOf;
  }

  lemma MuteContinue(cfg: Config, w: World, n: Name, kind: Silence, order: seq<Name>, now: Time)
    requires OfRouter(n) in w.passes && Silent(w, n, kind)
    ensures MuteEffect(Continue(cfg, w, OfRouter(n), order, now))
  {
    hide EntryOf, IsListing;
  }

  /** A silent router's own steps, and everyone else's, leave it silent. */
  lemma SilentEffect(w: World, x: Owner, e: Effect, n: Name, kind: Silence)
    requires Silent(w, n, kind)
    requires x == OfRouter(n) ==> MuteEffect(e)
    ensures Silent(Apply(w, x, e), n, kind)
    ensures NotLeaving(w, OfRouter(n)) ==> NotLeaving(Apply(w, x, e), OfRouter(n))
  {
    hide Apply, EntryOf, StatusOf;
    var w' := Apply(w, x, e);
    forall p ensures EntryOf(w', p, OfRouter(n)).None? {
      ApplyEntry(w, x, e, p, OfRouter(n));
    }
    SilentStatus(w, x, e, n);
    OwnMeta(w, x, e);
    if x != OfRouter(n) {
      OtherMeta(w, x, e, OfRouter(n));
    }
  }

  /** No effect changes a status in what makes a router silent, and a status that it makes is a default. */
  lemma SilentStatus(w: World, x: Owner, e: Effect, n: Name)
    ensures var after := StatusOf(Apply(w, x, e), n);
            after.Some? ==>
              var was := StatusOf(w, n).GetOr(DEFAULT_STATUS);
              after.value.online == was.online && after.value.innerFace == was.innerFace
  {
    match e {
      case PutEntry(q, u, next) =>
      case DropEntry(q, next) =>
      case Report(_) =>
      case Release =>
      case Proceed(_) =>
      case AddFinalizer =>
      case Finish =>
      case Fail =>
    }
  }

  lemma SilentStep(cfg: Config, w: World, a: Action, n: Name, kind: Silence)
    requires ValidConfig(cfg) && Inv(cfg, w) && Silent(w, n, kind) && NotLeaving(w, OfRouter(n)) && LeavesSilent(a, n, kind)
    ensures Silent(Step(cfg, w, a), n, kind) && NotLeaving(Step(cfg, w, a), OfRouter(n))
  {
    hide Apply, Begin, Continue, EntryOf, PassesOk, EntriesOk, FacesOk;
    match a {
      case BeginPass(x, now) =>
        if x in cfg.network && x in w.meta && x !in w.passes {
          if x == OfRouter(n) { MuteBegin(cfg, w, n, kind, now); }
          SilentEffect(w, x, Begin(cfg, w, x, now), n, kind);
        }
      case ContinuePass(x, order, now) =>
        if x in w.passes {
          if x == OfRouter(n) { MuteContinue(cfg, w, n, kind, order, now); }
          SilentEffect(w, x, Continue(cfg, w, x, order, now), n, kind);
        }
      case _ => SilentOther(cfg, w, a, n, kind);
    }
  }

  lemma SilentOther(cfg: Config, w: World, a: Action, n: Name, kind: Silence)
    requires ValidConfig(cfg) && Inv(cfg, w) && Silent(w, n, kind) && NotLeaving(w, OfRouter(n)) && LeavesSilent(a, n, kind)
    requires !a.BeginPass? && !a.ContinuePass?
    ensures Silent(Step(cfg, w, a), n, kind) && NotLeaving(Step(cfg, w, a), OfRouter(n))
  {
    hide EntryOf, Step, EntriesOk, PassesOk, FacesOk;
    var w' := Step(cfg, w, a);
    forall p ensures EntryOf(w', p, OfRouter(n)).None? {
      match a {
        case Create(x) => MeshTheorems.CreatedEntry(cfg, w, x, p, OfRouter(n));
        case RequestDelete(x) => MeshTheorems.DeletedEntry(cfg, w, x, p, OfRouter(n));
        case Init(_, _) => MeshTheorems.StatusEntry(cfg, w, a, p, OfRouter(n));
        case Online(_) => MeshTheorems.StatusEntry(cfg, w, a, p, OfRouter(n));
        case Crash(x) => CrashRouters(cfg, w, x); SameRouters(w, w', p, OfRouter(n));
      }
    }
    SilentFields(cfg, w, a, n, kind);
  }

  lemma CrashRouters(cfg: Config, w: World, x: Owner)
    requires ValidConfig(cfg)
    ensures Step(cfg, w, Crash(x)).routers == w.routers
  {
  }

  lemma SilentFields(cfg: Config, w: World, a: Action, n: Name, kind: Silence)
    requires ValidConfig(cfg) && ObjectsOk(cfg, w) && Silent(w, n, kind) && NotLeaving(w, OfRouter(n)) && LeavesSilent(a, n, kind)
    requires !a.BeginPass? && !a.ContinuePass?
    ensures var w' := Step(cfg, w, a);
            && (StatusOf(w', n).Some? ==> KeepsSilence(StatusOf(w', n).value, kind))
            && (OfRouter(n) in w'.passes ==> Mute(w'.passes[OfRouter(n)]))
            && NotLeaving(w', OfRouter(n))
  {
    hide EntryOf, Mute;
    match a {
      case RequestDelete(x) => assert x != OfRouter(n);
      case _ =>
    }
  }

  lemma {:induction false} SilentRun(cfg: Config, w: World, actions: seq<Action>, n: Name, kind: Silence)
    requires ValidConfig(cfg) && Inv(cfg, w) && Silent(w, n, kind) && NotLeaving(w, OfRouter(n))
    requires forall a :: a in actions ==> LeavesSilent(a, n, kind)
    ensures Silent(Run(cfg, w, actions), n, kind)
    decreases |actions|
  {
    hide Inv, Silent, Step, LeavesSilent, NotLeaving;
    if actions != [] {
      StepInv(cfg, w, actions[0]);
      SilentStep(cfg, w, actions[0], n, kind);
      SilentRun(cfg, Step(cfg, w, actions[0]), actions[1..], n, kind);
    }
  }

  /** In particular a router that never came online is silent in every reachable world, and so is one whose
      init container never found a face. */
  lemma SilentFromTheStart(cfg: Config, actions: seq<Action>, n: Name, kind: Silence)
    requires ValidConfig(cfg)
    requires forall a :: a in actions ==> LeavesSilent(a, n, kind)
    ensures Silent(Run(cfg, EMPTY_WORLD, actions), n, kind)
  {
    hide Run;
    MeshTheorems.EmptyInv(cfg);
    SilentRun(cfg, EMPTY_WORLD, actions, n, kind);
  }

  lemma AccountedRun(cfg: Config, w: World, plan: Plan, actions: seq<Action>)
    requires ValidConfig(cfg) && Inv(cfg, w) && Settled(cfg, w, plan) && Accounted(w, plan)
    requires forall a :: a in actions ==> Hushed(plan, a)
    ensures Accounted(Run(cfg, w, actions), plan)
  {
    hide Run, Inv, Silent, LeavesSilent;
    var w' := Run(cfg, w, actions);
    forall n | n in plan.silent ensures Silent(w', n, plan.silent[n]) {
      assert Staying(w, OfRouter(n));
      forall a | a in actions ensures LeavesSilent(a, n, plan.silent[n]) { assert Hushed(plan, a); }
      SilentRun(cfg, w, actions, n, plan.silent[n]);
    }
  }

  // ---------------------------------------------------------------------------------------
  // The mesh
  // ---------------------------------------------------------------------------------------

  /** Everyone but `p` who is online with a face, each with that face. */
  function OnlineMesh(plan: Plan, p: Name): map<Name, Uri> {
    map n | n in plan.members && n != p && OfRouter(n) in plan.values :: plan.values[OfRouter(n)]
  }

  /** Main result: every interleaving of one full pass of each router that is online with a face gives one
      and the same inner map at each router, online itself or not: these routers and no others. */
  lemma OnlineMeshReached(cfg: Config, w: World, plan: Plan, actions: seq<Action>, p: Name)
    requires ValidConfig(cfg) && Inv(cfg, w) && Settled(cfg, w, plan) && Accounted(w, plan)
    requires forall a :: a in actions ==> Quiet(cfg, plan, a) && Hushed(plan, a)
    requires plan.values.Keys <= TrackRun(cfg, w, actions, NOTHING_DONE).done
    requires p in plan.members
    ensures StatusOf(Run(cfg, w, actions), p).Some?
    ensures StatusOf(Run(cfg, w, actions), p).value.innerNeighbors == OnlineMesh(plan, p)
  {
    hide Run, TrackRun, Quiet, Hushed, EntryOf, EntriesOk, PassesOk, FacesOk, ObjectsOk, OnlineMesh, Silent;
    var w' := Run(cfg, w, actions);
    SyncRun(cfg, w, plan, NOTHING_DONE, actions);
    AccountedRun(cfg, w, plan, actions);
    forall n | n in plan.members && n != p && OfRouter(n) in plan.values
      ensures EntryOf(w', p, OfRouter(n)) == Some(plan.values[OfRouter(n)])
    {
      EveryoneListed(cfg, w, plan, actions, p, OfRouter(n));
    }
    MeshIsComplete(cfg, w', plan, p);
  }

  /** No one else is listed. */
  lemma MeshIsComplete(cfg: Config, w: World, plan: Plan, p: Name)
    requires EntriesOk(cfg, w) && ObjectsOk(cfg, w) && MembersOk(cfg, w, plan) && Accounted(w, plan) && p in plan.members
    requires forall n :: n in plan.members && n != p && OfRouter(n) in plan.values
               ==> EntryOf(w, p, OfRouter(n)) == Some(plan.values[OfRouter(n)])
    ensures StatusOf(w, p).Some? && StatusOf(w, p).value.innerNeighbors == OnlineMesh(plan, p)
  {
    var inner := StatusOf(w, p).value.innerNeighbors;
    forall n ensures n in inner <==> n in OnlineMesh(plan, p) {
      assert EntryOk(cfg, w, p, OfRouter(n));
      if n in plan.silent { assert EntryOf(w, p, OfRouter(n)).None?; }
      if n in OnlineMesh(plan, p) { assert EntryOf(w, p, OfRouter(n)).Some?; }
    }
    forall n | n in inner ensures inner[n] == OnlineMesh(plan, p)[n] {
      assert EntryOf(w, p, OfRouter(n)) == Some(plan.values[OfRouter(n)]);
    }
  }

  /** All routers of the network are online with a face. */
  predicate IsMesh(plan: Plan) {
    plan.silent == map[] && forall n :: n in plan.members ==> OfRouter(n) in plan.values
  }

  /** Everyone but `p`, each with its face. */
  function FullMesh(plan: Plan, p: Name): map<Name, Uri>
    requires IsMesh(plan)
  {
    map n | n in plan.members && n != p :: plan.values[OfRouter(n)]
  }

  /** When that is all of them, the inner maps are the full mesh. */
  lemma FullMeshReached(cfg: Config, w: World, plan: Plan, actions: seq<Action>, p: Name)
    requires ValidConfig(cfg) && Inv(cfg, w) && Settled(cfg, w, plan) && IsMesh(plan)
    requires forall a :: a in actions ==> Quiet(cfg, plan, a)
    requires plan.values.Keys <= TrackRun(cfg, w, actions, NOTHING_DONE).done
    requires p in plan.members
    ensures StatusOf(Run(cfg, w, actions), p).Some?
    ensures StatusOf(Run(cfg, w, actions), p).value.innerNeighbors == FullMesh(plan, p)
  {
    hide Run, TrackRun, Quiet, Inv, Settled, StatusOf;
    assert OnlineMesh(plan, p) == FullMesh(plan, p);
    OnlineMeshReached(cfg, w, plan, actions, p);
  }

  // ---------------------------------------------------------------------------------------
  // End to end, with Neighbors and sidecars
  // ---------------------------------------------------------------------------------------

  /** The plan is about all Neighbors of its network too. */
  ghost predicate CoversNeighbors(cfg: Config, w: World, plan: Plan) {
    forall n :: OfNeighbor(n) in w.meta && OnNet(cfg, OfNeighbor(n), plan.net) ==> OfNeighbor(n) in plan.values
  }

  predicate NoNewNeighbor(cfg: Config, plan: Plan, a: Action) {
    a.Create? && a.o.OfNeighbor? ==> !OnNet(cfg, a.o, plan.net)
  }

  lemma MetaStep(cfg: Config, w: World, a: Action, o: Owner)
    requires ValidConfig(cfg) && o !in w.meta && a != Create(o)
    ensures o !in Step(cfg, w, a).meta
  {
    hide Begin, Continue;
    match a {
      case BeginPass(x, now) =>
        if x in cfg.network && x in w.meta && x !in w.passes { OwnMeta(w, x, Begin(cfg, w, x, now)); }
      case ContinuePass(x, order, now) =>
        if x in w.passes { OwnMeta(w, x, Continue(cfg, w, x, order, now)); }
      case Create(_) =>
      case RequestDelete(_) =>
      case Init(_, _) =>
      case Online(_) =>
      case Crash(_) =>
    }
  }

  lemma {:induction false} NeighborsCovered(cfg: Config, w: World, plan: Plan, actions: seq<Action>)
    requires ValidConfig(cfg) && CoversNeighbors(cfg, w, plan)
    requires forall a :: a in actions ==> NoNewNeighbor(cfg, plan, a)
    ensures CoversNeighbors(cfg, Run(cfg, w, actions), plan)
    decreases |actions|
  {
    hide Step;
    if actions != [] {
      var w1 := Step(cfg, w, actions[0]);
      assert NoNewNeighbor(cfg, plan, actions[0]);
      forall n | OfNeighbor(n) in w1.meta && OnNet(cfg, OfNeighbor(n), plan.net) ensures OfNeighbor(n) in plan.values {
        if OfNeighbor(n) !in w.meta { MetaStep(cfg, w, actions[0], OfNeighbor(n)); }
      }
      NeighborsCovered(cfg, w1, plan, actions[1..]);
    }
  }

  /** The network's Neighbors, each with its URI. */
  function NeighborMap(plan: Plan): map<Name, Uri> {
    map o | o in plan.values && o.OfNeighbor? :: o.name := plan.values[o]
  }

  lemma OuterReached(cfg: Config, w: World, plan: Plan, actions: seq<Action>, p: Name)
    requires ValidConfig(cfg) && Inv(cfg, w) && Settled(cfg, w, plan) && CoversNeighbors(cfg, w, plan)
    requires forall a :: a in actions ==> Quiet(cfg, plan, a) && NoNewNeighbor(cfg, plan, a)
    requires plan.values.Keys <= TrackRun(cfg, w, actions, NOTHING_DONE).done
    requires p in plan.members
    ensures StatusOf(Run(cfg, w, actions), p).Some?
    ensures StatusOf(Run(cfg, w, actions), p).value.outerNeighbors == NeighborMap(plan)
  {
    hide Run, TrackRun, Quiet, NoNewNeighbor, EntryOf, EntriesOk, PassesOk, FacesOk, ObjectsOk, NeighborMap, CoversNeighbors;
    var w' := Run(cfg, w, actions);
    SyncRun(cfg, w, plan, NOTHING_DONE, actions);
    NeighborsCovered(cfg, w, plan, actions);
    forall o | o in plan.values && o.OfNeighbor? ensures EntryOf(w', p, o) == Some(plan.values[o]) {
      EveryoneListed(cfg, w, plan, actions, p, o);
    }
    OuterIsComplete(cfg, w', plan, p);
  }

  /** No other Neighbor is listed. */
  lemma OuterIsComplete(cfg: Config, w: World, plan: Plan, p: Name)
    requires EntriesOk(cfg, w) && MembersOk(cfg, w, plan) && CoversNeighbors(cfg, w, plan) && p in plan.members
    requires forall o :: o in plan.values && o.OfNeighbor? ==> EntryOf(w, p, o) == Some(plan.values[o])
    ensures StatusOf(w, p).Some? && StatusOf(w, p).value.outerNeighbors == NeighborMap(plan)
  {
    var outer := StatusOf(w, p).value.outerNeighbors;
    forall n | n in outer ensures n in NeighborMap(plan) && outer[n] == NeighborMap(plan)[n] {
      assert EntryOk(cfg, w, p, OfNeighbor(n));
      assert EntryOf(w, p, OfNeighbor(n)) == Some(plan.values[OfNeighbor(n)]);
      assert OfNeighbor(n).name == n;
    }
    forall o | o in plan.values && o.OfNeighbor? ensures o.name in outer {
      assert EntryOf(w, p, o).Some?;
    }
  }

  /** Main result, end to end: when every router that is online with a face and every Neighbor of a network
      has completed a pass and the sidecar of `p` has handled the event with its last status, the links that
      its commands have left are exactly the faces of its online peers and the URIs of the Neighbors. */
  lemma LinksReached(cfg: Config, w: World, plan: Plan, actions: seq<Action>, p: Name,
                     events: seq<Option<Status>>, log: seq<Sidecar.Command>)
    requires ValidConfig(cfg) && Inv(cfg, w) && Settled(cfg, w, plan) && Accounted(w, plan) && CoversNeighbors(cfg, w, plan)
    requires forall a :: a in actions ==> Quiet(cfg, plan, a) && Hushed(plan, a) && NoNewNeighbor(cfg, plan, a)
    requires plan.values.Keys <= TrackRun(cfg, w, actions, NOTHING_DONE).done
    requires p in plan.members
    requires Sidecar.Session(events, log) && events != []
    requires events[|events| - 1] == StatusOf(Run(cfg, w, actions), p)
    ensures Sidecar.Live(log) == OnlineMesh(plan, p).Values + NeighborMap(plan).Values
    ensures Sidecar.Alternates(log)
  {
    hide Run, TrackRun, Quiet, Hushed, NoNewNeighbor, Settled, Accounted, Inv, StatusOf, OnlineMesh, NeighborMap, Sidecar.Session, Sidecar.Live, Sidecar.Alternates;
    OnlineMeshReached(cfg, w, plan, actions, p);
    OuterReached(cfg, w, plan, actions, p);
    Sidecar.SessionAlternates(events, log);
  }

  // ---------------------------------------------------------------------------------------
  // Passes do complete
  // ---------------------------------------------------------------------------------------

  /** In a settled network no pass that began there is refused a patch. */
  lemma NoPassFails(cfg: Config, w: World, plan: Plan, actions: seq<Action>, o: Owner, order: seq<Name>, now: Time)
    requires ValidConfig(cfg) && Inv(cfg, w) && Settled(cfg, w, plan)
    requires forall a :: a in actions ==> Quiet(cfg, plan, a)
    requires o in plan.values && o in TrackRun(cfg, w, actions, NOTHING_DONE).begun
    ensures var w' := Run(cfg, w, actions);
            o in w'.passes && !Continue(cfg, w', o, order, now).Fail?
  {
    hide Run, TrackRun, Quiet, Inv, Settled, Continue;
    assert Syncing(w, plan, NOTHING_DONE);
    SyncRun(cfg, w, plan, NOTHING_DONE, actions);
    var w' := Run(cfg, w, actions);
    assert OwnerSynced(w', plan, TrackRun(cfg, w, actions, NOTHING_DONE), o);
    ContinueSynced(cfg, w', plan, TrackRun(cfg, w, actions, NOTHING_DONE), o, order, now);
  }

  /** Its own patches bring a pass to its end: one for each router that is left, and one more. */
  lemma {:induction false} AddingCompletes(cfg: Config, w: World, plan: Plan, pr: Progress, o: Owner, now: Time, k: nat)
    requires ValidConfig(cfg) && Inv(cfg, w) && Settled(cfg, w, plan) && Syncing(w, plan, pr)
    requires o in plan.values && o in pr.begun && w.passes[o].Adding? && k > |w.passes[o].todo|
    ensures o in TrackRun(cfg, w, MeshPasses.Repeat(ContinuePass(o, [], now), k), pr).done
    decreases k
  {
    hide Inv, Settled, EntryOf, Announced;
    var a := ContinuePass(o, [], now);
    var rest := MeshPasses.Repeat(a, k - 1);
    assert MeshPasses.Repeat(a, k)[1..] == rest;
    assert Quiet(cfg, plan, a);
    assert OwnerSynced(w, plan, pr, o);
    var w1 := Step(cfg, w, a);
    var pr1 := Track(cfg, w, a, pr);
    ContinueSynced(cfg, w, plan, pr, o, [], now);
    StepInv(cfg, w, a);
    SettledStep(cfg, w, plan, a);
    SyncStep(cfg, w, plan, pr, a);
    if w.passes[o].todo == [] {
      DoneStays(cfg, w1, rest, pr1, o);
    } else {
      OwnMeta(w, o, Continue(cfg, w, o, [], now));
      AddingCompletes(cfg, w1, plan, pr1, o, now, k - 1);
    }
  }

  lemma {:induction false} DoneStays(cfg: Config, w: World, actions: seq<Action>, pr: Progress, o: Owner)
    requires ValidConfig(cfg) && o in pr.done
    ensures o in TrackRun(cfg, w, actions, pr).done
    decreases |actions|
  {
    if actions != [] {
      DoneStays(cfg, Step(cfg, w, actions[0]), actions[1..], Track(cfg, w, actions[0], pr), o);
    }
  }

  /** So in a settled network a whole pass of an owner counts as done. */
  lemma PassCompletes(cfg: Config, w: World, plan: Plan, pr: Progress, o: Owner, order: seq<Name>, start: Time, end: Time)
    requires ValidConfig(cfg) && Inv(cfg, w) && Settled(cfg, w, plan) && Syncing(w, plan, pr)
    requires o in plan.values && o !in w.passes && Held(w, o) && IsListing(cfg, w, o, order)
    ensures o in TrackRun(cfg, w, MeshPasses.PassSteps(o, order, start, end), pr).done
  {
    hide Inv, IsListing, EntryOf, NoRepeats, MembersOk, Syncing, Announced, SameNetwork;
    var a, b := BeginPass(o, start), ContinuePass(o, order, end);
    var rest := MeshPasses.Repeat(ContinuePass(o, [], end), |order| + 1);
    assert ([a, b] + rest)[1..] == [b] + rest && ([b] + rest)[1..] == rest;
    var w1, pr1 := Step(cfg, w, a), Track(cfg, w, a, pr);
    var w2, pr2 := Step(cfg, w1, b), Track(cfg, w1, b, pr1);
    assert Quiet(cfg, plan, a) && Quiet(cfg, plan, b);
    assert Announces(cfg, w, o, plan.values[o]);
    StepInv(cfg, w, a);
    SettledStep(cfg, w, plan, a);
    SyncStep(cfg, w, plan, pr, a);
    StepInv(cfg, w1, b);
    SettledStep(cfg, w1, plan, b);
    SyncStep(cfg, w1, plan, pr1, b);
    MeshPasses.ListingKept(cfg, w, w1, o, order);
    AddingCompletes(cfg, w2, plan, pr2, o, end, |order| + 1);
  }
}
