/** What the invariant says about every run of the mesh protocol. */
module MeshTheorems {
  import opened Wrappers
  import opened Conditions
  import opened MeshTypes
  import opened MeshWorld
  import opened MeshSafety
  import opened MeshPasses

  lemma EmptyInv(cfg: Config)
    ensures Inv(cfg, EMPTY_WORLD)
  {
  }

  lemma ReachableInv(cfg: Config, actions: seq<Action>)
    requires ValidConfig(cfg)
    ensures Inv(cfg, Run(cfg, EMPTY_WORLD, actions))
  {
    EmptyInv(cfg);
    RunInv(cfg, EMPTY_WORLD, actions);
  }

  /** In every reachable world an inner neighbour is a different router of the same network that still
      exists, listed with a face that it published. */
  lemma InnerEntriesAreSound(cfg: Config, actions: seq<Action>, p: Name, n: Name)
    requires ValidConfig(cfg)
    ensures var w := Run(cfg, EMPTY_WORLD, actions);
            EntryOf(w, p, OfRouter(n)).Some? ==>
              && n != p && n in w.routers && p in w.routers
              && SameNetwork(cfg, OfRouter(n), OfRouter(p))
              && (n, EntryOf(w, p, OfRouter(n)).value) in w.published
  {
    hide Run, PassesOk, FacesOk;
    var w := Run(cfg, EMPTY_WORLD, actions);
    ReachableInv(cfg, actions);
    assert EntryOk(cfg, w, p, OfRouter(n));
  }

  /** And an outer neighbour is a Neighbor of the router's network that still exists, with its URI. */
  lemma OuterEntriesAreSound(cfg: Config, actions: seq<Action>, p: Name, n: Name)
    requires ValidConfig(cfg)
    ensures var w := Run(cfg, EMPTY_WORLD, actions);
            EntryOf(w, p, OfNeighbor(n)).Some? ==>
              && OfNeighbor(n) in w.meta && p in w.routers
              && SameNetwork(cfg, OfNeighbor(n), OfRouter(p))
              && n in cfg.uri && EntryOf(w, p, OfNeighbor(n)) == Some(cfg.uri[n])
  {
    hide Run, PassesOk, FacesOk;
    var w := Run(cfg, EMPTY_WORLD, actions);
    ReachableInv(cfg, actions);
    assert EntryOk(cfg, w, p, OfNeighbor(n));
  }

  // ---------------------------------------------------------------------------------------
  // Cleanup
  // ---------------------------------------------------------------------------------------

  /** Objects that have gone stay away: a name is used once. */
  predicate Gone(w: World, o: Owner) {
    o in w.used && o !in w.meta
  }

  lemma GoneStep(cfg: Config, w: World, a: Action, o: Owner)
    requires ValidConfig(cfg) && Gone(w, o)
    ensures Gone(Step(cfg, w, a), o)
  {
    hide Begin, Continue;
    match a {
      case BeginPass(x, now) =>
        if x in cfg.network && x in w.meta && x !in w.passes { OwnMeta(w, x, Begin(cfg, w, x, now)); }
      case ContinuePass(x, order, now) =>
        if x in w.passes { OwnMeta(w, x, Continue(cfg, w, x, order, now)); }
      case Create(_) =>
      case RequestDelete(_) =>
      case Init(_, _) =>
      case Online(_) =>
      case Crash(_) =>
    }
  }

  lemma {:induction false} GoneRun(cfg: Config, w: World, actions: seq<Action>, o: Owner)
    requires ValidConfig(cfg) && Gone(w, o)
    ensures Gone(Run(cfg, w, actions), o)
    decreases |actions|
  {
    hide Gone, Step;
    if actions != [] {
      GoneStep(cfg, w, actions[0], o);
      GoneRun(cfg, Step(cfg, w, actions[0]), actions[1..], o);
    }
  }

  /** Once the cleanup of a router or a Neighbor has completed, after whatever failed attempts and with
      whatever else going on meanwhile, no router ever lists it again. */
  lemma CleanedUpForGood(cfg: Config, actions: seq<Action>, later: seq<Action>, o: Owner, p: Name)
    requires ValidConfig(cfg) && Gone(Run(cfg, EMPTY_WORLD, actions), o)
    ensures EntryOf(Run(cfg, Run(cfg, EMPTY_WORLD, actions), later), p, o).None?
  {
    hide Run, PassesOk, FacesOk;
    var w := Run(cfg, EMPTY_WORLD, actions);
    var w' := Run(cfg, w, later);
    ReachableInv(cfg, actions);
    RunInv(cfg, w, later);
    GoneRun(cfg, w, later, o);
    assert EntryOk(cfg, w', p, o);
  }

  /** A router's removal of its entry can only fail because the peer itself has gone since it was
      listed: whatever was removed by earlier attempts, and whoever joined, is no obstacle. */
  lemma RouterRemovalFailsOnlyIfPeerGone(cfg: Config, actions: seq<Action>, n: Name, order: seq<Name>, now: Time)
    requires ValidConfig(cfg)
    requires var w := Run(cfg, EMPTY_WORLD, actions);
             OfRouter(n) in w.passes && w.passes[OfRouter(n)].Removing? && w.passes[OfRouter(n)].todo != []
    ensures var w := Run(cfg, EMPTY_WORLD, actions);
            Continue(cfg, w, OfRouter(n), order, now).Fail? <==> w.passes[OfRouter(n)].todo[0] !in w.routers
  {
    hide Run, EntriesOk, FacesOk;
    var w := Run(cfg, EMPTY_WORLD, actions);
    ReachableInv(cfg, actions);
    assert PassOk(cfg, w, OfRouter(n), w.passes[OfRouter(n)]);
    assert w.passes[OfRouter(n)].todo[0] in w.passes[OfRouter(n)].todo;
  }

  /** When the last patch of a cleanup is done nobody lists the object, and it goes. */
  lemma ReleaseOnlyWhenUnlisted(cfg: Config, actions: seq<Action>, o: Owner, order: seq<Name>, now: Time, p: Name)
    requires ValidConfig(cfg)
    requires var w := Run(cfg, EMPTY_WORLD, actions);
             o in w.passes && Continue(cfg, w, o, order, now).Release?
    ensures var w := Run(cfg, EMPTY_WORLD, actions);
            EntryOf(w, p, o).None? && Gone(Step(cfg, w, ContinuePass(o, order, now)), o)
  {
    hide Run, EntriesOk, FacesOk;
    var w := Run(cfg, EMPTY_WORLD, actions);
    ReachableInv(cfg, actions);
    assert PassOk(cfg, w, o, w.passes[o]);
    OwnMeta(w, o, Release);
  }

  // ---------------------------------------------------------------------------------------
  // A Neighbor whose cleanup is blocked
  // ---------------------------------------------------------------------------------------

  /** Router `p` is of the Neighbor's network and does not list it, while the Neighbor is being deleted:
      because an earlier attempt removed that entry and then failed elsewhere, because `p` joined after
      the Neighbor had been announced, or because `p` has no status. */
  predicate Blocked(cfg: Config, w: World, n: Name, p: Name) {
    var o := OfNeighbor(n);
    && o in w.meta && w.meta[o].deleting && w.meta[o].finalizer
    && IsPeer(cfg, w, o, p)
    && EntryOf(w, p, o).None?
    && (o in w.passes ==>
          w.passes[o].CleanupListing? || (w.passes[o].Removing? && p in w.passes[o].todo))
  }

  /** No attempt ever completes: one attempt ends by failing, at `p` or before. */
  lemma BlockedStep(cfg: Config, w: World, a: Action, n: Name, p: Name)
    requires ValidConfig(cfg) && Inv(cfg, w) && Blocked(cfg, w, n, p)
    ensures var w' := Step(cfg, w, a); p !in w'.routers || Blocked(cfg, w', n, p)
  {
    hide Inv, EntryOf;
    var o := OfNeighbor(n);
    var w' := Step(cfg, w, a);
    match a {
      case BeginPass(x, now) =>
        if x in cfg.network && x in w.meta && x !in w.passes {
          if x == o { BlockedOwn(cfg, w, Begin(cfg, w, x, now), n, p); } else { BlockedOther(cfg, w, x, Begin(cfg, w, x, now), n, p); }
        }
      case ContinuePass(x, order, now) =>
        if x in w.passes {
          if x == o {
            BlockedContinue(cfg, w, n, p, order, now);
            BlockedOwn(cfg, w, Continue(cfg, w, x, order, now), n, p);
          } else {
            BlockedOther(cfg, w, x, Continue(cfg, w, x, order, now), n, p);
          }
        }
      case Create(x) => if x in cfg.network && x !in w.used { CreatedEntry(cfg, w, x, p, o); }
      case RequestDelete(x) => DeletedEntry(cfg, w, x, p, o);
      case Init(m, face) => StatusEntry(cfg, w, a, p, o);
      case Online(m) => StatusEntry(cfg, w, a, p, o);
      case Crash(x) => SameRouters(w, w', p, o);
    }
  }

  lemma CreatedEntry(cfg: Config, w: World, x: Owner, p: Name, o: Owner)
    requires ValidConfig(cfg) && Inv(cfg, w)
    ensures EntryOf(Step(cfg, w, Create(x)), p, o) == EntryOf(w, p, o)
    ensures o in w.meta ==> o in Step(cfg, w, Create(x)).meta && Step(cfg, w, Create(x)).meta[o] == w.meta[o]
  {
    hide EntryIn, PassesOk, EntriesOk, FacesOk;
  }

  lemma DeletedEntry(cfg: Config, w: World, x: Owner, p: Name, o: Owner)
    requires ValidConfig(cfg)
    ensures EntryOf(Step(cfg, w, RequestDelete(x)), p, o).Some? ==> EntryOf(w, p, o).Some?
  {
    hide EntryIn;
  }

  lemma StatusEntry(cfg: Config, w: World, a: Action, p: Name, o: Owner)
    requires ValidConfig(cfg) && (a.Init? || a.Online?)
    ensures EntryOf(Step(cfg, w, a), p, o) == EntryOf(w, p, o)
  {
  }

  lemma BlockedOther(cfg: Config, w: World, x: Owner, e: Effect, n: Name, p: Name)
    requires x != OfNeighbor(n) && Blocked(cfg, w, n, p)
    ensures var w' := Apply(w, x, e); p !in w'.routers || Blocked(cfg, w', n, p)
  {
    hide EntryOf, Apply;
    OtherEntry(w, x, e, p, OfNeighbor(n));
    OtherMeta(w, x, e, OfNeighbor(n));
  }

  /** What the Neighbor's own controller can still do. */
  ghost predicate BlockedEffect(e: Effect, p: Name) {
    e.Fail? || (e.Proceed? && (e.next.CleanupListing? || (e.next.Removing? && p in e.next.todo)))
    || (e.DropEntry? && p != e.p && e.next.Removing? && p in e.next.todo)
  }

  lemma BlockedContinue(cfg: Config, w: World, n: Name, p: Name, order: seq<Name>, now: Time)
    requires Blocked(cfg, w, n, p) && OfNeighbor(n) in w.passes
    ensures BlockedEffect(Continue(cfg, w, OfNeighbor(n), order, now), p)
  {
    hide EntryOf, NoRepeats;
  }

  lemma BlockedOwn(cfg: Config, w: World, e: Effect, n: Name, p: Name)
    requires Blocked(cfg, w, n, p) && BlockedEffect(e, p)
    ensures var w' := Apply(w, OfNeighbor(n), e); p !in w'.routers || Blocked(cfg, w', n, p)
  {
    hide EntryOf, Apply;
    ApplyEntry(w, OfNeighbor(n), e, p, OfNeighbor(n));
    OwnMeta(w, OfNeighbor(n), e);
  }

  /** Main result: while the router stays, no number of attempts, with anything else going on meanwhile,
      completes the cleanup. Router names are used once, so a router that is there at the end was there
      throughout. */
  lemma {:induction false} BlockedForGood(cfg: Config, w: World, actions: seq<Action>, n: Name, p: Name)
    requires ValidConfig(cfg) && Inv(cfg, w) && Blocked(cfg, w, n, p)
    ensures p in Run(cfg, w, actions).routers ==> Blocked(cfg, Run(cfg, w, actions), n, p)
    decreases |actions|
  {
    hide Step, Inv, Blocked;
    if actions != [] {
      var w1 := Step(cfg, w, actions[0]);
      StepInv(cfg, w, actions[0]);
      BlockedStep(cfg, w, actions[0], n, p);
      if Blocked(cfg, w1, n, p) {
        BlockedForGood(cfg, w1, actions[1..], n, p);
      } else {
        LeftIsGone(cfg, w, actions[0], n, p);
        GoneRun(cfg, w1, actions[1..], OfRouter(p));
        RunInv(cfg, w1, actions[1..]);
        GoneIsAbsent(cfg, Run(cfg, w1, actions[1..]), p);
      }
    }
  }

  lemma GoneIsAbsent(cfg: Config, w: World, p: Name)
    requires Inv(cfg, w) && Gone(w, OfRouter(p))
    ensures p !in w.routers
  {
  }

  lemma LeftIsGone(cfg: Config, w: World, a: Action, n: Name, p: Name)
    requires ValidConfig(cfg) && Inv(cfg, w) && Blocked(cfg, w, n, p)
    requires Inv(cfg, Step(cfg, w, a)) && p !in Step(cfg, w, a).routers
    ensures Gone(Step(cfg, w, a), OfRouter(p))
  {
    hide EntriesOk, PassesOk, FacesOk;
    UsedGrows(cfg, w, a);
  }

  lemma UsedGrows(cfg: Config, w: World, a: Action)
    requires ValidConfig(cfg)
    ensures w.used <= Step(cfg, w, a).used
  {
    hide Begin, Continue;
    match a {
      case BeginPass(x, now) =>
        if x in cfg.network && x in w.meta && x !in w.passes { OwnMeta(w, x, Begin(cfg, w, x, now)); }
      case ContinuePass(x, order, now) =>
        if x in w.passes { OwnMeta(w, x, Continue(cfg, w, x, order, now)); }
      case Create(_) =>
      case RequestDelete(_) =>
      case Init(_, _) =>
      case Online(_) =>
      case Crash(_) =>
    }
  }

  /** How it comes about: an attempt that has removed the entry of `p` and then fails leaves the
      Neighbor blocked by `p`. */
  lemma FailedCleanupBlocks(cfg: Config, w: World, n: Name, p: Name, order: seq<Name>, now: Time)
    requires ValidConfig(cfg) && Inv(cfg, w)
    requires OfNeighbor(n) in w.passes && w.passes[OfNeighbor(n)].Removing?
    requires IsPeer(cfg, w, OfNeighbor(n), p) && EntryOf(w, p, OfNeighbor(n)).None?
    requires Continue(cfg, w, OfNeighbor(n), order, now).Fail?
    ensures Blocked(cfg, Step(cfg, w, ContinuePass(OfNeighbor(n), order, now)), n, p)
  {
    hide EntriesOk, FacesOk, ObjectsOk, EntryIn;
    assert PassOk(cfg, w, OfNeighbor(n), w.passes[OfNeighbor(n)]);
  }

  /** A run in which it happens without any crash: a router joins after the Neighbor was announced, and
      then the Neighbor is deleted. */
  lemma LateRouterBlocks(net: Name, r: Name, n: Name, u: Uri)
    ensures var cfg := Config(map[OfRouter(r) := net, OfNeighbor(n) := net], map[n := u], 0);
            var o := OfNeighbor(n);
            ValidConfig(cfg)
            && Blocked(cfg, Run(cfg, EMPTY_WORLD, [Create(o), BeginPass(o, 0), BeginPass(o, 0), ContinuePass(o, [], 0),
                                                   ContinuePass(o, [], 0), Create(OfRouter(r)), RequestDelete(o)]), n, r)
  {
    var cfg := Config(map[OfRouter(r) := net, OfNeighbor(n) := net], map[n := u], 0);
    var o := OfNeighbor(n);
    var w1 := Step(cfg, EMPTY_WORLD, Create(o));
    var w2 := Step(cfg, w1, BeginPass(o, 0));
    assert w2 == w1.(meta := map[o := Meta(true, false)]);
    var w3 := Step(cfg, w2, BeginPass(o, 0));
    assert IsListing(cfg, w3, o, []);
    var w4 := Step(cfg, w3, ContinuePass(o, [], 0));
    assert w4.passes[o].Adding? && w4.passes[o].todo == [];
    var w5 := Step(cfg, w4, ContinuePass(o, [], 0));
    assert o !in w5.passes && w5.meta == w2.meta && w5.routers == map[] && w5.used == {o};
    var w6 := Step(cfg, w5, Create(OfRouter(r)));
    var w7 := Step(cfg, w6, RequestDelete(o));
    assert Blocked(cfg, w7, n, r);
    RunOfSeven(cfg, EMPTY_WORLD, Create(o), BeginPass(o, 0), BeginPass(o, 0), ContinuePass(o, [], 0),
               ContinuePass(o, [], 0), Create(OfRouter(r)), RequestDelete(o));
  }

  lemma RunOfSeven(cfg: Config, w: World, a: Action, b: Action, c: Action, d: Action, e: Action, f: Action, g: Action)
    requires ValidConfig(cfg)
    ensures Run(cfg, w, [a, b, c, d, e, f, g])
            == Step(cfg, Step(cfg, Step(cfg, Step(cfg, Step(cfg, Step(cfg, Step(cfg, w, a), b), c), d), e), f), g)
  {
    hide Step;
    TwoSteps(cfg, w, a, b, [c, d, e, f, g]);
    assert [a, b] + [c, d, e, f, g] == [a, b, c, d, e, f, g];
    var w2 := Step(cfg, Step(cfg, w, a), b);
    TwoSteps(cfg, w2, c, d, [e, f, g]);
    assert [c, d] + [e, f, g] == [c, d, e, f, g];
    var w4 := Step(cfg, Step(cfg, w2, c), d);
    TwoSteps(cfg, w4, e, f, [g]);
    assert [e, f] + [g] == [e, f, g];
    assert [g][1..] == [];
  }
}
