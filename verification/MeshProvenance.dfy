/** Where the published conditions of a router come from: the status its pass began with, and the
    announcements the pass made in between. */
module MeshProvenance {
  import opened Wrappers
  import opened Conditions
  import opened MeshTypes
  import opened MeshWorld

  /** The world before step `t` of a run from nothing. */
  ghost function At(cfg: Config, actions: seq<Action>, t: nat): World
    requires ValidConfig(cfg) && t <= |actions|
  {
    Run(cfg, EMPTY_WORLD, actions[..t])
  }

  /** Step `b` begins a pass on router `n`, and `seen` is the router's status then. */
  ghost predicate BeganAt(cfg: Config, actions: seq<Action>, n: Name, b: nat, seen: Seen)
    requires ValidConfig(cfg)
  {
    && b < |actions| && actions[b] == BeginPass(OfRouter(n), seen.at)
    && seen.status == StatusOf(At(cfg, actions, b), n).GetOr(DEFAULT_STATUS)
  }

  /** Step `t` lists the peers of router `n`, and `order` is the answer. */
  ghost predicate ListedAt(cfg: Config, actions: seq<Action>, n: Name, t: nat, order: seq<Name>)
    requires ValidConfig(cfg)
  {
    && t < |actions| && actions[t].ContinuePass? && actions[t].o == OfRouter(n) && actions[t].order == order
    && IsListing(cfg, At(cfg, actions, t), OfRouter(n), order)
  }

  /** Step `s` is one of a pass on router `n`, and after it router `p` lists `n` at `uri`. */
  ghost predicate ToldAt(cfg: Config, actions: seq<Action>, n: Name, s: nat, p: Name, uri: Uri)
    requires ValidConfig(cfg)
  {
    && s < |actions| && actions[s].ContinuePass? && actions[s].o == OfRouter(n)
    && EntryOf(At(cfg, actions, s + 1), p, OfRouter(n)) == Some(uri)
  }

  ghost predicate ToldSince(cfg: Config, actions: seq<Action>, n: Name, t: nat, p: Name, uri: Uri)
    requires ValidConfig(cfg)
  {
    exists s: nat :: t < s && ToldAt(cfg, actions, n, s, p, uri)
  }

  /** All of these peers, but for those still to come, were told since step `t`. */
  ghost predicate AllTold(cfg: Config, actions: seq<Action>, n: Name, t: nat, order: seq<Name>, todo: seq<Name>, uri: Uri)
    requires ValidConfig(cfg)
  {
    forall p :: p in order && p !in todo ==> ToldSince(cfg, actions, n, t, p, uri)
  }

  /** A pass that began with `seen` listed the peers after that and has told all but `todo`. */
  ghost predicate Announcing(cfg: Config, actions: seq<Action>, n: Name, seen: Seen, uri: Uri, todo: seq<Name>)
    requires ValidConfig(cfg)
  {
    exists b: nat, t: nat, order ::
      && b < t && BeganAt(cfg, actions, n, b, seen) && ListedAt(cfg, actions, n, t, order)
      && AllTold(cfg, actions, n, t, order, todo, uri)
  }

  ghost predicate Began(cfg: Config, actions: seq<Action>, n: Name, seen: Seen)
    requires ValidConfig(cfg)
  {
    exists b: nat :: BeganAt(cfg, actions, n, b, seen)
  }

  ghost predicate PassTraced(cfg: Config, actions: seq<Action>, n: Name, p: Pass)
    requires ValidConfig(cfg)
  {
    match p
    case Listing(face, seen) => Began(cfg, actions, n, seen) && seen.status.online && face == seen.status.innerFace
    case Adding(uri, todo, seen) =>
      Announcing(cfg, actions, n, seen, uri, todo) && seen.status.online && seen.status.innerFace == Some(uri)
    case Closing(seen, syncedAt) =>
      Began(cfg, actions, n, seen) && (syncedAt.Some? <==> seen.status.online) && (seen.status.online ==> seen.status.innerFace.None?)
    case _ => true
  }

  /** The conditions tell of the status a pass began with: Ready for the three together, and NeighborsSynced
      for an online router, whose pass publishes nothing unless it has told everyone. */
  predicate TellsOf(cs: RouterConditions, st: Status) {
    && Flag(cs, TypeInitialized) == Some(st.initialized)
    && Flag(cs, TypeOnline) == Some(st.online)
    && Flag(cs, TypeFaceReady) == Some(st.innerFace.Some?)
    && Flag(cs, TypeReady) == Some(st.initialized && st.online && st.innerFace.Some?)
    && Flag(cs, TypeNeighborsSynced) == Some(st.online)
  }

  ghost predicate Earned(cfg: Config, actions: seq<Action>, n: Name, cs: RouterConditions, seen: Seen)
    requires ValidConfig(cfg)
  {
    && TellsOf(cs, seen.status) && Began(cfg, actions, n, seen)
    && (seen.status.online && seen.status.innerFace.Some?
        ==> Announcing(cfg, actions, n, seen, seen.status.innerFace.value, []))
  }

  ghost predicate ConditionsTraced(cfg: Config, actions: seq<Action>, n: Name, cs: RouterConditions)
    requires ValidConfig(cfg)
  {
    cs.Some? ==> exists seen :: Earned(cfg, actions, n, cs, seen)
  }

  function ConditionsOf(w: World, n: Name): RouterConditions {
    if StatusOf(w, n).Some? then StatusOf(w, n).value.conditions else None
  }

  ghost predicate Traced(cfg: Config, actions: seq<Action>, n: Name)
    requires ValidConfig(cfg)
  {
    var w := Run(cfg, EMPTY_WORLD, actions);
    && ConditionsTraced(cfg, actions, n, ConditionsOf(w, n))
    && (OfRouter(n) in w.passes ==> PassTraced(cfg, actions, n, w.passes[OfRouter(n)]))
    && NeighborsAnnounce(w)
  }

  /** A pass on a Neighbor announces or cleans up; conditions are none of its business. */
  ghost predicate NeighborsAnnounce(w: World) {
    forall o :: o in w.passes && o.OfNeighbor? ==> Announces(w.passes[o])
  }

  predicate Announces(p: Pass) {
    !p.Closing? && (p.Listing? ==> p.face.Some?)
  }

  // ---------------------------------------------------------------------------------------
  // A longer run
  // ---------------------------------------------------------------------------------------

  lemma AtPrefix(cfg: Config, actions: seq<Action>, a: Action, t: nat)
    requires ValidConfig(cfg) && t <= |actions|
    ensures At(cfg, actions + [a], t) == At(cfg, actions, t)
  {
    assert (actions + [a])[..t] == actions[..t];
  }

  lemma AtEnd(cfg: Config, actions: seq<Action>)
    requires ValidConfig(cfg)
    ensures At(cfg, actions, |actions|) == Run(cfg, EMPTY_WORLD, actions)
  {
    assert actions[..|actions|] == actions;
  }

  lemma RunSnoc(cfg: Config, actions: seq<Action>, a: Action)
    requires ValidConfig(cfg)
    ensures Run(cfg, EMPTY_WORLD, actions + [a]) == Step(cfg, Run(cfg, EMPTY_WORLD, actions), a)
  {
    hide Step;
    RunSplit(cfg, EMPTY_WORLD, actions, [a]);
    assert [a][1..] == [];
  }

  lemma BeganKept(cfg: Config, actions: seq<Action>, a: Action, n: Name, seen: Seen)
    requires ValidConfig(cfg) && Began(cfg, actions, n, seen)
    ensures Began(cfg, actions + [a], n, seen)
  {
    hide At, Run;
    var b: nat :| BeganAt(cfg, actions, n, b, seen);
    AtPrefix(cfg, actions, a, b);
    assert BeganAt(cfg, actions + [a], n, b, seen);
  }

  lemma ToldKept(cfg: Config, actions: seq<Action>, a: Action, n: Name, t: nat, p: Name, uri: Uri)
    requires ValidConfig(cfg) && ToldSince(cfg, actions, n, t, p, uri)
    ensures ToldSince(cfg, actions + [a], n, t, p, uri)
  {
    hide At, Run;
    var s: nat :| t < s && ToldAt(cfg, actions, n, s, p, uri);
    AtPrefix(cfg, actions, a, s + 1);
    assert ToldAt(cfg, actions + [a], n, s, p, uri);
  }

  lemma AnnouncingKept(cfg: Config, actions: seq<Action>, a: Action, n: Name, seen: Seen, uri: Uri, todo: seq<Name>)
    requires ValidConfig(cfg) && Announcing(cfg, actions, n, seen, uri, todo)
    ensures Announcing(cfg, actions + [a], n, seen, uri, todo)
  {
    hide At, Run, ToldSince, IsListing;
    var more := actions + [a];
    var b: nat, t: nat, order :| && b < t && BeganAt(cfg, actions, n, b, seen) && ListedAt(cfg, actions, n, t, order)
                                 && AllTold(cfg, actions, n, t, order, todo, uri);
    AtPrefix(cfg, actions, a, b);
    AtPrefix(cfg, actions, a, t);
    forall p | p in order && p !in todo ensures ToldSince(cfg, more, n, t, p, uri) { ToldKept(cfg, actions, a, n, t, p, uri); }
    assert BeganAt(cfg, more, n, b, seen) && ListedAt(cfg, more, n, t, order) && AllTold(cfg, more, n, t, order, todo, uri);
  }

  lemma PassKept(cfg: Config, actions: seq<Action>, a: Action, n: Name, p: Pass)
    requires ValidConfig(cfg) && PassTraced(cfg, actions, n, p)
    ensures PassTraced(cfg, actions + [a], n, p)
  {
    hide Began, Announcing;
    match p {
      case Listing(face, seen) => BeganKept(cfg, actions, a, n, seen);
      case Adding(uri, todo, seen) => AnnouncingKept(cfg, actions, a, n, seen, uri, todo);
      case Closing(seen, _) => BeganKept(cfg, actions, a, n, seen);
      case _ =>
    }
  }

  lemma ConditionsKept(cfg: Config, actions: seq<Action>, a: Action, n: Name, cs: RouterConditions)
    requires ValidConfig(cfg) && ConditionsTraced(cfg, actions, n, cs)
    ensures ConditionsTraced(cfg, actions + [a], n, cs)
  {
    hide Began, Announcing, TellsOf;
    if cs.Some? {
      var seen :| Earned(cfg, actions, n, cs, seen);
      BeganKept(cfg, actions, a, n, seen);
      if seen.status.online && seen.status.innerFace.Some? {
        AnnouncingKept(cfg, actions, a, n, seen, seen.status.innerFace.value, []);
      }
      assert Earned(cfg, actions + [a], n, cs, seen);
    }
  }

  // ---------------------------------------------------------------------------------------
  // What steps do to conditions and passes
  // ---------------------------------------------------------------------------------------

  lemma BeginAnnounces(cfg: Config, w: World, o: Owner, now: Time)
    requires ValidConfig(cfg) && o in cfg.network && o in w.meta && NeighborsAnnounce(w)
    ensures !Begin(cfg, w, o, now).Report? && NeighborsAnnounce(Apply(w, o, Begin(cfg, w, o, now)))
  {
    hide Apply;
    var e := Begin(cfg, w, o, now);
    forall i { ApplyPasses(w, o, e, i); }
  }

  lemma ContinueAnnounces(cfg: Config, w: World, o: Owner, order: seq<Name>, now: Time)
    requires o in w.passes && NeighborsAnnounce(w)
    ensures var e := Continue(cfg, w, o, order, now);
            && (e.Report? ==> o.OfRouter?)
            && NeighborsAnnounce(Apply(w, o, e))
  {
    hide Apply, IsListing, EntryOf, ToRemove;
    var e := Continue(cfg, w, o, order, now);
    assert o.OfNeighbor? ==> Announces(w.passes[o]);
    forall i { ApplyPasses(w, o, e, i); }
  }

  lemma OtherAnnounces(cfg: Config, w: World, a: Action)
    requires ValidConfig(cfg) && !a.BeginPass? && !a.ContinuePass? && NeighborsAnnounce(w)
    ensures NeighborsAnnounce(Step(cfg, w, a))
  {
    forall o | o in Step(cfg, w, a).passes ensures o in w.passes && Step(cfg, w, a).passes[o] == w.passes[o] {
    }
  }

  lemma StepAnnounces(cfg: Config, w: World, a: Action)
    requires ValidConfig(cfg) && NeighborsAnnounce(w)
    ensures NeighborsAnnounce(Step(cfg, w, a))
  {
    hide Begin, Continue, Apply, NeighborsAnnounce;
    match a {
      case BeginPass(o, now) => if o in cfg.network && o in w.meta && o !in w.passes { BeginAnnounces(cfg, w, o, now); }
      case ContinuePass(o, order, now) => if o in w.passes { ContinueAnnounces(cfg, w, o, order, now); }
      case _ => OtherAnnounces(cfg, w, a);
    }
  }

  lemma ApplyConditions(w: World, o: Owner, e: Effect, n: Name)
    requires e.Report? ==> o.OfRouter?
    ensures ConditionsOf(Apply(w, o, e), n)
            == if e.Report? && o == OfRouter(n) && n in w.routers then e.conditions
               else if e.Release? && o == OfRouter(n) then None
               else ConditionsOf(w, n)
  {
    match e {
      case PutEntry(p, u, next) => PatchKeepsConditions(w, p, AddEntry(StatusOf(w, p), o, u), n);
      case DropEntry(p, next) => PatchKeepsConditions(w, p, RemoveEntry(StatusOf(w, p), o), n);
      case _ =>
    }
  }

  lemma PatchKeepsConditions(w: World, p: Name, status: Option<Status>, n: Name)
    requires status.Some? ==> StatusOf(w, p).Some? && status.value.conditions == StatusOf(w, p).value.conditions
    ensures ConditionsOf(Patched(w, p, status), n) == ConditionsOf(w, n)
  {
  }

  lemma ApplyPasses(w: World, o: Owner, e: Effect, i: Owner)
    ensures var w' := Apply(w, o, e);
            && (i != o ==> (i in w'.passes <==> i in w.passes) && (i in w.passes ==> w'.passes[i] == w.passes[i]))
            && (o in w'.passes ==>
                  if e.Proceed? || e.PutEntry? || e.DropEntry? then w'.passes[o] == e.next
                  else e.AddFinalizer? && o in w.passes && w'.passes[o] == w.passes[o])
  {
  }

  lemma OtherStep(cfg: Config, w: World, a: Action, n: Name)
    requires ValidConfig(cfg) && !a.BeginPass? && !a.ContinuePass?
    ensures var w' := Step(cfg, w, a);
            && (ConditionsOf(w', n) == ConditionsOf(w, n) || ConditionsOf(w', n) == None)
            && (OfRouter(n) in w'.passes ==> OfRouter(n) in w.passes && w'.passes[OfRouter(n)] == w.passes[OfRouter(n)])
  {
  }

  // ---------------------------------------------------------------------------------------
  // The steps of a pass
  // ---------------------------------------------------------------------------------------

  lemma BeginTraced(cfg: Config, actions: seq<Action>, n: Name, now: Time)
    requires ValidConfig(cfg) && Traced(cfg, actions, n)
    requires var w := Run(cfg, EMPTY_WORLD, actions); OfRouter(n) in cfg.network && OfRouter(n) in w.meta && OfRouter(n) !in w.passes
    ensures Traced(cfg, actions + [BeginPass(OfRouter(n), now)], n)
  {
    hide Run, At, ConditionsTraced, Announcing, Apply, NeighborsAnnounce;
    var w := Run(cfg, EMPTY_WORLD, actions);
    var a := BeginPass(OfRouter(n), now);
    RunSnoc(cfg, actions, a);
    StepAnnounces(cfg, w, a);
    ApplyConditions(w, OfRouter(n), Begin(cfg, w, OfRouter(n), now), n);
    ApplyPasses(w, OfRouter(n), Begin(cfg, w, OfRouter(n), now), OfRouter(n));
    ConditionsKept(cfg, actions, a, n, ConditionsOf(w, n));
    AtPrefix(cfg, actions, a, |actions|);
    AtEnd(cfg, actions);
    var seen := Seen(StatusOf(w, n).GetOr(DEFAULT_STATUS), now);
    assert BeganAt(cfg, actions + [a], n, |actions|, seen);
  }

  lemma ListingTraced(cfg: Config, actions: seq<Action>, n: Name, order: seq<Name>, now: Time, seen: Seen, uri: Uri)
    requires ValidConfig(cfg) && Began(cfg, actions, n, seen)
    requires IsListing(cfg, Run(cfg, EMPTY_WORLD, actions), OfRouter(n), order)
    ensures Announcing(cfg, actions + [ContinuePass(OfRouter(n), order, now)], n, seen, uri, order)
  {
    hide Run, At, IsListing, ToldSince;
    var a := ContinuePass(OfRouter(n), order, now);
    var more := actions + [a];
    var b: nat :| BeganAt(cfg, actions, n, b, seen);
    AtPrefix(cfg, actions, a, b);
    AtPrefix(cfg, actions, a, |actions|);
    AtEnd(cfg, actions);
    assert BeganAt(cfg, more, n, b, seen) && ListedAt(cfg, more, n, |actions|, order);
    assert AllTold(cfg, more, n, |actions|, order, order, uri);
  }

  lemma AddingTraced(cfg: Config, actions: seq<Action>, n: Name, order: seq<Name>, now: Time, seen: Seen, uri: Uri, todo: seq<Name>)
    requires ValidConfig(cfg) && Announcing(cfg, actions, n, seen, uri, todo) && todo != []
    requires var w := Run(cfg, EMPTY_WORLD, actions);
             var a := ContinuePass(OfRouter(n), order, now);
             EntryOf(Step(cfg, w, a), todo[0], OfRouter(n)) == Some(uri)
    ensures Announcing(cfg, actions + [ContinuePass(OfRouter(n), order, now)], n, seen, uri, todo[1..])
  {
    hide Run, At, IsListing, ToldSince, Step, EntryOf;
    var a := ContinuePass(OfRouter(n), order, now);
    var more := actions + [a];
    var b: nat, t: nat, listed :| && b < t && BeganAt(cfg, actions, n, b, seen) && ListedAt(cfg, actions, n, t, listed)
                                  && AllTold(cfg, actions, n, t, listed, todo, uri);
    AtPrefix(cfg, actions, a, b);
    AtPrefix(cfg, actions, a, t);
    RunSnoc(cfg, actions, a);
    AtEnd(cfg, more);
    forall p | p in listed && p !in todo[1..] ensures ToldSince(cfg, more, n, t, p, uri) {
      if p == todo[0] {
        assert ToldAt(cfg, more, n, |actions|, p, uri);
        ToldNow(cfg, more, n, t, |actions|, p, uri);
      } else {
        assert p !in todo;
        ToldKept(cfg, actions, a, n, t, p, uri);
      }
    }
    assert BeganAt(cfg, more, n, b, seen) && ListedAt(cfg, more, n, t, listed) && AllTold(cfg, more, n, t, listed, todo[1..], uri);
  }

  lemma ToldNow(cfg: Config, actions: seq<Action>, n: Name, t: nat, s: nat, p: Name, uri: Uri)
    requires ValidConfig(cfg) && t < s && ToldAt(cfg, actions, n, s, p, uri)
    ensures ToldSince(cfg, actions, n, t, p, uri)
  {
  }

  lemma ReportTells(seen: Seen, generation: int, syncedAt: Option<Time>)
    requires syncedAt.Some? <==> seen.status.online
    ensures TellsOf(PassConditions(seen.status, generation, seen.at, syncedAt), seen.status)
  {
    hide PassConditions, Flag;
    PublishedConditions(seen.status, generation, seen.at, syncedAt);
  }

  lemma PutIsListed(w: World, o: Owner, p: Name, uri: Uri, next: Pass)
    requires StatusOf(w, p).Some?
    ensures EntryOf(Apply(w, o, PutEntry(p, uri, next)), p, o) == Some(uri)
  {
  }

  /** What an announcing pass does next, and that it holds up. */
  lemma AddingContinues(cfg: Config, actions: seq<Action>, n: Name, order: seq<Name>, now: Time)
    requires ValidConfig(cfg) && Traced(cfg, actions, n)
    requires var w := Run(cfg, EMPTY_WORLD, actions); OfRouter(n) in w.passes && w.passes[OfRouter(n)].Adding?
    ensures var w := Run(cfg, EMPTY_WORLD, actions);
            var e := Continue(cfg, w, OfRouter(n), order, now);
            var more := actions + [ContinuePass(OfRouter(n), order, now)];
            && (e.Report? || e.PutEntry? || e.Fail?)
            && (e.Report? ==> ConditionsTraced(cfg, more, n, e.conditions))
            && (e.PutEntry? ==> PassTraced(cfg, more, n, e.next))
  {
    hide Run, At, Announcing, Began, TellsOf, Apply, EntryOf, ConditionsOf, PassConditions;
    var w := Run(cfg, EMPTY_WORLD, actions);
    var a := ContinuePass(OfRouter(n), order, now);
    var p := w.passes[OfRouter(n)];
    if p.todo == [] {
      AnnouncingKept(cfg, actions, a, n, p.seen, p.uri, []);
      AnnouncingBegan(cfg, actions + [a], n, p.seen, p.uri, []);
      ReportTells(p.seen, cfg.generation, Some(now));
      assert Earned(cfg, actions + [a], n, PassConditions(p.seen.status, cfg.generation, p.seen.at, Some(now)), p.seen);
    } else if StatusOf(w, p.todo[0]).Some? {
      PutIsListed(w, OfRouter(n), p.todo[0], p.uri, Adding(p.uri, p.todo[1..], p.seen));
      AddingTraced(cfg, actions, n, order, now, p.seen, p.uri, p.todo);
    }
  }

  lemma AnnouncingBegan(cfg: Config, actions: seq<Action>, n: Name, seen: Seen, uri: Uri, todo: seq<Name>)
    requires ValidConfig(cfg) && Announcing(cfg, actions, n, seen, uri, todo)
    ensures Began(cfg, actions, n, seen)
  {
    hide BeganAt, ListedAt, AllTold;
  }

  lemma OtherContinues(cfg: Config, actions: seq<Action>, n: Name, order: seq<Name>, now: Time)
    requires ValidConfig(cfg) && Traced(cfg, actions, n)
    requires var w := Run(cfg, EMPTY_WORLD, actions); OfRouter(n) in w.passes && !w.passes[OfRouter(n)].Adding?
    ensures var w := Run(cfg, EMPTY_WORLD, actions);
            var e := Continue(cfg, w, OfRouter(n), order, now);
            var more := actions + [ContinuePass(OfRouter(n), order, now)];
            && (e.Report? ==> ConditionsTraced(cfg, more, n, e.conditions))
            && (e.Proceed? || e.DropEntry? ==> PassTraced(cfg, more, n, e.next))
            && !e.PutEntry? && !e.AddFinalizer?
  {
    hide Run, At, Announcing, Began, TellsOf, EntryOf, ConditionsOf, PassConditions, IsListing;
    var w := Run(cfg, EMPTY_WORLD, actions);
    var a := ContinuePass(OfRouter(n), order, now);
    match w.passes[OfRouter(n)] {
      case Listing(face, seen) =>
        BeganKept(cfg, actions, a, n, seen);
        if IsListing(cfg, w, OfRouter(n), order) && face.Some? { ListingTraced(cfg, actions, n, order, now, seen, face.value); }
      case Closing(seen, syncedAt) =>
        BeganKept(cfg, actions, a, n, seen);
        ReportTells(seen, cfg.generation, syncedAt);
        assert Earned(cfg, actions + [a], n, PassConditions(seen.status, cfg.generation, seen.at, syncedAt), seen);
      case _ =>
    }
  }

  lemma ContinueTraced(cfg: Config, actions: seq<Action>, n: Name, order: seq<Name>, now: Time)
    requires ValidConfig(cfg) && Traced(cfg, actions, n) && OfRouter(n) in Run(cfg, EMPTY_WORLD, actions).passes
    ensures Traced(cfg, actions + [ContinuePass(OfRouter(n), order, now)], n)
  {
    hide Run, ConditionsTraced, PassTraced, Continue, Apply, ConditionsOf, NeighborsAnnounce;
    var w := Run(cfg, EMPTY_WORLD, actions);
    var a := ContinuePass(OfRouter(n), order, now);
    StepAnnounces(cfg, w, a);
    var e := Continue(cfg, w, OfRouter(n), order, now);
    RunSnoc(cfg, actions, a);
    ApplyConditions(w, OfRouter(n), e, n);
    ApplyPasses(w, OfRouter(n), e, OfRouter(n));
    ConditionsKept(cfg, actions, a, n, ConditionsOf(w, n));
    NoConditions(cfg, actions + [a], n);
    if w.passes[OfRouter(n)].Adding? { AddingContinues(cfg, actions, n, order, now); } else { OtherContinues(cfg, actions, n, order, now); }
  }

  lemma NoConditions(cfg: Config, actions: seq<Action>, n: Name)
    requires ValidConfig(cfg)
    ensures ConditionsTraced(cfg, actions, n, None)
  {
  }

  lemma ElsewhereTraced(cfg: Config, actions: seq<Action>, a: Action, n: Name)
    requires ValidConfig(cfg) && Traced(cfg, actions, n)
    requires var w := Run(cfg, EMPTY_WORLD, actions);
             || (!a.BeginPass? && !a.ContinuePass?) || a.o != OfRouter(n) || Step(cfg, w, a) == w
    ensures Traced(cfg, actions + [a], n)
  {
    hide Run, ConditionsTraced, PassTraced, Begin, Continue, Apply, ConditionsOf, NeighborsAnnounce;
    var w := Run(cfg, EMPTY_WORLD, actions);
    StepAnnounces(cfg, w, a);
    RunSnoc(cfg, actions, a);
    ConditionsKept(cfg, actions, a, n, ConditionsOf(w, n));
    NoConditions(cfg, actions + [a], n);
    if OfRouter(n) in w.passes { PassKept(cfg, actions, a, n, w.passes[OfRouter(n)]); }
    if a.BeginPass? && a.o in cfg.network && a.o in w.meta && a.o !in w.passes {
      BeginAnnounces(cfg, w, a.o, a.now);
      ApplyConditions(w, a.o, Begin(cfg, w, a.o, a.now), n);
      ApplyPasses(w, a.o, Begin(cfg, w, a.o, a.now), OfRouter(n));
    } else if a.ContinuePass? && a.o in w.passes {
      ContinueAnnounces(cfg, w, a.o, a.order, a.now);
      ApplyConditions(w, a.o, Continue(cfg, w, a.o, a.order, a.now), n);
      ApplyPasses(w, a.o, Continue(cfg, w, a.o, a.order, a.now), OfRouter(n));
    } else if !a.BeginPass? && !a.ContinuePass? {
      OtherStep(cfg, w, a, n);
    }
  }

  lemma NothingTraced(cfg: Config, n: Name)
    requires ValidConfig(cfg)
    ensures Traced(cfg, [], n)
  {
  }

  lemma {:induction false} RunTraced(cfg: Config, actions: seq<Action>, n: Name)
    requires ValidConfig(cfg)
    ensures Traced(cfg, actions, n)
    decreases |actions|
  {
    hide Run, Traced, Begin, Continue, Apply;
    if actions == [] {
      NothingTraced(cfg, n);
    } else {
      var before := actions[..|actions| - 1];
      var a := actions[|actions| - 1];
      assert actions == before + [a];
      var w := Run(cfg, EMPTY_WORLD, before);
      RunTraced(cfg, before, n);
      if a.BeginPass? && a.o == OfRouter(n) && a.o in cfg.network && a.o in w.meta && a.o !in w.passes {
        BeginTraced(cfg, before, n, a.now);
      } else if a.ContinuePass? && a.o == OfRouter(n) && a.o in w.passes {
        ContinueTraced(cfg, before, n, a.order, a.now);
      } else {
        ElsewhereTraced(cfg, before, a, n);
      }
    }
  }

  /** Main result: whatever conditions a router shows in any run, one of its passes began with a status that they
      tell of; and they say that the neighbours are in sync if and only if that status was online. If it had a
      face too, that pass then listed the peers and told every one of them that face. */
  lemma PublishedWasEarned(cfg: Config, actions: seq<Action>, n: Name)
    requires ValidConfig(cfg)
    ensures var w := Run(cfg, EMPTY_WORLD, actions);
            StatusOf(w, n).Some? && StatusOf(w, n).value.conditions.Some? ==>
              exists seen: Seen :: TellsOf(StatusOf(w, n).value.conditions, seen.status) && Began(cfg, actions, n, seen)
                && (seen.status.online && seen.status.innerFace.Some? ==>
                      exists b: nat, t: nat, order ::
                        && b < t && BeganAt(cfg, actions, n, b, seen) && ListedAt(cfg, actions, n, t, order)
                        && AllTold(cfg, actions, n, t, order, [], seen.status.innerFace.value))
  {
    hide Run, TellsOf, Began, BeganAt, ListedAt, AllTold;
    RunTraced(cfg, actions, n);
  }
}
