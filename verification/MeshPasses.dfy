/** A pass that nothing interrupts, as one change of the store, and as the run of its single steps. */
module MeshPasses {
  import opened Wrappers
  import opened Conditions
  import opened MeshTypes
  import opened MeshWorld
  import opened MeshSafety

  type Store = map<Name, Option<Status>>

  function Lookup(routers: Store, p: Name): Option<Status> {
    if p in routers then routers[p] else None
  }

  function Holds(routers: Store, p: Name, o: Owner): bool {
    Lookup(routers, p).Some? && EntryIn(Lookup(routers, p).value, o).Some?
  }

  /** Adding the entry to one router after the other; the first refusal ends the pass, and what was
      written stays. */
  function AddAll(routers: Store, o: Owner, u: Uri, todo: seq<Name>): (bool, Store) {
    if todo == [] then (true, routers)
    else
      match AddEntry(Lookup(routers, todo[0]), o, u)
      case None => (false, routers)
      case Some(st) => AddAll(routers[todo[0] := Some(st)], o, u, todo[1..])
  }

  function RemoveAll(routers: Store, o: Owner, todo: seq<Name>): (bool, Store) {
    if todo == [] then (true, routers)
    else
      match RemoveEntry(Lookup(routers, todo[0]), o)
      case None => (false, routers)
      case Some(st) => RemoveAll(routers[todo[0] := Some(st)], o, todo[1..])
  }

  function Reported(w: World, n: Name, st: Status, cfg: Config, at: Time, syncedAt: Option<Time>): World {
    if n in w.routers then
      w.(routers := w.routers[n := Some(PublishConditions(w.routers[n], PassConditions(st, cfg.generation, at, syncedAt)))])
    else w
  }

  /** What one call of the controller does to the store, `order` being the list it gets. */
  function WholePass(cfg: Config, w: World, o: Owner, order: seq<Name>, start: Time, end: Time): World
    requires ValidConfig(cfg) && o in cfg.network && o in w.meta
  {
    if w.meta[o].deleting then
      if !w.meta[o].finalizer then w
      else
        var (ok, routers) := RemoveAll(w.routers, o, ToRemove(w, order, o));
        if ok then Without(w.(routers := routers), o) else w.(routers := routers)
    else if !w.meta[o].finalizer then w.(meta := w.meta[o := Meta(true, false)])
    else
      match o
      case OfNeighbor(n) => w.(routers := AddAll(w.routers, o, cfg.uri[n], order).1)
      case OfRouter(n) =>
        var st := StatusOf(w, n).GetOr(DEFAULT_STATUS);
        if !st.online then Reported(w, n, st, cfg, start, None)
        else if st.innerFace.None? then Reported(w, n, st, cfg, start, Some(end))
        else
          var (ok, routers) := AddAll(w.routers, o, st.innerFace.value, order);
          if ok then Reported(w.(routers := routers), n, st, cfg, start, Some(end)) else w.(routers := routers)
  }

  // ---------------------------------------------------------------------------------------
  // Exactly when the loops succeed
  // ---------------------------------------------------------------------------------------

  /** Adding succeeds exactly when every listed router has a status; then all of them hold the entry, and
      nothing else has changed. */
  lemma {:induction false} AddAllSpec(routers: Store, o: Owner, u: Uri, todo: seq<Name>)
    requires NoRepeats(todo)
    ensures AddAll(routers, o, u, todo).0 <==> forall p :: p in todo ==> Lookup(routers, p).Some?
    ensures AddAll(routers, o, u, todo).0 ==>
              forall p :: Lookup(AddAll(routers, o, u, todo).1, p)
                          == if p in todo then AddEntry(Lookup(routers, p), o, u) else Lookup(routers, p)
  {
    hide AddEntry;
    if todo != [] {
      var q, rest := todo[0], todo[1..];
      assert todo == [q] + rest;
      assert forall p :: p in todo <==> p == q || p in rest;
      TailNoRepeats(q, rest);
      AddAccepted(Lookup(routers, q), o, u);
      if Lookup(routers, q).Some? {
        AddAllSpec(routers[q := AddEntry(Lookup(routers, q), o, u)], o, u, rest);
      }
    }
  }

  /** Removing succeeds exactly when every listed router holds the entry. */
  lemma {:induction false} RemoveAllSpec(routers: Store, o: Owner, todo: seq<Name>)
    requires NoRepeats(todo)
    ensures RemoveAll(routers, o, todo).0 <==> forall p :: p in todo ==> Holds(routers, p, o)
    ensures RemoveAll(routers, o, todo).0 ==>
              forall p :: Lookup(RemoveAll(routers, o, todo).1, p)
                          == if p in todo then RemoveEntry(Lookup(routers, p), o) else Lookup(routers, p)
  {
    hide RemoveEntry, EntryIn;
    if todo != [] {
      var q, rest := todo[0], todo[1..];
      assert todo == [q] + rest;
      assert forall p :: p in todo <==> p == q || p in rest;
      TailNoRepeats(q, rest);
      RemoveAccepted(Lookup(routers, q), o);
      if Holds(routers, q, o) {
        RemoveAllSpec(routers[q := RemoveEntry(Lookup(routers, q), o)], o, rest);
      }
    }
  }

  /** Main result: a Neighbor's cleanup completes exactly when every router of the network holds its entry. */
  lemma NeighborCleanupSucceedsIff(cfg: Config, w: World, n: Name, order: seq<Name>, start: Time, end: Time)
    requires ValidConfig(cfg) && OfNeighbor(n) in cfg.network && OfNeighbor(n) in w.meta
    requires w.meta[OfNeighbor(n)] == Meta(true, true) && IsListing(cfg, w, OfNeighbor(n), order)
    ensures OfNeighbor(n) !in WholePass(cfg, w, OfNeighbor(n), order, start, end).meta
            <==> forall p :: IsPeer(cfg, w, OfNeighbor(n), p) ==> EntryOf(w, p, OfNeighbor(n)).Some?
  {
    hide EntryIn, RemoveAll;
    RemoveAllSpec(w.routers, OfNeighbor(n), order);
  }

  /** A router's cleanup completes from whatever state earlier attempts left. */
  lemma RouterCleanupSucceeds(cfg: Config, w: World, n: Name, order: seq<Name>, start: Time, end: Time)
    requires ValidConfig(cfg) && OfRouter(n) in cfg.network && OfRouter(n) in w.meta
    requires w.meta[OfRouter(n)] == Meta(true, true) && IsListing(cfg, w, OfRouter(n), order)
    ensures OfRouter(n) !in WholePass(cfg, w, OfRouter(n), order, start, end).meta
    ensures n !in WholePass(cfg, w, OfRouter(n), order, start, end).routers
  {
    hide EntryIn, RemoveAll;
    RemoveAllSpec(w.routers, OfRouter(n), ToRemove(w, order, OfRouter(n)));
  }

  // ---------------------------------------------------------------------------------------
  // A whole pass is the run of its steps
  // ---------------------------------------------------------------------------------------

  function Repeat(a: Action, k: nat): seq<Action> {
    if k == 0 then [] else [a] + Repeat(a, k - 1)
  }

  /** The calls of one pass over a list of that many routers. */
  function PassSteps(o: Owner, order: seq<Name>, start: Time, end: Time): seq<Action> {
    [BeginPass(o, start), ContinuePass(o, order, end)] + Repeat(ContinuePass(o, [], end), |order| + 1)
  }

  lemma {:induction false} Idle(cfg: Config, w: World, o: Owner, now: Time, k: nat)
    requires ValidConfig(cfg) && o !in w.passes
    ensures Run(cfg, w, Repeat(ContinuePass(o, [], now), k)) == w
  {
    if k > 0 {
      var all := Repeat(ContinuePass(o, [], now), k);
      assert all[1..] == Repeat(ContinuePass(o, [], now), k - 1);
      Idle(cfg, w, o, now, k - 1);
    }
  }

  lemma {:induction false} AddingRuns(cfg: Config, w: World, o: Owner, u: Uri, todo: seq<Name>, seen: Seen, now: Time, k: nat)
    requires ValidConfig(cfg) && o in w.passes && w.passes[o] == Adding(u, todo, seen) && k > |todo|
    ensures var (ok, routers) := AddAll(w.routers, o, u, todo);
            var w1 := w.(routers := routers, passes := w.passes - {o});
            Run(cfg, w, Repeat(ContinuePass(o, [], now), k))
            == if ok && o.OfRouter? then Reported(w1, o.name, seen.status, cfg, seen.at, Some(now)) else w1
    decreases k
  {
    hide AddEntry, PassConditions, PublishConditions;
    var a := ContinuePass(o, [], now);
    assert Repeat(a, k)[1..] == Repeat(a, k - 1);
    var w1 := Step(cfg, w, a);
    assert Run(cfg, w, Repeat(a, k)) == Run(cfg, w1, Repeat(a, k - 1));
    if todo == [] {
      Idle(cfg, w1, o, now, k - 1);
    } else {
      AddAccepted(StatusOf(w, todo[0]), o, u);
      assert StatusOf(w, todo[0]) == Lookup(w.routers, todo[0]);
      if StatusOf(w, todo[0]).None? {
        Idle(cfg, w1, o, now, k - 1);
      } else {
        AddingRuns(cfg, w1, o, u, todo[1..], seen, now, k - 1);
        assert w1.passes - {o} == w.passes - {o};
      }
    }
  }

  lemma {:induction false} RemovingRuns(cfg: Config, w: World, o: Owner, todo: seq<Name>, now: Time, k: nat)
    requires ValidConfig(cfg) && o in w.passes && w.passes[o] == Removing(todo) && k > |todo|
    ensures var (ok, routers) := RemoveAll(w.routers, o, todo);
            var w1 := w.(routers := routers, passes := w.passes - {o});
            Run(cfg, w, Repeat(ContinuePass(o, [], now), k)) == if ok then Without(w1, o) else w1
    decreases k
  {
    hide RemoveEntry, EntryIn;
    var a := ContinuePass(o, [], now);
    assert Repeat(a, k)[1..] == Repeat(a, k - 1);
    var w1 := Step(cfg, w, a);
    assert Run(cfg, w, Repeat(a, k)) == Run(cfg, w1, Repeat(a, k - 1));
    if todo == [] {
      Idle(cfg, w1, o, now, k - 1);
    } else {
      RemoveAccepted(StatusOf(w, todo[0]), o);
      assert StatusOf(w, todo[0]) == Lookup(w.routers, todo[0]);
      if EntryOf(w, todo[0], o).None? {
        Idle(cfg, w1, o, now, k - 1);
      } else {
        RemovingRuns(cfg, w1, o, todo[1..], now, k - 1);
        assert w1.passes - {o} == w.passes - {o};
      }
    }
  }

  lemma {:induction false} HoldingShorter(w: World, names: seq<Name>, o: Owner)
    ensures |Holding(w, names, o)| <= |names|
  {
    if names != [] {
      HoldingShorter(w, names[1..], o);
    }
  }

  lemma TwoSteps(cfg: Config, w: World, a: Action, b: Action, rest: seq<Action>)
    requires ValidConfig(cfg)
    ensures Run(cfg, w, [a, b] + rest) == Run(cfg, Step(cfg, Step(cfg, w, a), b), rest)
  {
    assert ([a, b] + rest)[1..] == [b] + rest;
    assert ([b] + rest)[1..] == rest;
  }

  /** Nothing in the store but what `WholePass` says: the pass of an object that no other step interrupts. */
  lemma WholePassIsRun(cfg: Config, w: World, o: Owner, order: seq<Name>, start: Time, end: Time)
    requires ValidConfig(cfg) && o in cfg.network && o in w.meta && o !in w.passes
    requires IsListing(cfg, w, o, order)
    ensures Run(cfg, w, PassSteps(o, order, start, end)) == WholePass(cfg, w, o, order, start, end)
  {
    hide WholePass, Step;
    var rest := Repeat(ContinuePass(o, [], end), |order| + 1);
    TwoSteps(cfg, w, BeginPass(o, start), ContinuePass(o, order, end), rest);
    if w.meta[o].deleting && w.meta[o].finalizer {
      CleanupPass(cfg, w, o, order, start, end);
    } else if w.meta[o].deleting || !w.meta[o].finalizer {
      FinalizerPass(cfg, w, o, order, start, end);
    } else {
      ApplyPass(cfg, w, o, order, start, end);
    }
  }

  lemma FinalizerPass(cfg: Config, w: World, o: Owner, order: seq<Name>, start: Time, end: Time)
    requires ValidConfig(cfg) && o in cfg.network && o in w.meta && o !in w.passes
    requires !w.meta[o].finalizer
    ensures var w2 := Step(cfg, Step(cfg, w, BeginPass(o, start)), ContinuePass(o, order, end));
            Run(cfg, w2, Repeat(ContinuePass(o, [], end), |order| + 1)) == WholePass(cfg, w, o, order, start, end)
  {
    var w1 := Step(cfg, w, BeginPass(o, start));
    assert w.passes - {o} == w.passes;
    Idle(cfg, w1, o, end, |order| + 1);
  }

  lemma CleanupPass(cfg: Config, w: World, o: Owner, order: seq<Name>, start: Time, end: Time)
    requires ValidConfig(cfg) && o in cfg.network && o in w.meta && o !in w.passes
    requires IsListing(cfg, w, o, order)
    requires w.meta[o].finalizer && w.meta[o].deleting
    ensures var w2 := Step(cfg, Step(cfg, w, BeginPass(o, start)), ContinuePass(o, order, end));
            Run(cfg, w2, Repeat(ContinuePass(o, [], end), |order| + 1)) == WholePass(cfg, w, o, order, start, end)
  {
    hide RemoveAll, IsListing, Holding;
    var w1 := Step(cfg, w, BeginPass(o, start));
    var w2 := Step(cfg, w1, ContinuePass(o, order, end));
    assert w2.passes - {o} == w.passes;
    ListingKept(cfg, w, w1, o, order);
    HoldingShorter(w, order, o);
    SameHolding(w, w1, order, o);
    RemovingRuns(cfg, w2, o, ToRemove(w, order, o), end, |order| + 1);
  }

  lemma ListingKept(cfg: Config, w: World, w1: World, o: Owner, order: seq<Name>)
    requires IsListing(cfg, w, o, order) && w1.routers == w.routers
    ensures IsListing(cfg, w1, o, order)
  {
    forall p ensures p in order <==> IsPeer(cfg, w1, o, p) {
      assert IsPeer(cfg, w, o, p) <==> IsPeer(cfg, w1, o, p);
    }
  }

  lemma {:induction false} SameHolding(w: World, w1: World, names: seq<Name>, o: Owner)
    requires w1.routers == w.routers
    ensures Holding(w1, names, o) == Holding(w, names, o)
  {
    if names != [] {
      SameHolding(w, w1, names[1..], o);
    }
  }

  lemma ApplyPass(cfg: Config, w: World, o: Owner, order: seq<Name>, start: Time, end: Time)
    requires ValidConfig(cfg) && o in cfg.network && o in w.meta && o !in w.passes
    requires IsListing(cfg, w, o, order)
    requires w.meta[o].finalizer && !w.meta[o].deleting
    ensures var w2 := Step(cfg, Step(cfg, w, BeginPass(o, start)), ContinuePass(o, order, end));
            Run(cfg, w2, Repeat(ContinuePass(o, [], end), |order| + 1)) == WholePass(cfg, w, o, order, start, end)
  {
    hide AddAll, RemoveAll, IsListing, PassConditions, PublishConditions;
    var w1 := Step(cfg, w, BeginPass(o, start));
    var w2 := Step(cfg, w1, ContinuePass(o, order, end));
    ListingKept(cfg, w, w1, o, order);
    assert w1.passes - {o} == w.passes;
    match w1.passes[o] {
      case Closing(seen, syncedAt) => Idle(cfg, w2, o, end, |order| + 1);
      case Listing(face, seen) =>
        if face.Some? {
          assert w2.passes - {o} == w.passes;
          AddingRuns(cfg, w2, o, face.value, order, seen, end, |order| + 1);
        } else {
          ClosingRuns(cfg, w2, o, seen, Some(end), end, |order| + 1);
          assert w2.passes - {o} == w.passes;
        }
    }
  }

  lemma ClosingRuns(cfg: Config, w: World, o: Owner, seen: Seen, syncedAt: Option<Time>, now: Time, k: nat)
    requires ValidConfig(cfg) && o in w.passes && w.passes[o] == Closing(seen, syncedAt) && k > 0
    ensures Run(cfg, w, Repeat(ContinuePass(o, [], now), k))
            == Reported(w.(passes := w.passes - {o}), o.name, seen.status, cfg, seen.at, syncedAt)
  {
    hide PassConditions, PublishConditions;
    var a := ContinuePass(o, [], now);
    assert Repeat(a, k)[1..] == Repeat(a, k - 1);
    Idle(cfg, Step(cfg, w, a), o, now, k - 1);
  }
}
