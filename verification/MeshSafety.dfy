/** What every step of the mesh protocol keeps. */
module MeshSafety {
  import opened Wrappers
  import opened Conditions
  import opened MeshTypes
  import opened MeshWorld

  // ---------------------------------------------------------------------------------------
  // The invariant
  // ---------------------------------------------------------------------------------------

  /** The owner has a finalizer and has not been released. */
  predicate Held(w: World, o: Owner) {
    o in w.meta && w.meta[o].finalizer
  }

  /** A value that the owner itself gave out: a face its init container published, or its spec's URI. */
  predicate Genuine(cfg: Config, w: World, o: Owner, u: Uri) {
    match o
    case OfRouter(n) => (n, u) in w.published
    case OfNeighbor(n) => n in cfg.uri && cfg.uri[n] == u
  }

  predicate IsMember(cfg: Config, o: Owner, p: Name) {
    OfRouter(p) != o && SameNetwork(cfg, OfRouter(p), o)
  }

  predicate EntryOk(cfg: Config, w: World, p: Name, o: Owner) {
    EntryOf(w, p, o).Some? ==> Held(w, o) && IsMember(cfg, o, p) && Genuine(cfg, w, o, EntryOf(w, p, o).value)
  }

  /** Each router listing `o` is still on the list, and each of the list that is left lists `o`. */
  ghost predicate RemovingOk(w: World, o: Owner, todo: seq<Name>) {
    && NoRepeats(todo)
    && (forall p :: p in todo ==> OfRouter(p) in w.used)
    && (forall p :: EntryOf(w, p, o).Some? ==> p in todo)
    && (o.OfRouter? ==> forall p :: p in todo && p in w.routers ==> EntryOf(w, p, o).Some?)
  }

  ghost predicate PassOk(cfg: Config, w: World, o: Owner, pass: Pass) {
    && Held(w, o)
    && match pass
       case Listing(face, seen) => face.Some? ==> Genuine(cfg, w, o, face.value)
       case Adding(u, todo, seen) => Genuine(cfg, w, o, u) && forall p :: p in todo ==> IsMember(cfg, o, p)
       case Closing(_, _) => true
       case CleanupListing => w.meta[o].deleting
       case Removing(todo) => w.meta[o].deleting && RemovingOk(w, o, todo)
  }

  ghost predicate EntriesOk(cfg: Config, w: World) {
    forall p, o :: EntryOk(cfg, w, p, o)
  }

  ghost predicate PassesOk(cfg: Config, w: World) {
    forall o :: o in w.passes ==> PassOk(cfg, w, o, w.passes[o])
  }

  /** Objects exist in the network the configuration gives them, and no name is used twice. */
  ghost predicate ObjectsOk(cfg: Config, w: World) {
    && (forall o :: o in w.meta ==> o in w.used && o in cfg.network)
    && (forall n :: n in w.routers <==> OfRouter(n) in w.meta)
  }

  predicate FaceOk(w: World, n: Name) {
    StatusOf(w, n).Some? && StatusOf(w, n).value.innerFace.Some? ==> (n, StatusOf(w, n).value.innerFace.value) in w.published
  }

  ghost predicate FacesOk(w: World) {
    forall n :: FaceOk(w, n)
  }

  ghost predicate Inv(cfg: Config, w: World) {
    EntriesOk(cfg, w) && PassesOk(cfg, w) && ObjectsOk(cfg, w) && FacesOk(w)
  }

  // ---------------------------------------------------------------------------------------
  // What the effects are
  // ---------------------------------------------------------------------------------------

  /** What a step may do to the world. */
  ghost predicate EffectOk(cfg: Config, w: World, o: Owner, e: Effect) {
    match e
    case Proceed(next) => PassOk(cfg, w, o, next)
    case PutEntry(p, u, next) =>
      Held(w, o) && StatusOf(w, p).Some? && IsMember(cfg, o, p) && Genuine(cfg, w, o, u)
      && next.Adding? && PassOk(cfg, w, o, next)
    case DropEntry(p, next) =>
      EntryOf(w, p, o).Some? && o in w.meta && w.meta[o].deleting && next.Removing?
      && o in w.passes && w.passes[o].Removing? && w.passes[o].todo == [p] + next.todo && PassOk(cfg, w, o, w.passes[o])
    case Release => forall p :: EntryOf(w, p, o).None?
    case _ => true
  }

  lemma BeginOk(cfg: Config, w: World, o: Owner, now: Time)
    requires ValidConfig(cfg) && o in cfg.network && o in w.meta && FacesOk(w)
    ensures EffectOk(cfg, w, o, Begin(cfg, w, o, now))
    ensures !Begin(cfg, w, o, now).Release?
  {
    assert FaceOk(w, o.name);
  }

  lemma ContinueOk(cfg: Config, w: World, o: Owner, order: seq<Name>, now: Time)
    requires o in w.passes && PassOk(cfg, w, o, w.passes[o]) && EntriesOk(cfg, w) && ObjectsOk(cfg, w)
    ensures EffectOk(cfg, w, o, Continue(cfg, w, o, order, now))
  {
    hide NoRepeats, EntryOf;
    match w.passes[o] {
      case Listing(face, seen) =>
      case Adding(u, todo, seen) =>
      case Closing(_, _) =>
      case CleanupListing => if IsListing(cfg, w, o, order) { CleanupOk(cfg, w, o, order); }
      case Removing(todo) =>
    }
  }

  lemma CleanupOk(cfg: Config, w: World, o: Owner, order: seq<Name>)
    requires o in w.passes && PassOk(cfg, w, o, w.passes[o]) && EntriesOk(cfg, w) && ObjectsOk(cfg, w)
    requires w.passes[o].CleanupListing? && IsListing(cfg, w, o, order)
    ensures RemovingOk(w, o, ToRemove(w, order, o))
  {
    forall p | EntryOf(w, p, o).Some? ensures p in order {
      assert EntryOk(cfg, w, p, o);
      assert IsPeer(cfg, w, o, p);
    }
  }

  // ---------------------------------------------------------------------------------------
  // What the effects do
  // ---------------------------------------------------------------------------------------

  lemma PutThenLook(st: Status, o: Owner, u: Uri, other: Owner)
    ensures EntryIn(AddEntry(Some(st), o, u).value, other) == if other == o then Some(u) else EntryIn(st, other)
  {
  }

  lemma DropThenLook(st: Status, o: Owner, other: Owner)
    requires EntryIn(st, o).Some?
    ensures EntryIn(RemoveEntry(Some(st), o).value, other) == if other == o then None else EntryIn(st, other)
  {
  }

  /** What router `p` lists for `other` after the effect. */
  function EntryAfter(w: World, o: Owner, e: Effect, p: Name, other: Owner): Option<Uri> {
    match e
    case PutEntry(q, u, _) => if p == q && other == o && StatusOf(w, q).Some? then Some(u) else EntryOf(w, p, other)
    case DropEntry(q, _) => if p == q && other == o then None else EntryOf(w, p, other)
    case Release => if OfRouter(p) == o then None else EntryOf(w, p, other)
    case _ => EntryOf(w, p, other)
  }

  lemma PatchedEntry(w: World, q: Name, status: Option<Status>, p: Name, other: Owner)
    ensures EntryOf(Patched(w, q, status), p, other)
            == if p == q && status.Some? then EntryIn(status.value, other) else EntryOf(w, p, other)
  {
  }

  lemma ConditionsThenLook(status: Option<Status>, c: RouterConditions, other: Owner)
    ensures EntryIn(PublishConditions(status, c), other) == if status.Some? then EntryIn(status.value, other) else None
  {
  }

  lemma SameRouters(w: World, w': World, p: Name, other: Owner)
    requires w'.routers == w.routers
    ensures EntryOf(w', p, other) == EntryOf(w, p, other)
  {
  }

  lemma ApplyEntry(w: World, o: Owner, e: Effect, p: Name, other: Owner)
    ensures EntryOf(Apply(w, o, e), p, other) == EntryAfter(w, o, e, p, other)
  {
    hide EntryIn, AddEntry, RemoveEntry, PublishConditions, Patched;
    match e {
      case PutEntry(q, u, next) =>
        var status := AddEntry(StatusOf(w, q), o, u);
        PatchedEntry(w, q, status, p, other);
        SameRouters(Patched(w, q, status), Apply(w, o, e), p, other);
        AddAccepted(StatusOf(w, q), o, u);
        if StatusOf(w, q).Some? { PutThenLook(StatusOf(w, q).value, o, u, other); }
      case DropEntry(q, next) =>
        var status := RemoveEntry(StatusOf(w, q), o);
        PatchedEntry(w, q, status, p, other);
        SameRouters(Patched(w, q, status), Apply(w, o, e), p, other);
        RemoveAccepted(StatusOf(w, q), o);
        if EntryOf(w, q, o).Some? { DropThenLook(StatusOf(w, q).value, o, other); }
      case Report(c) =>
        if o.name in w.routers {
          var status := Some(PublishConditions(w.routers[o.name], c));
          PatchedEntry(w, o.name, status, p, other);
          SameRouters(Patched(w, o.name, status), Apply(w, o, e), p, other);
          ConditionsThenLook(w.routers[o.name], c, other);
        }
      case Release =>
      case Proceed(_) =>
      case AddFinalizer =>
      case Finish =>
      case Fail =>
    }
  }

  /** Adding is refused without a status only. */
  lemma AddAccepted(status: Option<Status>, o: Owner, u: Uri)
    ensures AddEntry(status, o, u).Some? <==> status.Some?
  {
  }

  /** Removing is refused without the entry only. */
  lemma RemoveAccepted(status: Option<Status>, o: Owner)
    ensures RemoveEntry(status, o).Some? <==> status.Some? && EntryIn(status.value, o).Some?
  {
  }

  // ---------------------------------------------------------------------------------------
  // Preservation
  // ---------------------------------------------------------------------------------------

  /** Seen from `o` nothing happened, but that other routers may have come or gone. */
  ghost predicate Untouched(w: World, w': World, o: Owner) {
    && (Held(w, o) ==> Held(w', o) && (w.meta[o].deleting ==> w'.meta[o].deleting))
    && w.used <= w'.used && w.published <= w'.published
    && (forall p :: p in w'.routers ==> EntryOf(w', p, o) == EntryOf(w, p, o))
    && (forall p :: EntryOf(w', p, o).Some? ==> EntryOf(w, p, o).Some?)
    && (forall p :: p in w'.routers && p !in w.routers ==> OfRouter(p) !in w.used)
  }

  lemma PassFrame(cfg: Config, w: World, w': World, o: Owner, pass: Pass)
    requires PassOk(cfg, w, o, pass) && Untouched(w, w', o)
    ensures PassOk(cfg, w', o, pass)
  {
    hide NoRepeats, EntryOf;
  }

  lemma OtherEntry(w: World, o: Owner, e: Effect, p: Name, other: Owner)
    requires other != o
    ensures EntryOf(Apply(w, o, e), p, other) == if e.Release? && OfRouter(p) == o then None else EntryOf(w, p, other)
  {
    hide Apply, EntryOf;
    ApplyEntry(w, o, e, p, other);
  }

  lemma OtherMeta(w: World, o: Owner, e: Effect, other: Owner)
    requires other != o
    ensures var w' := Apply(w, o, e);
            w'.used == w.used && w'.published == w.published
            && (other in w'.meta <==> other in w.meta) && (other in w.meta ==> w'.meta[other] == w.meta[other])
            && (other in w'.passes <==> other in w.passes) && (other in w.passes ==> w'.passes[other] == w.passes[other])
  {
    hide AddEntry, RemoveEntry, PublishConditions;
  }

  lemma ApplyUntouched(cfg: Config, w: World, o: Owner, e: Effect, other: Owner)
    requires other != o && EffectOk(cfg, w, o, e)
    ensures Untouched(w, Apply(w, o, e), other)
  {
    hide EntryOf, EffectOk, Apply;
    var w' := Apply(w, o, e);
    forall p ensures EntryOf(w', p, other) == if e.Release? && OfRouter(p) == o then None else EntryOf(w, p, other) {
      OtherEntry(w, o, e, p, other);
    }
    OtherMeta(w, o, e, other);
    ApplyRouters(cfg, w, o, e);
  }

  /** An effect adds no router, and only a release takes one away: the owner itself. */
  lemma ApplyRouters(cfg: Config, w: World, o: Owner, e: Effect)
    requires EffectOk(cfg, w, o, e)
    ensures forall p :: p in Apply(w, o, e).routers <==> p in w.routers && !(e.Release? && OfRouter(p) == o)
  {
    hide AddEntry, RemoveEntry, PublishConditions;
  }

  /** The pass that took the step. */
  lemma ApplyOwnPass(cfg: Config, w: World, o: Owner, e: Effect)
    requires EffectOk(cfg, w, o, e) && ObjectsOk(cfg, w)
    requires o in w.passes ==> PassOk(cfg, w, o, w.passes[o])
    ensures var w' := Apply(w, o, e);
            o in w'.passes ==> PassOk(cfg, w', o, w'.passes[o])
  {
    hide EntryOf, ObjectsOk, NoRepeats;
    var w' := Apply(w, o, e);
    OwnMeta(w, o, e);
    match e {
      case Proceed(next) =>
        forall p ensures EntryOf(w', p, o) == EntryOf(w, p, o) { ApplyEntry(w, o, e, p, o); }
        ApplyRouters(cfg, w, o, e);
        PassFrame(cfg, w, w', o, next);
      case PutEntry(q, u, next) =>
      case DropEntry(q, next) =>
        forall p ensures EntryOf(w', p, o) == if p == q then None else EntryOf(w, p, o) { ApplyEntry(w, o, e, p, o); }
        ApplyRouters(cfg, w, o, e);
        DropKeepsRemoving(w, w', o, q, next.todo);
      case AddFinalizer =>
        forall p ensures EntryOf(w', p, o) == EntryOf(w, p, o) { ApplyEntry(w, o, e, p, o); }
        ApplyRouters(cfg, w, o, e);
        if o in w.passes { PassFrame(cfg, w, w', o, w.passes[o]); }
      case Report(_) =>
      case Release =>
      case Finish =>
      case Fail =>
    }
  }

  lemma OwnMeta(w: World, o: Owner, e: Effect)
    ensures var w' := Apply(w, o, e);
            w'.used == w.used && w'.published == w.published
            && (!e.Release? && !e.AddFinalizer? ==> w'.meta == w.meta)
            && (e.Release? ==> w'.meta == w.meta - {o})
            && (e.AddFinalizer? && o in w.meta ==> w'.meta == w.meta[o := w.meta[o].(finalizer := true)])
            && (e.AddFinalizer? && o !in w.meta ==> w'.meta == w.meta)
            && (e.AddFinalizer? ==> w'.passes == w.passes)
            && (e.Proceed? || e.PutEntry? || e.DropEntry? ==> w'.passes == w.passes[o := e.next])
            && (e.Report? || e.Release? || e.Finish? || e.Fail? ==> w'.passes == w.passes - {o})
  {
    hide AddEntry, RemoveEntry, PublishConditions;
  }

  lemma DropKeepsRemoving(w: World, w': World, o: Owner, q: Name, rest: seq<Name>)
    requires RemovingOk(w, o, [q] + rest)
    requires forall p :: EntryOf(w', p, o) == if p == q then None else EntryOf(w, p, o)
    requires forall p :: p in w'.routers <==> p in w.routers
    requires w'.used == w.used
    ensures RemovingOk(w', o, rest)
  {
    hide EntryOf, NoRepeats;
    TailNoRepeats(q, rest);
    forall p ensures p in [q] + rest <==> p == q || p in rest { }
  }

  lemma TailNoRepeats(q: Name, rest: seq<Name>)
    requires NoRepeats([q] + rest)
    ensures q !in rest && NoRepeats(rest)
  {
    var all := [q] + rest;
    assert forall i :: 0 <= i < |rest| ==> rest[i] == all[i + 1];
    forall i | 0 <= i < |rest| ensures rest[i] != q {
      assert all[0] != all[i + 1];
    }
  }

  lemma ApplyKeepsEntries(cfg: Config, w: World, o: Owner, e: Effect)
    requires EntriesOk(cfg, w) && EffectOk(cfg, w, o, e)
    ensures EntriesOk(cfg, Apply(w, o, e))
  {
    var w' := Apply(w, o, e);
    forall p, other ensures EntryOk(cfg, w', p, other) {
      ApplyEntryOk(cfg, w, o, e, p, other);
    }
  }

  lemma ApplyEntryOk(cfg: Config, w: World, o: Owner, e: Effect, p: Name, other: Owner)
    requires EntriesOk(cfg, w) && EffectOk(cfg, w, o, e)
    ensures EntryOk(cfg, Apply(w, o, e), p, other)
  {
    hide EntryOf, Apply, PassOk, RemovingOk;
    assert EntryOk(cfg, w, p, other);
    ApplyEntry(w, o, e, p, other);
    OwnMeta(w, o, e);
  }

  lemma FaceKept(w: World, o: Owner, e: Effect, n: Name)
    ensures var after := StatusOf(Apply(w, o, e), n);
            after.Some? && after.value.innerFace.Some? ==>
              StatusOf(w, n).Some? && StatusOf(w, n).value.innerFace == after.value.innerFace
  {
    match e {
      case PutEntry(q, u, next) =>
      case DropEntry(q, next) =>
      case Report(_) =>
      case Release =>
      case Proceed(_) =>
      case AddFinalizer =>
      case Finish =>
      case Fail =>
    }
  }

  lemma ApplyKeepsFaces(w: World, o: Owner, e: Effect)
    requires FacesOk(w)
    ensures FacesOk(Apply(w, o, e))
  {
    hide Apply, StatusOf;
    OwnMeta(w, o, e);
    forall n ensures FaceOk(Apply(w, o, e), n) {
      assert FaceOk(w, n);
      FaceKept(w, o, e, n);
    }
  }

  lemma ApplyKeepsObjects(cfg: Config, w: World, o: Owner, e: Effect)
    requires ObjectsOk(cfg, w) && EffectOk(cfg, w, o, e)
    ensures ObjectsOk(cfg, Apply(w, o, e))
  {
    hide Apply, EffectOk;
    var w' := Apply(w, o, e);
    OwnMeta(w, o, e);
    ApplyRouters(cfg, w, o, e);
    forall n ensures n in w'.routers <==> OfRouter(n) in w'.meta { }
  }

  lemma ApplyInv(cfg: Config, w: World, o: Owner, e: Effect)
    requires Inv(cfg, w) && EffectOk(cfg, w, o, e)
    ensures Inv(cfg, Apply(w, o, e))
  {
    hide EntriesOk, ObjectsOk, FacesOk, Apply, EffectOk, Untouched, PassOk;
    var w' := Apply(w, o, e);
    ApplyKeepsEntries(cfg, w, o, e);
    ApplyKeepsFaces(w, o, e);
    ApplyKeepsObjects(cfg, w, o, e);
    forall other | other in w'.passes ensures PassOk(cfg, w', other, w'.passes[other]) {
      if other == o {
        ApplyOwnPass(cfg, w, o, e);
      } else {
        OtherMeta(w, o, e, other);
        ApplyUntouched(cfg, w, o, e, other);
        PassFrame(cfg, w, w', other, w.passes[other]);
      }
    }
  }

  // ---------------------------------------------------------------------------------------
  // The other steps
  // ---------------------------------------------------------------------------------------

  /** Entries, passes and faces are as before, but that routers without a status may appear and an
      object without a finalizer may go. */
  ghost predicate Framed(cfg: Config, w: World, w': World) {
    && (forall o :: Untouched(w, w', o))
    && (forall o :: o in w'.passes ==> o in w.passes && w'.passes[o] == w.passes[o])
  }

  lemma FramedInv(cfg: Config, w: World, w': World)
    requires Inv(cfg, w) && Framed(cfg, w, w') && ObjectsOk(cfg, w') && FacesOk(w')
    ensures Inv(cfg, w')
  {
    hide ObjectsOk, FacesOk, PassOk;
    forall o | o in w'.passes ensures PassOk(cfg, w', o, w'.passes[o]) {
      assert Untouched(w, w', o);
      PassFrame(cfg, w, w', o, w.passes[o]);
    }
    forall p, o ensures EntryOk(cfg, w', p, o) {
      assert EntryOk(cfg, w, p, o) && Untouched(w, w', o);
      EntryFrame(cfg, w, w', p, o);
    }
  }

  lemma EntryFrame(cfg: Config, w: World, w': World, p: Name, o: Owner)
    requires EntryOk(cfg, w, p, o) && Untouched(w, w', o)
    ensures EntryOk(cfg, w', p, o)
  {
    if p !in w'.routers {
    }
  }

  lemma StatusPatchFramed(cfg: Config, w: World, w': World, n: Name, st: Status)
    requires n in w.routers && w' == w.(routers := w.routers[n := Some(st)], published := w'.published)
    requires w.published <= w'.published
    requires forall o :: EntryIn(st, o) == EntryOf(w, n, o)
    ensures Framed(cfg, w, w')
  {
    forall o ensures Untouched(w, w', o) {
      forall p ensures EntryOf(w', p, o) == EntryOf(w, p, o) { }
    }
  }

  lemma FaceFrame(w: World, w': World)
    requires FacesOk(w) && w.published <= w'.published
    requires forall n :: StatusOf(w', n) == StatusOf(w, n) || FaceOk(w', n)
    ensures FacesOk(w')
  {
    forall n ensures FaceOk(w', n) {
      assert FaceOk(w, n);
    }
  }

  lemma InitInv(cfg: Config, w: World, n: Name, face: Option<Uri>)
    requires ValidConfig(cfg) && Inv(cfg, w)
    ensures Inv(cfg, Step(cfg, w, Init(n, face)))
  {
    if n in w.routers {
      var w' := Step(cfg, w, Init(n, face));
      StatusPatchFramed(cfg, w, w', n, Initialize(w.routers[n], face));
      FaceFrame(w, w');
      FramedInv(cfg, w, w');
    }
  }

  lemma OnlineInv(cfg: Config, w: World, n: Name)
    requires ValidConfig(cfg) && Inv(cfg, w)
    ensures Inv(cfg, Step(cfg, w, Online(n)))
  {
    if n in w.routers && w.routers[n].Some? {
      var w' := Step(cfg, w, Online(n));
      assert FaceOk(w, n);
      StatusPatchFramed(cfg, w, w', n, GoOnline(w.routers[n]).value);
      FaceFrame(w, w');
      FramedInv(cfg, w, w');
    }
  }

  lemma CreateInv(cfg: Config, w: World, o: Owner)
    requires ValidConfig(cfg) && Inv(cfg, w)
    ensures Inv(cfg, Step(cfg, w, Create(o)))
  {
    hide EntryIn, PassesOk;
    if o in cfg.network && o !in w.used {
      var w' := Step(cfg, w, Create(o));
      forall other ensures Untouched(w, w', other) {
        forall p ensures EntryOf(w', p, other) == EntryOf(w, p, other) { }
      }
      FaceFrame(w, w');
      FramedInv(cfg, w, w');
    }
  }

  lemma RequestDeleteInv(cfg: Config, w: World, o: Owner)
    requires ValidConfig(cfg) && Inv(cfg, w)
    ensures Inv(cfg, Step(cfg, w, RequestDelete(o)))
  {
    hide EntryIn, PassesOk, EntriesOk;
    if o in w.meta {
      var w' := Step(cfg, w, RequestDelete(o));
      assert w' == if w.meta[o].finalizer then w.(meta := w.meta[o := w.meta[o].(deleting := true)]) else Without(w, o);
      forall other ensures Untouched(w, w', other) {
        forall p ensures p in w'.routers ==> EntryOf(w', p, other) == EntryOf(w, p, other) { }
      }
      FaceFrame(w, w');
      FramedInv(cfg, w, w');
    }
  }

  lemma CrashInv(cfg: Config, w: World, o: Owner)
    requires ValidConfig(cfg) && Inv(cfg, w)
    ensures Inv(cfg, Step(cfg, w, Crash(o)))
  {
    hide EntryIn, PassesOk, EntriesOk;
    var w' := Step(cfg, w, Crash(o));
    forall other ensures Untouched(w, w', other) {
      forall p ensures EntryOf(w', p, other) == EntryOf(w, p, other) { }
    }
    FaceFrame(w, w');
    FramedInv(cfg, w, w');
  }

  /** Every step keeps the invariant. */
  lemma StepInv(cfg: Config, w: World, a: Action)
    requires ValidConfig(cfg) && Inv(cfg, w)
    ensures Inv(cfg, Step(cfg, w, a))
  {
    hide EntriesOk, PassOk, EffectOk, Apply, Begin, Continue;
    match a {
      case Create(o) => CreateInv(cfg, w, o);
      case RequestDelete(o) => RequestDeleteInv(cfg, w, o);
      case Init(n, face) => InitInv(cfg, w, n, face);
      case Online(n) => OnlineInv(cfg, w, n);
      case BeginPass(o, now) =>
        if o in cfg.network && o in w.meta && o !in w.passes {
          BeginOk(cfg, w, o, now);
          ApplyInv(cfg, w, o, Begin(cfg, w, o, now));
        }
      case ContinuePass(o, order, now) =>
        if o in w.passes {
          ContinueOk(cfg, w, o, order, now);
          ApplyInv(cfg, w, o, Continue(cfg, w, o, order, now));
        }
      case Crash(o) => CrashInv(cfg, w, o);
    }
  }

  lemma {:induction false} RunInv(cfg: Config, w: World, actions: seq<Action>)
    requires ValidConfig(cfg) && Inv(cfg, w)
    ensures Inv(cfg, Run(cfg, w, actions))
    decreases |actions|
  {
    hide Inv, Step, ValidConfig;
    if actions != [] {
      StepInv(cfg, w, actions[0]);
      RunInv(cfg, Step(cfg, w, actions[0]), actions[1..]);
    }
  }
}
