/** The router and neighbor controllers' own code, statement by statement, over a store that they patch.
    Each call is proved to do exactly what a whole pass of the step machine does. */
module MeshController {
  import opened Wrappers
  import opened Conditions
  import opened MeshTypes
  import opened MeshWorld
  import opened MeshPasses
  import opened MeshSafety

  datatype Error = PatchRefused(router: Name)

  /** A list call returns every router of the network, the caller included. */
  function Others(listed: seq<Name>, self: Name): (r: seq<Name>)
    ensures forall p :: p in r <==> p in listed && p != self
  {
    if listed == [] then []
    else if listed[0] == self then Others(listed[1..], self)
    else [listed[0]] + Others(listed[1..], self)
  }

  /** The routers that the pass of `o` turns to. */
  function Targets(listed: seq<Name>, o: Owner): seq<Name> {
    if o.OfRouter? then Others(listed, o.name) else listed
  }

  // ---------------------------------------------------------------------------------------
  // The conditions of one pass
  // ---------------------------------------------------------------------------------------

  /** Upserting a type that is not there yet appends. */
  method PutFresh(h: Holder<RouterCondition>, ty: RouterCondition, b: bool, reason: string, message: Option<string>,
                  generation: int, now: Time)
    requires forall c :: c in h.conditions.GetOr([]) ==> c.type_ != ty
    modifies h
    ensures h.conditions == Some(old(h.conditions).GetOr([]) + [Entry(ty, b, reason, message.GetOr(""), generation, now)])
  {
    ghost var before := h.conditions.GetOr([]);
    assert forall i :: 0 <= i < |before| ==> before[i] in before;
    h.UpsertBool(ty, b, reason, message, generation, now);
  }

  lemma TypesDiffer(st: Status, generation: int, now: Time)
    ensures InitializedEntry(st, generation, now).type_ == TypeInitialized
    ensures OnlineEntry(st, generation, now).type_ == TypeOnline
    ensures FaceEntry(st, generation, now).type_ == TypeFaceReady
    ensures SyncedEntry(false, generation, now).type_ == TypeNeighborsSynced
    ensures SyncedEntry(false, generation, now).status != SyncedEntry(true, generation, now).status
  {
    assert |"True"| == 4 && |"False"| == 5;
  }

  method ReadyMessage(st: Status) returns (message: Option<string>)
    ensures message.GetOr("") == if IsReady(st) then "" else "Missing prerequisites: " + JoinComma(Missing(st))
  {
    hide JoinComma;
    if st.initialized && st.online && st.innerFace.Some? {
      return None;
    }
    var missing: seq<string> := [];
    if !st.initialized {
      missing := missing + ["Initialized"];
    }
    if !st.online {
      missing := missing + ["Online"];
    }
    if st.innerFace.None? {
      missing := missing + ["FaceReady"];
    }
    assert missing == Missing(st);
    return Some("Missing prerequisites: " + JoinComma(missing));
  }

  /** The conditions upserted at the start of `Router::reconcile`, on a copy whose list was cleared. */
  method BaseConditions(st: Status, generation: int, now: Time) returns (h: Holder<RouterCondition>)
    ensures fresh(h) && h.conditions == PassConditions(st, generation, now, None)
  {
    hide InitializedEntry, OnlineEntry, FaceEntry, SyncedEntry, ReadyEntry;
    h := new Holder();
    TypesDiffer(st, generation, now);
    PutState(h, st, generation, now);
    PutSynced(h, generation, now);
    PutReady(h, st, generation, now);
    assert h.conditions.value == [InitializedEntry(st, generation, now), OnlineEntry(st, generation, now), FaceEntry(st, generation, now),
                                  SyncedEntry(false, generation, now), ReadyEntry(st, generation, now)];
  }

  method PutState(h: Holder<RouterCondition>, st: Status, generation: int, now: Time)
    requires h.conditions == None
    modifies h
    ensures h.conditions == Some([InitializedEntry(st, generation, now), OnlineEntry(st, generation, now), FaceEntry(st, generation, now)])
  {
    hide Entry;
    TypesDiffer(st, generation, now);
    var faceReady := st.innerFace.Some?;
    PutFresh(h, TypeInitialized, st.initialized, if st.initialized then "InitComplete" else "InitPending", None, generation, now);
    assert h.conditions.value == [InitializedEntry(st, generation, now)];
    PutFresh(h, TypeOnline, st.online, if st.online then "Online" else "Offline", None, generation, now);
    assert h.conditions.value == [InitializedEntry(st, generation, now), OnlineEntry(st, generation, now)];
    PutFresh(h, TypeFaceReady, faceReady, if faceReady then "FaceAvailable" else "FaceMissing", None, generation, now);
    assert h.conditions.value == [InitializedEntry(st, generation, now), OnlineEntry(st, generation, now), FaceEntry(st, generation, now)];
  }

  method PutSynced(h: Holder<RouterCondition>, generation: int, now: Time)
    requires forall c :: c in h.conditions.GetOr([]) ==> c.type_ != TypeNeighborsSynced
    modifies h
    ensures h.conditions == Some(old(h.conditions).GetOr([]) + [SyncedEntry(false, generation, now)])
  {
    hide Entry;
    PutFresh(h, TypeNeighborsSynced, false, "NotStarted", Some("Neighbor propagation not performed"), generation, now);
  }

  method PutReady(h: Holder<RouterCondition>, st: Status, generation: int, now: Time)
    requires forall c :: c in h.conditions.GetOr([]) ==> c.type_ != TypeReady
    modifies h
    ensures h.conditions == Some(old(h.conditions).GetOr([]) + [ReadyEntry(st, generation, now)])
  {
    hide Entry, JoinComma, Missing;
    var ready := st.initialized && st.online && st.innerFace.Some?;
    var message := ReadyMessage(st);
    PutFresh(h, TypeReady, ready, if ready then "Ready" else "PrerequisitesNotReady", message, generation, now);
  }

  /** The upsert at the end: the one entry changes, in its place. */
  method MarkSynced(h: Holder<RouterCondition>, ghost st: Status, generation: int, ghost start: Time, now: Time)
    requires h.conditions == PassConditions(st, generation, start, None)
    modifies h
    ensures h.conditions == PassConditions(st, generation, start, Some(now))
  {
    hide Upsert;
    SyncedReplaces(st, generation, start, now);
    h.UpsertBool(TypeNeighborsSynced, true, "SyncOK", Some("Last neighbor propagation completed"), generation, now);
  }

  lemma SyncedReplaces(st: Status, generation: int, start: Time, now: Time)
    ensures Upsert(PassConditions(st, generation, start, None), SyncedEntry(true, generation, now))
            == PassConditions(st, generation, start, Some(now))
  {
    hide Entry, InitializedEntry, OnlineEntry, FaceEntry, SyncedEntry, ReadyEntry, Position;
    var cs := PassConditions(st, generation, start, None).value;
    TypesDiffer(st, generation, start);
    SyncedShape(generation, start, now);
    PositionIsFirst(cs, TypeNeighborsSynced, 3);
    var c := SyncedEntry(true, generation, now);
    assert cs[3] == SyncedEntry(false, generation, start);
    assert Upsert(Some(cs), c) == Some(cs[3 := c]);
    assert cs[3 := c] == PassConditions(st, generation, start, Some(now)).value;
  }

  lemma SyncedShape(generation: int, start: Time, now: Time)
    ensures SyncedEntry(true, generation, now).type_ == TypeNeighborsSynced
    ensures SyncedEntry(false, generation, start).status != SyncedEntry(true, generation, now).status
  {
    assert |"True"| == 4 && |"False"| == 5;
  }

  // ---------------------------------------------------------------------------------------
  // The controllers
  // ---------------------------------------------------------------------------------------

  /** The API server's store, as the controllers reach it by calls. */
  class ApiServer {
    const cfg: Config
    var routers: map<Name, Option<Status>>
    var meta: map<Owner, Meta>

    constructor (cfg: Config)
      ensures this.cfg == cfg && routers == map[] && meta == map[]
    {
      this.cfg := cfg;
      routers := map[];
      meta := map[];
    }

    function AsWorld(): World
      reads this
    {
      World(routers, meta, map[], {}, {})
    }

    method PatchAdd(p: Name, o: Owner, u: Uri) returns (ok: bool)
      modifies this`routers
      ensures ok <==> AddEntry(Lookup(old(routers), p), o, u).Some?
      ensures routers == if ok then old(routers)[p := AddEntry(Lookup(old(routers), p), o, u)] else old(routers)
    {
      var st := AddEntry(Lookup(routers, p), o, u);
      ok := st.Some?;
      if ok {
        routers := routers[p := st];
      }
    }

    method PatchRemove(p: Name, o: Owner) returns (ok: bool)
      modifies this`routers
      ensures ok <==> RemoveEntry(Lookup(old(routers), p), o).Some?
      ensures routers == if ok then old(routers)[p := RemoveEntry(Lookup(old(routers), p), o)] else old(routers)
    {
      var st := RemoveEntry(Lookup(routers, p), o);
      ok := st.Some?;
      if ok {
        routers := routers[p := st];
      }
    }

    method PatchConditions(n: Name, conditions: RouterConditions)
      requires n in routers
      modifies this`routers
      ensures routers == old(routers)[n := Some(PublishConditions(old(routers)[n], conditions))]
    {
      routers := routers[n := Some(PublishConditions(routers[n], conditions))];
    }

    /** `Router::reconcile`, on a router that is there and keeps its finalizer. */
    method RouterReconcile(n: Name, listed: seq<Name>, start: Time, end: Time) returns (r: Result<(), Error>)
      requires ValidConfig(cfg) && OfRouter(n) in cfg.network && OfRouter(n) in meta && n in routers
      requires meta[OfRouter(n)] == Meta(true, false)
      modifies this`routers
      ensures AsWorld() == WholePass(cfg, old(AsWorld()), OfRouter(n), Others(listed, n), start, end)
      ensures r.Err? <==> old(routers)[n].Some? && old(routers)[n].value.online && old(routers)[n].value.innerFace.Some?
                          && !AddAll(old(routers), OfRouter(n), old(routers)[n].value.innerFace.value, Others(listed, n)).0
      ensures r.Err? ==> r.error.router in listed && r.error.router != n && Lookup(routers, r.error.router).None?
    {
      hide PassConditions, PublishConditions, AddEntry;
      var mine := routers[n].GetOr(DEFAULT_STATUS);
      var conditions := BaseConditions(mine, cfg.generation, start);
      if !mine.online {
        PatchConditions(n, conditions.conditions);
        return Ok(());
      }
      var i := 0;
      while i < |listed|
        invariant i <= |listed| && n in routers
        invariant conditions.conditions == PassConditions(mine, cfg.generation, start, None)
        invariant mine.innerFace.None? ==> routers == old(routers)
        invariant mine.innerFace.Some? ==>
                    AddAll(routers, OfRouter(n), mine.innerFace.value, Others(listed[i..], n))
                    == AddAll(old(routers), OfRouter(n), mine.innerFace.value, Others(listed, n))
      {
        assert listed[i..][1..] == listed[i + 1..];
        var peer := listed[i];
        i := i + 1;
        if peer != n {
          if mine.innerFace.None? {
            continue;
          }
          assert Others(listed[i - 1..], n) == [peer] + Others(listed[i..], n);
          assert ([peer] + Others(listed[i..], n))[1..] == Others(listed[i..], n);
          AddAccepted(Lookup(routers, peer), OfRouter(n), mine.innerFace.value);
          var ok := PatchAdd(peer, OfRouter(n), mine.innerFace.value);
          if !ok {
            return Err(PatchRefused(peer));
          }
        }
      }
      MarkSynced(conditions, mine, cfg.generation, start, end);
      PatchConditions(n, conditions.conditions);
      return Ok(());
    }

    /** `Router::cleanup`: whom to remove the entry from is decided by the list, not by what is there when
        the patch is sent. */
    method RouterCleanup(n: Name, listed: seq<Name>) returns (r: Result<(), Error>)
      modifies this`routers
      ensures var (ok, after) := RemoveAll(old(routers), OfRouter(n), ToRemove(old(AsWorld()), Others(listed, n), OfRouter(n)));
              routers == after && (r.Ok? <==> ok)
      ensures r.Err? ==> r.error.router in listed && r.error.router != n && !Holds(routers, r.error.router, OfRouter(n))
    {
      hide RemoveEntry, EntryIn;
      ghost var w := AsWorld();
      var snapshot := routers;
      var i := 0;
      while i < |listed|
        invariant i <= |listed|
        invariant RemoveAll(routers, OfRouter(n), Holding(w, Others(listed[i..], n), OfRouter(n)))
               == RemoveAll(old(routers), OfRouter(n), Holding(w, Others(listed, n), OfRouter(n)))
      {
        assert listed[i..][1..] == listed[i + 1..];
        var peer := listed[i];
        i := i + 1;
        if peer != n {
          ghost var rest := Others(listed[i..], n);
          assert Others(listed[i - 1..], n) == [peer] + rest;
          assert ([peer] + rest)[1..] == rest;
          if Lookup(snapshot, peer).Some? && EntryIn(Lookup(snapshot, peer).value, OfRouter(n)).Some? {
            assert Holding(w, [peer] + rest, OfRouter(n)) == [peer] + Holding(w, rest, OfRouter(n));
            assert ([peer] + Holding(w, rest, OfRouter(n)))[1..] == Holding(w, rest, OfRouter(n));
            RemoveAccepted(Lookup(routers, peer), OfRouter(n));
            var ok := PatchRemove(peer, OfRouter(n));
            if !ok {
              return Err(PatchRefused(peer));
            }
          }
        }
      }
      return Ok(());
    }

    /** `Neighbor::reconcile`. */
    method NeighborReconcile(n: Name, listed: seq<Name>) returns (r: Result<(), Error>)
      requires n in cfg.uri
      modifies this`routers
      ensures var (ok, after) := AddAll(old(routers), OfNeighbor(n), cfg.uri[n], listed);
              routers == after && (r.Ok? <==> ok)
      ensures r.Err? ==> r.error.router in listed && Lookup(routers, r.error.router).None?
    {
      hide AddEntry;
      var i := 0;
      while i < |listed|
        invariant i <= |listed|
        invariant AddAll(routers, OfNeighbor(n), cfg.uri[n], listed[i..]) == AddAll(old(routers), OfNeighbor(n), cfg.uri[n], listed)
      {
        assert listed[i..][1..] == listed[i + 1..];
        AddAccepted(Lookup(routers, listed[i]), OfNeighbor(n), cfg.uri[n]);
        var ok := PatchAdd(listed[i], OfNeighbor(n), cfg.uri[n]);
        if !ok {
          return Err(PatchRefused(listed[i]));
        }
        i := i + 1;
      }
      return Ok(());
    }

    /** `Neighbor::cleanup`: it does not look whether the entry is there. */
    method NeighborCleanup(n: Name, listed: seq<Name>) returns (r: Result<(), Error>)
      modifies this`routers
      ensures var (ok, after) := RemoveAll(old(routers), OfNeighbor(n), listed);
              routers == after && (r.Ok? <==> ok)
      ensures r.Err? ==> r.error.router in listed && !Holds(routers, r.error.router, OfNeighbor(n))
    {
      hide RemoveEntry, EntryIn;
      var i := 0;
      while i < |listed|
        invariant i <= |listed|
        invariant RemoveAll(routers, OfNeighbor(n), listed[i..]) == RemoveAll(old(routers), OfNeighbor(n), listed)
      {
        assert listed[i..][1..] == listed[i + 1..];
        RemoveAccepted(Lookup(routers, listed[i]), OfNeighbor(n));
        var ok := PatchRemove(listed[i], OfNeighbor(n));
        if !ok {
          return Err(PatchRefused(listed[i]));
        }
        i := i + 1;
      }
      return Ok(());
    }

    /** `reconcile_router` and `reconcile_neighbor`: the finalizer protocol around the two calls. */
    method Reconcile(o: Owner, listed: seq<Name>, start: Time, end: Time) returns (r: Result<(), Error>)
      requires ValidConfig(cfg) && o in cfg.network && o in meta && (o.OfRouter? ==> o.name in routers)
      modifies this
      ensures AsWorld() == WholePass(cfg, old(AsWorld()), o, Targets(listed, o), start, end)
      ensures old(meta)[o] == Meta(true, true) ==> (r.Ok? <==> o !in meta)
    {
      hide AddAll, RemoveAll, PassConditions, PublishConditions, Others, Holding;
      r := Ok(());
      if !meta[o].deleting {
        if !meta[o].finalizer {
          meta := meta[o := Meta(true, false)];
        } else if o.OfRouter? {
          r := RouterReconcile(o.name, listed, start, end);
        } else {
          r := NeighborReconcile(o.name, listed);
        }
      } else if meta[o].finalizer {
        if o.OfRouter? {
          r := RouterCleanup(o.name, listed);
        } else {
          r := NeighborCleanup(o.name, listed);
        }
        if r.Ok? {
          if o.OfRouter? {
            routers := routers - {o.name};
          }
          meta := meta - {o};
        }
      }
    }
  }
}
