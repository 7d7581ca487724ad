/** Routers, their status and the patches that change it, after src/router_controller/router.rs. */
module MeshTypes {
  import opened Wrappers
  import opened Conditions

  /** A face URI, compared as a whole. */
  datatype Uri = Uri(text: string)

  /** The condition types a router's status carries. */
  datatype RouterCondition = TypeInitialized | TypeOnline | TypeFaceReady | TypeNeighborsSynced | TypeReady

  type RouterConditions = ConditionList<RouterCondition>

  datatype Status = Status(
    initialized: bool,
    online: bool,
    innerFace: Option<Uri>,
    innerNeighbors: map<Name, Uri>,
    outerNeighbors: map<Name, Uri>,
    conditions: RouterConditions)

  /** What the CRD's defaults make of a status without fields. */
  const DEFAULT_STATUS := Status(false, false, None, map[], map[], None)

  /** Who writes an entry into a router's neighbour maps: another router into innerNeighbors, or a
      Neighbor object into outerNeighbors. Either way the entry is keyed by the writer's name. */
  datatype Owner = OfRouter(name: Name) | OfNeighbor(name: Name)

  function EntryIn(st: Status, o: Owner): Option<Uri> {
    match o
    case OfRouter(n) => if n in st.innerNeighbors then Some(st.innerNeighbors[n]) else None
    case OfNeighbor(n) => if n in st.outerNeighbors then Some(st.outerNeighbors[n]) else None
  }

  // ---------------------------------------------------------------------------------------
  // The patches, each as a change of the optional status; None means the API server refuses it
  // ---------------------------------------------------------------------------------------

  /** `add` of one entry: the map has to be there, which it is once there is a status. */
  function AddEntry(status: Option<Status>, o: Owner, u: Uri): Option<Status> {
    if status.None? then None
    else
      match o
      case OfRouter(n) => Some(status.value.(innerNeighbors := status.value.innerNeighbors[n := u]))
      case OfNeighbor(n) => Some(status.value.(outerNeighbors := status.value.outerNeighbors[n := u]))
  }

  /** `remove` of one entry: the entry has to be there. */
  function RemoveEntry(status: Option<Status>, o: Owner): Option<Status> {
    if status.None? || EntryIn(status.value, o).None? then None
    else
      match o
      case OfRouter(n) => Some(status.value.(innerNeighbors := status.value.innerNeighbors - {n}))
      case OfNeighbor(n) => Some(status.value.(outerNeighbors := status.value.outerNeighbors - {n}))
  }

  /** The sidecar's `replace` of status.online by true. */
  function GoOnline(status: Option<Status>): Option<Status> {
    if status.None? then None else Some(status.value.(online := true))
  }

  /** The init container's merge patch of status.innerFace and status.initialized. */
  function Initialize(status: Option<Status>, face: Option<Uri>): Status {
    status.GetOr(DEFAULT_STATUS).(innerFace := face, initialized := true)
  }

  /** The controller's merge patch of status.conditions. */
  function PublishConditions(status: Option<Status>, conditions: RouterConditions): Status {
    status.GetOr(DEFAULT_STATUS).(conditions := conditions)
  }

  // ---------------------------------------------------------------------------------------
  // The conditions a pass publishes
  // ---------------------------------------------------------------------------------------

  function Missing(st: Status): seq<string> {
    (if st.initialized then [] else ["Initialized"])
    + (if st.online then [] else ["Online"])
    + (if st.innerFace.Some? then [] else ["FaceReady"])
  }

  function JoinComma(parts: seq<string>): string {
    if parts == [] then "" else if |parts| == 1 then parts[0] else parts[0] + ", " + JoinComma(parts[1..])
  }

  /** How the missing prerequisites are listed. */
  lemma MissingReads(st: Status)
    ensures JoinComma(Missing(st))
            == if st.initialized then
                 if st.online then (if st.innerFace.Some? then "" else "FaceReady")
                 else if st.innerFace.Some? then "Online" else "Online, FaceReady"
               else if st.online then (if st.innerFace.Some? then "Initialized" else "Initialized, FaceReady")
               else if st.innerFace.Some? then "Initialized, Online" else "Initialized, Online, FaceReady"
  {
    var a, b, c := "Initialized", "Online", "FaceReady";
    assert [a, b][1..] == [b] && [b, c][1..] == [c] && [a, c][1..] == [c] && [a, b, c][1..] == [b, c];
    assert JoinComma([b, c]) == "Online, FaceReady" && JoinComma([a, b]) == "Initialized, Online" && JoinComma([a, c]) == "Initialized, FaceReady";
    assert JoinComma([a, b, c]) == "Initialized" + ", " + "Online, FaceReady";
    assert "Initialized" + ", " + "Online, FaceReady" == "Initialized, Online, FaceReady";
    assert Missing(st) == (if st.initialized then [] else [a]) + (if st.online then [] else [b]) + (if st.innerFace.Some? then [] else [c]);
  }

  predicate IsReady(st: Status) {
    st.initialized && st.online && st.innerFace.Some?
  }

  function Entry(ty: RouterCondition, b: bool, reason: string, message: string, generation: int, now: Time): Condition<RouterCondition> {
    Condition(ty, StatusText(b), reason, message, generation, now)
  }

  function InitializedEntry(st: Status, generation: int, now: Time): Condition<RouterCondition> {
    Entry(TypeInitialized, st.initialized, if st.initialized then "InitComplete" else "InitPending", "", generation, now)
  }

  function OnlineEntry(st: Status, generation: int, now: Time): Condition<RouterCondition> {
    Entry(TypeOnline, st.online, if st.online then "Online" else "Offline", "", generation, now)
  }

  function FaceEntry(st: Status, generation: int, now: Time): Condition<RouterCondition> {
    Entry(TypeFaceReady, st.innerFace.Some?, if st.innerFace.Some? then "FaceAvailable" else "FaceMissing", "", generation, now)
  }

  function SyncedEntry(synced: bool, generation: int, now: Time): Condition<RouterCondition> {
    if synced then Entry(TypeNeighborsSynced, true, "SyncOK", "Last neighbor propagation completed", generation, now)
    else Entry(TypeNeighborsSynced, false, "NotStarted", "Neighbor propagation not performed", generation, now)
  }

  function ReadyEntry(st: Status, generation: int, now: Time): Condition<RouterCondition> {
    Entry(TypeReady, IsReady(st), if IsReady(st) then "Ready" else "PrerequisitesNotReady",
          if IsReady(st) then "" else "Missing prerequisites: " + JoinComma(Missing(st)), generation, now)
  }

  /** The whole list, in order: every pass starts from no conditions, so nothing of the old list is
      kept, not even a transition time. `syncedAt` is None until the entries have been propagated. */
  function PassConditions(st: Status, generation: int, now: Time, syncedAt: Option<Time>): RouterConditions {
    Some([InitializedEntry(st, generation, now),
          OnlineEntry(st, generation, now),
          FaceEntry(st, generation, now),
          if syncedAt.Some? then SyncedEntry(true, generation, syncedAt.value) else SyncedEntry(false, generation, now),
          ReadyEntry(st, generation, now)])
  }

  /** What a reader of the published list sees: each flag speaks for the status the pass saw, Ready for all
      three together, and no time is older than the pass, whatever was published before. */
  lemma PublishedConditions(st: Status, generation: int, now: Time, syncedAt: Option<Time>)
    ensures var cs := PassConditions(st, generation, now, syncedAt);
            && Flag(cs, TypeInitialized) == Some(st.initialized)
            && Flag(cs, TypeOnline) == Some(st.online)
            && Flag(cs, TypeFaceReady) == Some(st.innerFace.Some?)
            && Flag(cs, TypeNeighborsSynced) == Some(syncedAt.Some?)
            && Flag(cs, TypeReady) == Some(st.initialized && st.online && st.innerFace.Some?)
            && forall c :: c in cs.value ==> c.lastTransitionTime == now || Some(c.lastTransitionTime) == syncedAt
  {
    hide InitializedEntry, OnlineEntry, FaceEntry, SyncedEntry, ReadyEntry;
    var cs := PassConditions(st, generation, now, syncedAt).value;
    EntryShapes(st, generation, now, syncedAt);
    PositionIsFirst(cs, TypeInitialized, 0);
    PositionIsFirst(cs, TypeOnline, 1);
    PositionIsFirst(cs, TypeFaceReady, 2);
    PositionIsFirst(cs, TypeNeighborsSynced, 3);
    PositionIsFirst(cs, TypeReady, 4);
  }

  predicate Shaped(c: Condition<RouterCondition>, ty: RouterCondition, b: bool, at: Time) {
    c.type_ == ty && (c.status == "True" <==> b) && c.lastTransitionTime == at
  }

  lemma EntryShapes(st: Status, generation: int, now: Time, syncedAt: Option<Time>)
    ensures Shaped(InitializedEntry(st, generation, now), TypeInitialized, st.initialized, now)
    ensures Shaped(OnlineEntry(st, generation, now), TypeOnline, st.online, now)
    ensures Shaped(FaceEntry(st, generation, now), TypeFaceReady, st.innerFace.Some?, now)
    ensures Shaped(ReadyEntry(st, generation, now), TypeReady, IsReady(st), now)
    ensures syncedAt.Some? ==> Shaped(SyncedEntry(true, generation, syncedAt.value), TypeNeighborsSynced, true, syncedAt.value)
    ensures Shaped(SyncedEntry(false, generation, now), TypeNeighborsSynced, false, now)
  {
    hide JoinComma, Missing;
    assert |"True"| == 4 && |"False"| == 5;
  }
}
