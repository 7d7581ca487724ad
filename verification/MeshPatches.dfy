/** The status patches as JSON documents: what each one means under RFC 6902 and RFC 7396, with the
    CRD's defaults (charts/ndn-operator/templates/crd/router.yaml), is the change that the mesh model makes. */
module MeshPatches {
  import opened Wrappers
  import opened Conditions
  import opened JsonPatch
  import opened MeshTypes
  import opened Text

  // ---------------------------------------------------------------------------------------
  // JSON form of a router
  // ---------------------------------------------------------------------------------------

  function EncodeUris(m: map<Name, Uri>): Json {
    Obj(map n | n in m :: n.text := Str(m[n].text))
  }

  function ConditionName(ty: RouterCondition): string {
    match ty
    case TypeInitialized => "Initialized"
    case TypeOnline => "Online"
    case TypeFaceReady => "FaceReady"
    case TypeNeighborsSynced => "NeighborsSynced"
    case TypeReady => "Ready"
  }

  function EncodeCondition(c: Condition<RouterCondition>): Json {
    Obj(map["type" := Str(ConditionName(c.type_)), "status" := Str(c.status), "reason" := Str(c.reason),
            "message" := Str(c.message), "observedGeneration" := Num(c.observedGeneration),
            "lastTransitionTime" := Num(c.lastTransitionTime)])
  }

  function EncodeConditions(cs: RouterConditions): Json {
    if cs.None? then Null
    else Arr(seq(|cs.value|, i requires 0 <= i < |cs.value| => EncodeCondition(cs.value[i])))
  }

  /** An absent optional field is not stored. */
  function WithField(fields: map<string, Json>, key: string, value: Option<Json>): map<string, Json> {
    if value.Some? then fields[key := value.value] else fields
  }

  /** The fields that a status always has. */
  function RequiredFields(initialized: bool, online: bool, inner: map<Name, Uri>, outer: map<Name, Uri>): map<string, Json> {
    FourFields(initialized, online, EncodeUris(inner), EncodeUris(outer))
  }

  function FourFields(initialized: bool, online: bool, inner: Json, outer: Json): map<string, Json> {
    map["initialized" := Bool(initialized), "online" := Bool(online), "innerNeighbors" := inner, "outerNeighbors" := outer]
  }

  function FaceField(face: Option<Uri>): Option<Json> {
    if face.Some? then Some(Str(face.value.text)) else None
  }

  function ConditionsFieldOf(cs: RouterConditions): Option<Json> {
    if cs.Some? then Some(EncodeConditions(cs)) else None
  }

  function StatusFields(st: Status): map<string, Json> {
    WithField(WithField(RequiredFields(st.initialized, st.online, st.innerNeighbors, st.outerNeighbors),
                        "innerFace", FaceField(st.innerFace)),
              "conditions", ConditionsFieldOf(st.conditions))
  }

  /** A stored router: its metadata and spec, and its status once there is one. */
  function EncodeRouter(rest: map<string, Json>, status: Option<Status>): Json {
    Obj(if status.Some? then rest["status" := Obj(StatusFields(status.value))] else rest - {"status"})
  }

  const DEFAULT_FIELDS: map<string, Json> := FourFields(false, false, Obj(map[]), Obj(map[]))

  const REQUIRED := {"initialized", "online", "innerNeighbors", "outerNeighbors"}

  lemma RequiredKeys(initialized: bool, online: bool, inner: map<Name, Uri>, outer: map<Name, Uri>)
    ensures RequiredFields(initialized, online, inner, outer).Keys == REQUIRED && DEFAULT_FIELDS.Keys == REQUIRED
    ensures "innerFace" !in REQUIRED && "conditions" !in REQUIRED && "initialized" in REQUIRED && "online" in REQUIRED
    ensures "innerFace" != "conditions"
  {
    hide EncodeUris;
    assert |"innerFace"| == 9 && |"conditions"| == 10;
  }

  lemma RequiredDefaults()
    ensures DEFAULT_FIELDS == RequiredFields(false, false, map[], map[])
  {
    hide FourFields;
    NoUris();
  }

  lemma NoUris()
    ensures EncodeUris(map[]) == Obj(map[])
  {
  }

  lemma RequiredUpdates(initialized: bool, online: bool, inner: map<Name, Uri>, outer: map<Name, Uri>)
    ensures RequiredFields(initialized, online, inner, outer)["initialized" := Bool(true)] == RequiredFields(true, online, inner, outer)
    ensures RequiredFields(initialized, online, inner, outer)["online" := Bool(true)] == RequiredFields(initialized, true, inner, outer)
  {
    hide EncodeUris;
    assert |"initialized"| == 11 && |"online"| == 6;
  }

  /** The API server fills in the CRD's defaults of a status that is there. */
  function Defaulted(doc: Json): Json {
    match Child(doc, "status")
    case Some(Obj(fields)) => WithChild(doc, "status", Obj(DEFAULT_FIELDS + fields))
    case _ => doc
  }

  // ---------------------------------------------------------------------------------------
  // The patches sent
  // ---------------------------------------------------------------------------------------

  function MapField(o: Owner): string {
    if o.OfRouter? then "innerNeighbors" else "outerNeighbors"
  }

  function AddEntryPatch(o: Owner, u: Uri): Patch {
    [Operation(["status", MapField(o), o.name.text], AddValue(Str(u.text)))]
  }

  function RemoveEntryPatch(o: Owner): Patch {
    [Operation(["status", MapField(o), o.name.text], RemoveValue)]
  }

  const ONLINE_PATCH: Patch := [Operation(["status", "online"], ReplaceValue(Bool(true)))]

  function InitPatch(face: Option<Uri>): Json {
    Obj(map["status" := Obj(map["innerFace" := if face.Some? then Str(face.value.text) else Null, "initialized" := Bool(true)])])
  }

  function ConditionsPatch(cs: RouterConditions): Json {
    Obj(map["status" := Obj(map["conditions" := EncodeConditions(cs)])])
  }

  // ---------------------------------------------------------------------------------------
  // What they mean
  // ---------------------------------------------------------------------------------------

  function MapOf(st: Status, o: Owner): map<Name, Uri> {
    if o.OfRouter? then st.innerNeighbors else st.outerNeighbors
  }

  lemma EncodeUrisKeys(m: map<Name, Uri>, n: Name)
    ensures n.text in EncodeUris(m).fields <==> n in m
  {
    if n.text in EncodeUris(m).fields {
      var k :| k in m && k.text == n.text;
      assert k == n;
    }
  }

  lemma EncodeUrisPut(m: map<Name, Uri>, n: Name, u: Uri)
    ensures EncodeUris(m[n := u]).fields == EncodeUris(m).fields[n.text := Str(u.text)]
  {
    var a, b := EncodeUris(m[n := u]).fields, EncodeUris(m).fields[n.text := Str(u.text)];
    forall t ensures t in a <==> t in b {
      EncodeUrisKeys(m, Name(t));
      EncodeUrisKeys(m[n := u], Name(t));
    }
  }

  lemma EncodeUrisDrop(m: map<Name, Uri>, n: Name)
    ensures EncodeUris(m - {n}).fields == EncodeUris(m).fields - {n.text}
  {
    var a, b := EncodeUris(m - {n}).fields, EncodeUris(m).fields - {n.text};
    forall t ensures t in a <==> t in b {
      EncodeUrisKeys(m, Name(t));
      EncodeUrisKeys(m - {n}, Name(t));
    }
  }

  lemma FieldNamesDiffer(o: Owner)
    ensures MapField(o) != "initialized" && MapField(o) != "online" && MapField(o) != "innerFace" && MapField(o) != "conditions"
    ensures MapField(o) == "innerNeighbors" <==> o.OfRouter?
    ensures MapField(o) == "outerNeighbors" <==> o.OfNeighbor?
  {
    assert "innerNeighbors"[0] == 'i' && "outerNeighbors"[0] == 'o';
  }

  lemma MapFieldStored(st: Status, o: Owner)
    ensures MapField(o) in StatusFields(st) && StatusFields(st)[MapField(o)] == EncodeUris(MapOf(st, o))
  {
    hide EncodeUris, EncodeConditions;
    FieldNamesDiffer(o);
  }

  function WithMap(st: Status, o: Owner, m: map<Name, Uri>): Status {
    if o.OfRouter? then st.(innerNeighbors := m) else st.(outerNeighbors := m)
  }

  lemma UpdateShape(required: map<string, Json>, a: Option<Json>, b: Option<Json>, ka: string, kb: string, k: string, v: Json)
    requires k != ka && k != kb
    ensures WithField(WithField(required, ka, a), kb, b)[k := v] == WithField(WithField(required[k := v], ka, a), kb, b)
  {
    if a.Some? && b.Some? {
      assert required[ka := a.value][kb := b.value][k := v] == required[k := v][ka := a.value][kb := b.value];
    }
  }

  lemma RequiredMapUpdates(initialized: bool, online: bool, inner: map<Name, Uri>, outer: map<Name, Uri>, m: map<Name, Uri>)
    ensures RequiredFields(initialized, online, inner, outer)["innerNeighbors" := EncodeUris(m)] == RequiredFields(initialized, online, m, outer)
    ensures RequiredFields(initialized, online, inner, outer)["outerNeighbors" := EncodeUris(m)] == RequiredFields(initialized, online, inner, m)
  {
    hide EncodeUris;
    assert |"initialized"| == 11 && |"online"| == 6 && |"innerNeighbors"| == 14 && "innerNeighbors"[0] != "outerNeighbors"[0];
  }

  lemma MapFieldReplaced(st: Status, o: Owner, m: map<Name, Uri>)
    ensures StatusFields(WithMap(st, o, m)) == StatusFields(st)[MapField(o) := EncodeUris(m)]
  {
    hide EncodeUris, RequiredFields, FaceField, ConditionsFieldOf, WithField;
    FieldNamesDiffer(o);
    RequiredMapUpdates(st.initialized, st.online, st.innerNeighbors, st.outerNeighbors, m);
    UpdateShape(RequiredFields(st.initialized, st.online, st.innerNeighbors, st.outerNeighbors),
                FaceField(st.innerFace), ConditionsFieldOf(st.conditions), "innerFace", "conditions", MapField(o), EncodeUris(m));
  }

  /** An edit of one entry of a neighbour map, carried up to the router. */
  lemma EditEntry(rest: map<string, Json>, st: Status, o: Owner, edit: Edit, m: map<Name, Uri>)
    requires EditChild(EncodeUris(MapOf(st, o)), o.name.text, edit) == Ok(EncodeUris(m))
    ensures EditAt(EncodeRouter(rest, Some(st)), ["status", MapField(o), o.name.text], edit)
            == Ok(EncodeRouter(rest, Some(WithMap(st, o, m))))
  {
    hide EncodeUris, StatusFields, MapField, WithMap, EditChild;
    var path := ["status", MapField(o), o.name.text];
    assert path[1..] == [MapField(o), o.name.text] && path[1..][1..] == [o.name.text];
    MapFieldStored(st, o);
    MapFieldReplaced(st, o, m);
    var inner := Obj(StatusFields(st));
    assert EditAt(inner, path[1..], edit) == Ok(Obj(StatusFields(WithMap(st, o, m))));
    assert rest["status" := inner]["status" := Obj(StatusFields(WithMap(st, o, m)))]
        == rest["status" := Obj(StatusFields(WithMap(st, o, m)))];
  }

  lemma EditEntryRefused(rest: map<string, Json>, st: Status, o: Owner, edit: Edit)
    requires EditChild(EncodeUris(MapOf(st, o)), o.name.text, edit).Err?
    ensures EditAt(EncodeRouter(rest, Some(st)), ["status", MapField(o), o.name.text], edit).Err?
  {
    hide EncodeUris, StatusFields, MapField, EditChild;
    var path := ["status", MapField(o), o.name.text];
    assert path[1..] == [MapField(o), o.name.text] && path[1..][1..] == [o.name.text];
    MapFieldStored(st, o);
    assert EditAt(Obj(StatusFields(st)), path[1..], edit).Err?;
  }

  lemma NoStatusRefused(rest: map<string, Json>, path: seq<string>, edit: Edit)
    requires |path| > 1 && path[0] == "status"
    ensures EditAt(EncodeRouter(rest, None), path, edit).Err?
  {
  }

  lemma OneOperation(doc: Json, op: Operation)
    ensures ApplyPatch(doc, [op]) == EditAt(doc, op.path, op.edit)
  {
    assert [op][1..] == [];
  }

  /** `add` of an entry: refused exactly when there is no status. */
  lemma AddEntryMeans(rest: map<string, Json>, status: Option<Status>, o: Owner, u: Uri)
    ensures match AddEntry(status, o, u)
            case None => ApplyPatch(EncodeRouter(rest, status), AddEntryPatch(o, u)).Err?
            case Some(st) => ApplyPatch(EncodeRouter(rest, status), AddEntryPatch(o, u)) == Ok(EncodeRouter(rest, Some(st)))
  {
    hide EncodeRouter, EncodeUris, MapField, EditAt;
    OneOperation(EncodeRouter(rest, status), AddEntryPatch(o, u)[0]);
    if status.None? {
      NoStatusRefused(rest, AddEntryPatch(o, u)[0].path, AddValue(Str(u.text)));
    } else {
      var m := MapOf(status.value, o);
      EncodeUrisPut(m, o.name, u);
      EncodeUrisIsObject(m);
      EncodeUrisIsObject(m[o.name := u]);
      EditEntry(rest, status.value, o, AddValue(Str(u.text)), m[o.name := u]);
    }
  }

  lemma EncodeUrisIsObject(m: map<Name, Uri>)
    ensures EncodeUris(m) == Obj(EncodeUris(m).fields)
  {
  }

  /** `remove` of an entry: refused exactly when it is not there. */
  lemma RemoveEntryMeans(rest: map<string, Json>, status: Option<Status>, o: Owner)
    ensures match RemoveEntry(status, o)
            case None => ApplyPatch(EncodeRouter(rest, status), RemoveEntryPatch(o)).Err?
            case Some(st) => ApplyPatch(EncodeRouter(rest, status), RemoveEntryPatch(o)) == Ok(EncodeRouter(rest, Some(st)))
  {
    hide EncodeRouter, EncodeUris, MapField, EditAt;
    OneOperation(EncodeRouter(rest, status), RemoveEntryPatch(o)[0]);
    if status.None? {
      NoStatusRefused(rest, RemoveEntryPatch(o)[0].path, RemoveValue);
    } else {
      var m := MapOf(status.value, o);
      EncodeUrisKeys(m, o.name);
      EncodeUrisIsObject(m);
      if o.name in m {
        EncodeUrisDrop(m, o.name);
        EncodeUrisIsObject(m - {o.name});
        EditEntry(rest, status.value, o, RemoveValue, m - {o.name});
      } else {
        EditEntryRefused(rest, status.value, o, RemoveValue);
      }
    }
  }

  /** The sidecar's `replace`: refused exactly when there is no status. */
  lemma OnlineMeans(rest: map<string, Json>, status: Option<Status>)
    ensures match GoOnline(status)
            case None => ApplyPatch(EncodeRouter(rest, status), ONLINE_PATCH).Err?
            case Some(st) => ApplyPatch(EncodeRouter(rest, status), ONLINE_PATCH) == Ok(EncodeRouter(rest, Some(st)))
  {
    hide EncodeUris, EncodeConditions;
    OneOperation(EncodeRouter(rest, status), ONLINE_PATCH[0]);
    if status.None? {
      NoStatusRefused(rest, ["status", "online"], ReplaceValue(Bool(true)));
    } else {
      assert ["status", "online"][1..] == ["online"];
      var st := status.value;
      OnlineField(st);
      var inner := Obj(StatusFields(st));
      assert Child(inner, "online").Some?;
      var now := Obj(StatusFields(st.(online := true)));
      hide StatusFields;
      assert rest["status" := inner]["status" := now] == rest["status" := now];
    }
  }

  lemma OnlineField(st: Status)
    ensures "online" in StatusFields(st)
    ensures StatusFields(st.(online := true)) == StatusFields(st)["online" := Bool(true)]
  {
    hide RequiredFields, FaceField, ConditionsFieldOf, REQUIRED, DEFAULT_FIELDS;
    assert |"online"| == 6 && |"innerFace"| == 9 && |"conditions"| == 10;
    RequiredKeys(st.initialized, st.online, st.innerNeighbors, st.outerNeighbors);
    RequiredUpdates(st.initialized, st.online, st.innerNeighbors, st.outerNeighbors);
    UpdateShape(RequiredFields(st.initialized, st.online, st.innerNeighbors, st.outerNeighbors),
                FaceField(st.innerFace), ConditionsFieldOf(st.conditions), "innerFace", "conditions", "online", Bool(true));
  }

  // ---------------------------------------------------------------------------------------
  // Merge patches
  // ---------------------------------------------------------------------------------------

  /** Merging one member that is not null. */
  lemma MergeOne(fields: map<string, Json>, key: string, v: Json)
    requires !v.Null?
    ensures Merge(Obj(fields), Obj(map[key := v]))
            == Obj(fields[key := Merge(if key in fields then fields[key] else Null, v)])
  {
    var changes := map[key := v];
    MergeMembers(fields, changes);
    hide Merge;
    assert fields.Keys + changes.Keys == fields[key := v].Keys;
    assert (map k | k in fields.Keys + changes.Keys && (k in changes ==> !changes[k].Null?) ::
              if k in changes then Merge(if k in fields then fields[k] else Null, changes[k]) else fields[k])
        == fields[key := Merge(if key in fields then fields[key] else Null, v)];
  }

  lemma MergeMembers(fields: map<string, Json>, changes: map<string, Json>)
    ensures Merge(Obj(fields), Obj(changes))
            == Obj(map k | k in fields.Keys + changes.Keys && (k in changes ==> !changes[k].Null?) ::
                     if k in changes then Merge(if k in fields then fields[k] else Null, changes[k]) else fields[k])
  {
  }

  lemma MergeStatus(rest: map<string, Json>, status: Option<Status>, changes: map<string, Json>)
    ensures Merge(EncodeRouter(rest, status), Obj(map["status" := Obj(changes)]))
            == Obj(rest["status" := Merge(if status.Some? then Obj(StatusFields(status.value)) else Null, Obj(changes))])
  {
    hide StatusFields, Merge;
    var fields := EncodeRouter(rest, status).fields;
    MergeOne(fields, "status", Obj(changes));
    var v := Merge(if status.Some? then Obj(StatusFields(status.value)) else Null, Obj(changes));
    assert fields["status" := v] == rest["status" := v];
  }

  lemma DefaultedStatus(rest: map<string, Json>, fields: map<string, Json>)
    ensures Defaulted(Obj(rest["status" := Obj(fields)])) == Obj(rest["status" := Obj(DEFAULT_FIELDS + fields)])
  {
    hide DEFAULT_FIELDS;
    var doc := Obj(rest["status" := Obj(fields)]);
    assert rest["status" := Obj(fields)]["status" := Obj(DEFAULT_FIELDS + fields)] == rest["status" := Obj(DEFAULT_FIELDS + fields)];
  }

  function BaseFields(status: Option<Status>): map<string, Json> {
    if status.Some? then StatusFields(status.value) else map[]
  }

  lemma MergeFields(status: Option<Status>, changes: map<string, Json>)
    ensures Merge(if status.Some? then Obj(StatusFields(status.value)) else Null, Obj(changes))
            == Merge(Obj(BaseFields(status)), Obj(changes))
  {
    hide StatusFields;
  }

  lemma ConditionsField(status: Option<Status>, cs: RouterConditions)
    requires cs.Some?
    ensures DEFAULT_FIELDS + BaseFields(status)["conditions" := EncodeConditions(cs)]
            == StatusFields(PublishConditions(status, cs))
  {
    hide ConditionsFieldOf, RequiredFields, DEFAULT_FIELDS, REQUIRED, EncodeConditions;
    var st := status.GetOr(DEFAULT_STATUS);
    RequiredKeys(st.initialized, st.online, st.innerNeighbors, st.outerNeighbors);
    RequiredDefaults();
    ConditionsPresent(cs);
    assert DEFAULT_FIELDS + BaseFields(status)["conditions" := EncodeConditions(cs)]
        == WithField(RequiredFields(st.initialized, st.online, st.innerNeighbors, st.outerNeighbors),
                     "innerFace", FaceField(st.innerFace))["conditions" := EncodeConditions(cs)];
  }

  lemma ConditionsPresent(cs: RouterConditions)
    ensures cs.Some? ==> ConditionsFieldOf(cs) == Some(EncodeConditions(cs))
    ensures cs.None? ==> ConditionsFieldOf(cs) == None
  {
  }

  /** The controller's merge patch: never refused, and it creates the status if there is none. */
  lemma ConditionsMeans(rest: map<string, Json>, status: Option<Status>, cs: RouterConditions)
    requires cs.Some?
    ensures Defaulted(Merge(EncodeRouter(rest, status), ConditionsPatch(cs)))
            == EncodeRouter(rest, Some(PublishConditions(status, cs)))
  {
    hide EncodeUris, StatusFields, Defaulted, PublishConditions, BaseFields, DEFAULT_FIELDS;
    var x := EncodeConditions(cs);
    var changes := map["conditions" := x];
    MergeStatus(rest, status, changes);
    MergeFields(status, changes);
    MergeOne(BaseFields(status), "conditions", x);
    DefaultedStatus(rest, BaseFields(status)["conditions" := x]);
    ConditionsField(status, cs);
  }

  function InitFields(fields: map<string, Json>, face: Option<Uri>): map<string, Json> {
    (if face.Some? then fields["innerFace" := Str(face.value.text)] else fields - {"innerFace"})["initialized" := Bool(true)]
  }

  lemma InitMerge(fields: map<string, Json>, face: Option<Uri>)
    ensures Merge(Obj(fields), Obj(map["innerFace" := if face.Some? then Str(face.value.text) else Null, "initialized" := Bool(true)]))
            == Obj(InitFields(fields, face))
  {
    assert |"innerFace"| == 9 && |"initialized"| == 11;
    var changes := map["innerFace" := if face.Some? then Str(face.value.text) else Null, "initialized" := Bool(true)];
    var a, b := Merge(Obj(fields), Obj(changes)).fields, InitFields(fields, face);
    forall k ensures k in a <==> k in b { }
    forall k | k in a ensures a[k] == b[k] {
      if k in changes {
        assert a[k] == Merge(if k in fields then fields[k] else Null, changes[k]);
      }
    }
  }

  lemma InitShape(required: map<string, Json>, was: Option<Json>, now: Option<Json>, other: Option<Json>,
                  kf: string, kc: string, ki: string, v: Json)
    requires kf != kc && kf != ki && kc != ki && kf !in required && kc !in required
    ensures var fields := WithField(WithField(required, kf, was), kc, other);
            (if now.Some? then fields[kf := now.value] else fields - {kf})[ki := v]
            == WithField(WithField(required[ki := v], kf, now), kc, other)
  {
  }

  lemma InitField(status: Option<Status>, face: Option<Uri>)
    ensures DEFAULT_FIELDS + InitFields(BaseFields(status), face) == StatusFields(Initialize(status, face))
  {
    hide RequiredFields, DEFAULT_FIELDS, REQUIRED, ConditionsFieldOf, WithField;
    assert |"initialized"| == 11 && |"innerFace"| == 9 && |"conditions"| == 10;
    var st := status.GetOr(DEFAULT_STATUS);
    RequiredKeys(st.initialized, st.online, st.innerNeighbors, st.outerNeighbors);
    RequiredDefaults();
    RequiredUpdates(st.initialized, st.online, st.innerNeighbors, st.outerNeighbors);
    InitShape(RequiredFields(st.initialized, st.online, st.innerNeighbors, st.outerNeighbors),
              FaceField(st.innerFace), FaceField(face), ConditionsFieldOf(st.conditions),
              "innerFace", "conditions", "initialized", Bool(true));
    assert InitFields(StatusFields(st), face) == StatusFields(Initialize(status, face));
    if status.Some? {
      StoredFields(Initialize(status, face));
    } else {
      NewFields(face);
    }
  }

  /** A status has every field that has a default. */
  lemma StoredFields(st: Status)
    ensures DEFAULT_FIELDS + StatusFields(st) == StatusFields(st)
  {
    hide RequiredFields, DEFAULT_FIELDS, REQUIRED, FaceField, ConditionsFieldOf;
    RequiredKeys(st.initialized, st.online, st.innerNeighbors, st.outerNeighbors);
  }

  lemma NewFields(face: Option<Uri>)
    ensures DEFAULT_FIELDS + InitFields(map[], face) == InitFields(StatusFields(DEFAULT_STATUS), face)
  {
    hide RequiredFields, DEFAULT_FIELDS, REQUIRED;
    RequiredKeys(false, false, map[], map[]);
    RequiredDefaults();
    ConditionsPresent(None);
    assert StatusFields(DEFAULT_STATUS) == DEFAULT_FIELDS;
    if face.None? {
      assert DEFAULT_FIELDS - {"innerFace"} == DEFAULT_FIELDS;
    }
  }

  /** The init container's merge patch: a null face removes the field, the rest of the status stays. */
  lemma InitMeans(rest: map<string, Json>, status: Option<Status>, face: Option<Uri>)
    ensures Defaulted(Merge(EncodeRouter(rest, status), InitPatch(face)))
            == EncodeRouter(rest, Some(Initialize(status, face)))
  {
    hide EncodeUris, StatusFields, Defaulted, Initialize, BaseFields, DEFAULT_FIELDS, InitFields;
    var changes := map["innerFace" := if face.Some? then Str(face.value.text) else Null, "initialized" := Bool(true)];
    MergeStatus(rest, status, changes);
    MergeFields(status, changes);
    InitMerge(BaseFields(status), face);
    DefaultedStatus(rest, InitFields(BaseFields(status), face));
    InitField(status, face);
  }

  /** What is stored has its defaults already. */
  lemma StoredIsDefaulted(rest: map<string, Json>, status: Option<Status>)
    ensures Defaulted(EncodeRouter(rest, status)) == EncodeRouter(rest, status)
  {
    if status.Some? {
      hide StatusFields, Defaulted;
      StoredFields(status.value);
      DefaultedStatus(rest, StatusFields(status.value));
    }
  }

  // ---------------------------------------------------------------------------------------
  // Where the document has what
  // ---------------------------------------------------------------------------------------

  /** The member of a stored router's status. */
  function StatusMember(rest: map<string, Json>, st: Status, key: string): Option<Json> {
    At(EncodeRouter(rest, Some(st)), ["status", key])
  }

  /** A stored router's document, member by member of the CRD's status. */
  lemma RouterPaths(rest: map<string, Json>, st: Status)
    ensures StatusMember(rest, st, "initialized") == Some(Bool(st.initialized))
    ensures StatusMember(rest, st, "online") == Some(Bool(st.online))
    ensures StatusMember(rest, st, "innerFace") == if st.innerFace.Some? then Some(Str(st.innerFace.value.text)) else None
    ensures StatusMember(rest, st, "innerNeighbors") == Some(EncodeUris(st.innerNeighbors))
    ensures StatusMember(rest, st, "outerNeighbors") == Some(EncodeUris(st.outerNeighbors))
    ensures StatusMember(rest, st, "conditions") == if st.conditions.Some? then Some(EncodeConditions(st.conditions)) else None
    ensures At(EncodeRouter(rest, None), ["status"]).None?
  {
    hide EncodeUris, EncodeConditions, StatusFields;
    PathOfOne(rest - {"status"}, "status");
    var doc := rest["status" := Obj(StatusFields(st))];
    forall key: string ensures StatusMember(rest, st, key) == if key in StatusFields(st) then Some(StatusFields(st)[key]) else None {
      PathOfTwo(doc, "status", key);
      PathOfOne(StatusFields(st), key);
    }
    StatusKeys(st);
  }

  lemma StatusKeys(st: Status)
    ensures var fields := StatusFields(st);
            && "initialized" in fields && fields["initialized"] == Bool(st.initialized)
            && "online" in fields && fields["online"] == Bool(st.online)
            && "innerNeighbors" in fields && fields["innerNeighbors"] == EncodeUris(st.innerNeighbors)
            && "outerNeighbors" in fields && fields["outerNeighbors"] == EncodeUris(st.outerNeighbors)
            && ("innerFace" in fields <==> st.innerFace.Some?) && (st.innerFace.Some? ==> fields["innerFace"] == Str(st.innerFace.value.text))
            && ("conditions" in fields <==> st.conditions.Some?)
            && (st.conditions.Some? ==> fields["conditions"] == EncodeConditions(st.conditions))
  {
    hide EncodeUris, EncodeConditions;
    assert "initialized"[2] == 'i' && "innerNeighbors"[2] == 'n' && "innerFace"[2] == 'n' && "online"[0] == 'o' && "outerNeighbors"[1] == 'u';
    assert "innerNeighbors"[5] == 'N' && "innerFace"[5] == 'F' && "conditions"[0] == 'c';
  }

  /** The condition in the document whose type is `name` says `b`. */
  predicate DocumentSays(list: Json, name: string, b: bool) {
    list.Arr? && exists k :: 0 <= k < |list.items| && At(list.items[k], ["type"]) == Some(Str(name))
                             && At(list.items[k], ["status"]) == Some(Str(if b then "True" else "False"))
  }

  lemma ConditionSays(c: Condition<RouterCondition>)
    ensures At(EncodeCondition(c), ["type"]) == Some(Str(ConditionName(c.type_)))
    ensures At(EncodeCondition(c), ["status"]) == Some(Str(c.status))
  {
    var fields := EncodeCondition(c).fields;
    assert "type" != "status" && "type" != "reason" && "type" != "message" && "status" != "reason" && "status" != "message";
    PathOfOne(fields, "type");
    PathOfOne(fields, "status");
  }

  /** The conditions that a pass publishes, as a reader of the document finds them. */
  lemma ConditionsInDocument(st: Status, generation: int, now: Time, syncedAt: Option<Time>)
    ensures var list := EncodeConditions(PassConditions(st, generation, now, syncedAt));
            && DocumentSays(list, "Initialized", st.initialized)
            && DocumentSays(list, "Online", st.online)
            && DocumentSays(list, "FaceReady", st.innerFace.Some?)
            && DocumentSays(list, "NeighborsSynced", syncedAt.Some?)
            && DocumentSays(list, "Ready", st.initialized && st.online && st.innerFace.Some?)
  {
    hide EncodeConditions, DocumentSays, InitializedEntry, OnlineEntry, FaceEntry, SyncedEntry, ReadyEntry;
    var cs := PassConditions(st, generation, now, syncedAt).value;
    EntryTexts(st, generation, now);
    if syncedAt.Some? { EntryTexts(st, generation, syncedAt.value); }
    SaysInList(cs, 0, "Initialized", st.initialized);
    SaysInList(cs, 1, "Online", st.online);
    SaysInList(cs, 2, "FaceReady", st.innerFace.Some?);
    SaysInList(cs, 3, "NeighborsSynced", syncedAt.Some?);
    SaysInList(cs, 4, "Ready", IsReady(st));
  }

  predicate EntrySays(c: Condition<RouterCondition>, name: string, b: bool) {
    ConditionName(c.type_) == name && c.status == if b then "True" else "False"
  }

  lemma EntryTexts(st: Status, generation: int, now: Time)
    ensures EntrySays(InitializedEntry(st, generation, now), "Initialized", st.initialized)
    ensures EntrySays(OnlineEntry(st, generation, now), "Online", st.online)
    ensures EntrySays(FaceEntry(st, generation, now), "FaceReady", st.innerFace.Some?)
    ensures EntrySays(SyncedEntry(true, generation, now), "NeighborsSynced", true)
    ensures EntrySays(SyncedEntry(false, generation, now), "NeighborsSynced", false)
    ensures EntrySays(ReadyEntry(st, generation, now), "Ready", IsReady(st))
  {
    hide JoinComma, Missing;
  }

  lemma SaysInList(cs: seq<Condition<RouterCondition>>, k: nat, name: string, b: bool)
    requires k < |cs| && EntrySays(cs[k], name, b)
    ensures DocumentSays(EncodeConditions(Some(cs)), name, b)
  {
    hide EncodeCondition;
    ConditionSays(cs[k]);
    assert EncodeConditions(Some(cs)).items[k] == EncodeCondition(cs[k]);
  }

  // ---------------------------------------------------------------------------------------
  // The face that the init container publishes
  // ---------------------------------------------------------------------------------------

  datatype IpFamily = IPv4 | IPv6

  function Udp4(ip: string, port: nat): string {
    "udp://" + ip + ":" + Decimal(port)
  }

  function Udp6(ip: string, port: nat): string {
    "udp://[" + ip + "]:" + Decimal(port)
  }

  /** What a face connects to. */
  datatype Endpoint = Endpoint(family: IpFamily, host: string, port: nat)

  /** Reads a face back: the address, in brackets for IPv6, and the port. */
  function ReadFace(text: string): Option<Endpoint> {
    if |text| < 6 || text[..6] != "udp://" then None
    else if text[6..] != [] && text[6] == '[' then
      match SplitOnce(text[7..], ']')
      case None => None
      case Some((host, tail)) => if tail != [] && tail[0] == ':' then ReadPort(IPv6, host, tail[1..]) else None
    else
      match SplitOnce(text[6..], ':')
      case None => None
      case Some((host, tail)) => ReadPort(IPv4, host, tail)
  }

  function ReadPort(family: IpFamily, host: string, digits: string): Option<Endpoint> {
    match ParseIndex(digits)
    case None => None
    case Some(port) => Some(Endpoint(family, host, port))
  }

  /** What every address of the family looks like, as far as it matters. */
  predicate PlainHost(family: IpFamily, ip: string) {
    match family
    case IPv4 => ':' !in ip && (ip == [] || ip[0] != '[')
    case IPv6 => ']' !in ip
  }

  lemma Udp4ReadsBack(ip: string, port: nat)
    ensures ReadFace(Udp4(ip, port)) == Some(Endpoint(IPv4, ip, port)) <==> PlainHost(IPv4, ip)
  {
    hide Decimal, ParseIndex;
    var text := Udp4(ip, port);
    var rest := ip + [':'] + Decimal(port);
    assert text == "udp://" + rest;
    assert text[..6] == "udp://" && text[6..] == rest;
    IndexRoundTrip(port);
    if ':' !in ip { SplitOnceOf(ip, ':', Decimal(port)); }
  }

  lemma Udp6Parts(ip: string, digits: string)
    ensures var text := "udp://[" + ip + "]:" + digits;
            |text| > 6 && text[..6] == "udp://" && text[6] == '[' && text[7..] == ip + [']'] + ([':'] + digits)
  {
    assert "udp://[" == "udp://" + "[" && "]:" == "]" + ":";
  }

  lemma Udp6ReadsBack(ip: string, port: nat)
    ensures ReadFace(Udp6(ip, port)) == Some(Endpoint(IPv6, ip, port)) <==> PlainHost(IPv6, ip)
  {
    hide Decimal, ParseIndex;
    Udp6Parts(ip, Decimal(port));
    IndexRoundTrip(port);
    var tail := [':'] + Decimal(port);
    assert tail[1..] == Decimal(port);
    if ']' !in ip { SplitOnceOf(ip, ']', tail); }
  }

  /** Faces of different addresses, families or ports are different. */
  lemma FacesDiffer(a: Endpoint, b: Endpoint)
    requires PlainHost(a.family, a.host) && PlainHost(b.family, b.host) && FaceText(a) == FaceText(b)
    ensures a == b
  {
    hide Udp4, Udp6, ReadFace, PlainHost;
    Udp4ReadsBack(a.host, a.port);
    Udp6ReadsBack(a.host, a.port);
    Udp4ReadsBack(b.host, b.port);
    Udp6ReadsBack(b.host, b.port);
  }

  function FaceText(e: Endpoint): string {
    if e.family.IPv4? then Udp4(e.host, e.port) else Udp6(e.host, e.port)
  }

  /** The one face to publish, as src/bin/pod_init.rs chooses it: it reads back as the address chosen, its family
      and the port. */
  method ChooseFace(preferred: IpFamily, ip4: Option<string>, ip6: Option<string>, port: nat) returns (face: Option<Uri>)
    ensures face.None? <==> ip4.None? && ip6.None?
    ensures ip4.Some? && (preferred.IPv4? || ip6.None?) ==> face == Some(Uri(Udp4(ip4.value, port)))
    ensures ip6.Some? && (preferred.IPv6? || ip4.None?) ==> face == Some(Uri(Udp6(ip6.value, port)))
    ensures ip4.Some? && (preferred.IPv4? || ip6.None?) && PlainHost(IPv4, ip4.value)
            ==> ReadFace(face.value.text) == Some(Endpoint(IPv4, ip4.value, port))
    ensures ip6.Some? && (preferred.IPv6? || ip4.None?) && PlainHost(IPv6, ip6.value)
            ==> ReadFace(face.value.text) == Some(Endpoint(IPv6, ip6.value, port))
  {
    hide Udp4, Udp6, ReadFace, PlainHost;
    if ip4.Some? { Udp4ReadsBack(ip4.value, port); }
    if ip6.Some? { Udp6ReadsBack(ip6.value, port); }
    var udp4: Option<string> := None;
    var udp6: Option<string> := None;
    match preferred {
      case IPv4 =>
        if ip4.Some? {
          udp4 := Some(Udp4(ip4.value, port));
        } else if ip6.Some? {
          udp6 := Some(Udp6(ip6.value, port));
        }
      case IPv6 =>
        if ip6.Some? {
          udp6 := Some(Udp6(ip6.value, port));
        } else if ip4.Some? {
          udp4 := Some(Udp4(ip4.value, port));
        }
    }
    match (udp4, udp6) {
      case (Some(f), None) => face := Some(Uri(f));
      case (None, Some(f)) => face := Some(Uri(f));
      case _ => face := None;
    }
  }
}
