/** The pod injector of src/bin/injector.rs: the patch it builds from upserted lists, and the direct
    rewrite of the pod that the patch has to amount to. */
module Injector {
  import opened Wrappers
  import opened JsonPatch

  /** A volume, a volume mount or an environment variable: its name and its other members. */
  datatype Item = Item(name: string, rest: map<string, Json>)

  datatype Container = Container(
    name: string,
    volumeMounts: Option<seq<Item>>,
    env: Option<seq<Item>>,
    rest: map<string, Json>)

  datatype PodSpec = PodSpec(volumes: Option<seq<Item>>, containers: seq<Container>, rest: map<string, Json>)

  datatype Pod = Pod(spec: Option<PodSpec>, rest: map<string, Json>)

  datatype Network = Network(prefix: string, hostSocketPath: string)

  datatype ResolvedCertificate = ResolvedCertificate(keySecret: Option<string>, certSecret: string)

  datatype CredentialMounts = CredentialMounts(
    container: string,
    signing: Option<ResolvedCertificate>,
    trustAnchors: seq<string>,
    certificateChain: seq<string>)

  datatype InjectError = NoSpec | NoTarget(container: string) | NoKeySecret

  // ---------------------------------------------------------------------------------------
  // What is injected
  // ---------------------------------------------------------------------------------------

  const VOLUME_NAME := "run-ndnd"
  const MOUNT_PATH := "/run/ndnd.sock"
  const SIGNING_VOLUME_NAME := "ndn-app-signing"
  const TRUST_ANCHORS_VOLUME_NAME := "ndn-app-trust-anchors"
  const CERTIFICATE_CHAIN_VOLUME_NAME := "ndn-app-certificate-chain"
  const SIGNING_MOUNT_PATH := "/etc/ndn/app/signing"
  const TRUST_ANCHORS_MOUNT_PATH := "/etc/ndn/app/trust-anchors"
  const CERTIFICATE_CHAIN_MOUNT_PATH := "/etc/ndn/app/certificate-chain"
  const SIGNING_KEY_FILE := "/etc/ndn/app/signing/ndn.key"
  const SIGNING_CERT_FILE := "/etc/ndn/app/signing/ndn.cert"
  const READ_ONLY_MODE := 292

  function SocketVolume(network: Network): Item {
    Item(VOLUME_NAME, map["hostPath" := Obj(map["path" := Str(network.hostSocketPath), "type" := Str("Socket")])])
  }

  function SecretProjection(secret: string, key: string, path: string): Json {
    Obj(map["secret" := Obj(map["name" := Str(secret),
                                "items" := Arr([Obj(map["key" := Str(key), "path" := Str(path)])]),
                                "optional" := Bool(false)])])
  }

  function ProjectedVolume(name: string, sources: seq<Json>): Item {
    Item(name, map["projected" := Obj(map["defaultMode" := Num(READ_ONLY_MODE), "sources" := Arr(sources)])])
  }

  function SigningVolume(keySecret: string, certSecret: string): Item {
    ProjectedVolume(SIGNING_VOLUME_NAME,
                    [SecretProjection(keySecret, "ndn.key", "ndn.key"), SecretProjection(certSecret, "ndn.cert", "ndn.cert")])
  }

  function BundleFile(prefix: string, index: nat): string {
    prefix + "-" + Decimal(index) + ".cert"
  }

  function BundleVolume(name: string, prefix: string, secrets: seq<string>): Item {
    ProjectedVolume(name, seq(|secrets|, i requires 0 <= i < |secrets| =>
                            SecretProjection(secrets[i], "ndn.cert", BundleFile(prefix, i))))
  }

  function Mount(name: string, path: string): Item {
    Item(name, map["mountPath" := Str(path)])
  }

  function CredentialMount(name: string, path: string): Item {
    Item(name, map["mountPath" := Str(path), "readOnly" := Bool(true)])
  }

  function EnvVar(name: string, value: string): Item {
    Item(name, map["value" := Str(value)])
  }

  /** A signing credential without a private key Secret. */
  predicate KeyMissing(credentials: Option<CredentialMounts>) {
    credentials.Some? && credentials.value.signing.Some? && credentials.value.signing.value.keySecret.None?
  }

  /** The volumes wanted, in the order in which they are upserted. */
  function WantedVolumes(network: Network, credentials: Option<CredentialMounts>): seq<Item>
    requires !KeyMissing(credentials)
  {
    [SocketVolume(network)]
    + match credentials
      case None => []
      case Some(c) =>
        (if c.signing.Some? then [SigningVolume(c.signing.value.keySecret.value, c.signing.value.certSecret)] else [])
        + (if c.trustAnchors != [] then [BundleVolume(TRUST_ANCHORS_VOLUME_NAME, "anchor", c.trustAnchors)] else [])
        + (if c.certificateChain != [] then [BundleVolume(CERTIFICATE_CHAIN_VOLUME_NAME, "chain", c.certificateChain)] else [])
  }

  function WantedMounts(credentials: Option<CredentialMounts>): seq<Item> {
    [Mount(VOLUME_NAME, MOUNT_PATH)]
    + match credentials
      case None => []
      case Some(c) =>
        (if c.signing.Some? then [CredentialMount(SIGNING_VOLUME_NAME, SIGNING_MOUNT_PATH)] else [])
        + (if c.trustAnchors != [] then [CredentialMount(TRUST_ANCHORS_VOLUME_NAME, TRUST_ANCHORS_MOUNT_PATH)] else [])
        + (if c.certificateChain != [] then [CredentialMount(CERTIFICATE_CHAIN_VOLUME_NAME, CERTIFICATE_CHAIN_MOUNT_PATH)] else [])
  }

  function PlainEnv(network: Network): seq<Item> {
    [EnvVar("NDN_CLIENT_TRANSPORT", "unix://" + MOUNT_PATH), EnvVar("NDN_PREFIX", network.prefix)]
  }

  function SigningEnv(): seq<Item> {
    [EnvVar("NDN_APP_SIGNING_KEY_FILE", SIGNING_KEY_FILE), EnvVar("NDN_APP_SIGNING_CERT_FILE", SIGNING_CERT_FILE)]
  }

  function AnchorEnv(): seq<Item> {
    [EnvVar("NDN_APP_TRUST_ANCHOR_DIR", TRUST_ANCHORS_MOUNT_PATH)]
  }

  function ChainEnv(): seq<Item> {
    [EnvVar("NDN_APP_CERTIFICATE_CHAIN_DIR", CERTIFICATE_CHAIN_MOUNT_PATH)]
  }

  function WantedEnv(network: Network, credentials: Option<CredentialMounts>): seq<Item> {
    match credentials
    case None => PlainEnv(network)
    case Some(c) =>
      PlainEnv(network)
      + (if c.signing.Some? then SigningEnv() else [])
      + (if c.trustAnchors != [] then AnchorEnv() else [])
      + (if c.certificateChain != [] then ChainEnv() else [])
  }

  // ---------------------------------------------------------------------------------------
  // Lists keyed by name
  // ---------------------------------------------------------------------------------------

  function Names(items: seq<Item>): set<string> {
    set i | 0 <= i < |items| :: items[i].name
  }

  lemma HasName(items: seq<Item>, i: nat)
    requires i < |items|
    ensures items[i].name in Names(items)
  {
  }

  lemma NameOfOne(item: Item)
    ensures Names([item]) == {item.name}
  {
    HasName([item], 0);
  }

  predicate Distinct(items: seq<Item>) {
    forall i, j :: 0 <= i < j < |items| ==> items[i].name != items[j].name
  }

  /** The entries whose name is not among `names`, in order. */
  function Without(items: seq<Item>, names: set<string>): (r: seq<Item>)
    ensures Names(r) == Names(items) - names
  {
    if items == [] then []
    else
      var front := Without(items[..|items| - 1], names);
      var last := items[|items| - 1];
      assert Names(items) == Names(items[..|items| - 1]) + {last.name};
      if last.name in names then front
      else
        NamesAppend(front, [last]);
        NameOfOne(last);
        front + [last]
  }

  /** The entries of one name, in order. */
  function Named(items: seq<Item>, name: string): seq<Item> {
    if items == [] then []
    else
      var front := Named(items[..|items| - 1], name);
      if items[|items| - 1].name == name then front + [items[|items| - 1]] else front
  }

  /** `upsert_volume`, `upsert_volume_mount`, `upsert_env`: one piece of code on three types. */
  function Upsert(items: seq<Item>, item: Item): seq<Item> {
    Without(items, {item.name}) + [item]
  }

  function UpsertAll(items: seq<Item>, wanted: seq<Item>): seq<Item> {
    if wanted == [] then items else Upsert(UpsertAll(items, wanted[..|wanted| - 1]), wanted[|wanted| - 1])
  }

  lemma {:induction false} WithoutAppend(a: seq<Item>, b: seq<Item>, names: set<string>)
    ensures Without(a + b, names) == Without(a, names) + Without(b, names)
    decreases |b|
  {
    if b == [] {
      assert a + b == a;
    } else {
      assert (a + b)[..|a + b| - 1] == a + b[..|b| - 1];
      WithoutAppend(a, b[..|b| - 1], names);
    }
  }

  lemma {:induction false} WithoutTwice(items: seq<Item>, m: set<string>, n: set<string>)
    ensures Without(Without(items, m), n) == Without(items, m + n)
  {
    if items != [] {
      var front := items[..|items| - 1];
      WithoutTwice(front, m, n);
      WithoutAppend(Without(front, m), [items[|items| - 1]], n);
      assert [items[|items| - 1]][..0] == [];
    }
  }

  lemma {:induction false} WithoutNone(items: seq<Item>, names: set<string>)
    requires Names(items) !! names
    ensures Without(items, names) == items
  {
    if items != [] {
      var front := items[..|items| - 1];
      assert items[|items| - 1].name in Names(items);
      assert forall i :: 0 <= i < |front| ==> front[i] == items[i];
      WithoutNone(front, names);
    }
  }

  lemma {:induction false} WithoutAll(items: seq<Item>, names: set<string>)
    requires Names(items) <= names
    ensures Without(items, names) == []
  {
    var left := Without(items, names);
    if left != [] {
      HasName(left, 0);
    }
  }

  lemma NamesAppend(a: seq<Item>, b: seq<Item>)
    ensures Names(a + b) == Names(a) + Names(b)
  {
    forall n | n in Names(a) + Names(b) ensures n in Names(a + b) {
      if n in Names(a) {
        var i :| 0 <= i < |a| && a[i].name == n;
        assert (a + b)[i].name == n;
      } else {
        var i :| 0 <= i < |b| && b[i].name == n;
        assert (a + b)[|a| + i].name == n;
      }
    }
  }

  lemma UpsertOne(items: seq<Item>, front: seq<Item>, last: Item)
    requires last.name !in Names(front)
    ensures Upsert(Without(items, Names(front)) + front, last)
            == Without(items, Names(front + [last])) + (front + [last])
  {
    hide Without, Names;
    var kept := Without(items, Names(front));
    NamesAppend(front, [last]);
    NameOfOne(last);
    WithoutAppend(kept, front, {last.name});
    WithoutTwice(items, Names(front), {last.name});
    WithoutNone(front, {last.name});
    assert Upsert(kept + front, last) == (Without(kept, {last.name}) + front) + [last];
  }

  /** Upserting distinct names one by one keeps every other entry in its order and puts the new ones
      behind them, in theirs. */
  lemma {:induction false} UpsertAllIs(items: seq<Item>, wanted: seq<Item>)
    requires Distinct(wanted)
    ensures UpsertAll(items, wanted) == Without(items, Names(wanted)) + wanted
  {
    hide Without;
    if wanted == [] {
      assert Names(wanted) == {};
      WithoutNone(items, {});
    } else {
      var front := wanted[..|wanted| - 1];
      assert wanted == front + [wanted[|wanted| - 1]];
      UpsertAllIs(items, front);
      UpsertOne(items, front, wanted[|wanted| - 1]);
    }
  }

  function Replaced(items: Option<seq<Item>>, wanted: seq<Item>): seq<Item> {
    Without(items.GetOr([]), Names(wanted)) + wanted
  }

  lemma ReplacedTwice(items: Option<seq<Item>>, wanted: seq<Item>)
    ensures Replaced(Some(Replaced(items, wanted)), wanted) == Replaced(items, wanted)
  {
    var kept := Without(items.GetOr([]), Names(wanted));
    WithoutAppend(kept, wanted, Names(wanted));
    WithoutNone(kept, Names(wanted));
    WithoutAll(wanted, Names(wanted));
  }

  // ---------------------------------------------------------------------------------------
  // The direct rewrite
  // ---------------------------------------------------------------------------------------

  /** Index of the first container with the name. */
  function FirstNamed(containers: seq<Container>, name: string): (r: Option<nat>)
    ensures r.Some? ==> r.value < |containers| && containers[r.value].name == name
                        && forall j :: 0 <= j < r.value ==> containers[j].name != name
    ensures r.None? ==> forall j :: 0 <= j < |containers| ==> containers[j].name != name
  {
    if containers == [] then None
    else if containers[0].name == name then Some(0)
    else match FirstNamed(containers[1..], name) case None => None case Some(i) => Some(i + 1)
  }

  /** The credentials that concern container `i`. */
  function CredentialsFor(containers: seq<Container>, i: nat, credentials: Option<CredentialMounts>): Option<CredentialMounts> {
    if credentials.Some? && FirstNamed(containers, credentials.value.container) == Some(i) then credentials else None
  }

  function InjectContainer(c: Container, network: Network, credentials: Option<CredentialMounts>): Container {
    c.(volumeMounts := Some(Replaced(c.volumeMounts, WantedMounts(credentials))),
       env := Some(Replaced(c.env, WantedEnv(network, credentials))))
  }

  function InjectContainers(containers: seq<Container>, count: nat, network: Network, credentials: Option<CredentialMounts>): (r: seq<Container>)
    requires count <= |containers|
    ensures |r| == |containers|
  {
    seq(|containers|, i requires 0 <= i < |containers| =>
      if i < count then InjectContainer(containers[i], network, CredentialsFor(containers, i, credentials)) else containers[i])
  }

  /** Whether a container of the pod has the name. */
  predicate HasContainer(pod: Pod, name: string)
    requires pod.spec.Some?
  {
    exists i :: 0 <= i < |pod.spec.value.containers| && pod.spec.value.containers[i].name == name
  }

  /** Why no patch is built. */
  function Refusal(pod: Pod, credentials: Option<CredentialMounts>): (r: Option<InjectError>)
    ensures r == Some(NoSpec) <==> pod.spec.None?
    ensures forall name :: r == Some(NoTarget(name)) <==>
              pod.spec.Some? && credentials.Some? && credentials.value.container == name && !HasContainer(pod, name)
    ensures r == Some(NoKeySecret) <==>
              && pod.spec.Some? && credentials.Some? && HasContainer(pod, credentials.value.container)
              && credentials.value.signing.Some? && credentials.value.signing.value.keySecret.None?
  {
    if pod.spec.None? then Some(NoSpec)
    else if credentials.None? then None
    else if FirstNamed(pod.spec.value.containers, credentials.value.container).None? then Some(NoTarget(credentials.value.container))
    else if KeyMissing(credentials) then Some(NoKeySecret)
    else None
  }

  /** The pod with its volumes and its first `count` containers rewritten. */
  function Partly(pod: Pod, count: nat, network: Network, credentials: Option<CredentialMounts>): Pod
    requires Refusal(pod, credentials).None? && count <= |pod.spec.value.containers|
  {
    var spec := pod.spec.value;
    pod.(spec := Some(spec.(volumes := Some(Replaced(spec.volumes, WantedVolumes(network, credentials))),
                            containers := InjectContainers(spec.containers, count, network, credentials))))
  }

  function Inject(pod: Pod, network: Network, credentials: Option<CredentialMounts>): Pod
    requires Refusal(pod, credentials).None?
  {
    Partly(pod, |pod.spec.value.containers|, network, credentials)
  }

  // ---------------------------------------------------------------------------------------
  // JSON form
  // ---------------------------------------------------------------------------------------

  function EncodeItem(item: Item): Json {
    Obj(item.rest["name" := Str(item.name)])
  }

  function EncodeItems(items: seq<Item>): Json {
    Arr(seq(|items|, i requires 0 <= i < |items| => EncodeItem(items[i])))
  }

  /** An absent list is not written. */
  function WithList(fields: map<string, Json>, key: string, items: Option<seq<Item>>): map<string, Json> {
    match items
    case None => fields - {key}
    case Some(l) => fields[key := EncodeItems(l)]
  }

  function EncodeContainer(c: Container): Json {
    Obj(WithList(WithList(c.rest["name" := Str(c.name)], "volumeMounts", c.volumeMounts), "env", c.env))
  }

  function EncodeContainers(cs: seq<Container>): Json {
    Arr(seq(|cs|, i requires 0 <= i < |cs| => EncodeContainer(cs[i])))
  }

  function EncodeSpec(spec: PodSpec): Json {
    Obj(WithList(spec.rest["containers" := EncodeContainers(spec.containers)], "volumes", spec.volumes))
  }

  function EncodePod(pod: Pod): Json {
    match pod.spec
    case None => Obj(pod.rest - {"spec"})
    case Some(spec) => Obj(pod.rest["spec" := EncodeSpec(spec)])
  }

  lemma EditPod(pod: Pod, path: seq<string>, edit: Edit, spec: PodSpec)
    requires pod.spec.Some? && |path| > 1 && path[0] == "spec"
    requires EditAt(EncodeSpec(pod.spec.value), path[1..], edit) == Ok(EncodeSpec(spec))
    ensures EditAt(EncodePod(pod), path, edit) == Ok(EncodePod(pod.(spec := Some(spec))))
  {
    hide EncodeSpec;
    var was := EncodeSpec(pod.spec.value);
    assert pod.rest["spec" := was]["spec" := EncodeSpec(spec)] == pod.rest["spec" := EncodeSpec(spec)];
  }

  lemma AddVolumes(pod: Pod, items: seq<Item>)
    requires pod.spec.Some?
    ensures EditAt(EncodePod(pod), ["spec", "volumes"], AddValue(EncodeItems(items)))
            == Ok(EncodePod(pod.(spec := Some(pod.spec.value.(volumes := Some(items))))))
  {
    var spec := pod.spec.value;
    var base := spec.rest["containers" := EncodeContainers(spec.containers)];
    assert ["spec", "volumes"][1..] == ["volumes"];
    assert WithList(base, "volumes", spec.volumes)["volumes" := EncodeItems(items)] == WithList(base, "volumes", Some(items));
    EditPod(pod, ["spec", "volumes"], AddValue(EncodeItems(items)), spec.(volumes := Some(items)));
  }

  lemma AddInContainer(pod: Pod, i: nat, key: string, v: Json, c: Container)
    requires pod.spec.Some? && i < |pod.spec.value.containers|
    requires EditChild(EncodeContainer(pod.spec.value.containers[i]), key, AddValue(v)) == Ok(EncodeContainer(c))
    ensures EditAt(EncodePod(pod), ["spec", "containers", Decimal(i), key], AddValue(v))
            == Ok(EncodePod(pod.(spec := Some(pod.spec.value.(containers := pod.spec.value.containers[i := c])))))
  {
    hide EncodeContainer, EncodeItems, Decimal;
    var spec := pod.spec.value;
    var path := ["spec", "containers", Decimal(i), key];
    IndexRoundTrip(i);
    assert path[1..] == ["containers", Decimal(i), key] && path[1..][1..] == [Decimal(i), key] && path[1..][1..][1..] == [key];
    var list := EncodeContainers(spec.containers);
    assert Child(list, Decimal(i)) == Some(EncodeContainer(spec.containers[i]));
    var edited := Arr(list.items[i := EncodeContainer(c)]);
    assert EditAt(list, path[1..][1..], AddValue(v)) == Ok(edited);
    assert edited == EncodeContainers(spec.containers[i := c]);
    EditSpec(spec, path[1..], AddValue(v), spec.containers[i := c]);
    EditPod(pod, path, AddValue(v), spec.(containers := spec.containers[i := c]));
  }

  lemma EditSpec(spec: PodSpec, path: seq<string>, edit: Edit, containers: seq<Container>)
    requires |path| > 1 && path[0] == "containers"
    requires EditAt(EncodeContainers(spec.containers), path[1..], edit) == Ok(EncodeContainers(containers))
    ensures EditAt(EncodeSpec(spec), path, edit) == Ok(EncodeSpec(spec.(containers := containers)))
  {
    hide EncodeContainers, EncodeItems;
    var was := EncodeContainers(spec.containers);
    var now := EncodeContainers(containers);
    assert "containers" != "volumes";
    assert WithList(spec.rest["containers" := was], "volumes", spec.volumes)["containers" := now]
        == WithList(spec.rest["containers" := now], "volumes", spec.volumes);
  }

  lemma AddMounts(c: Container, items: seq<Item>)
    ensures EditChild(EncodeContainer(c), "volumeMounts", AddValue(EncodeItems(items)))
            == Ok(EncodeContainer(c.(volumeMounts := Some(items))))
  {
    var base := c.rest["name" := Str(c.name)];
    assert "volumeMounts" != "env";
    assert WithList(WithList(base, "volumeMounts", c.volumeMounts), "env", c.env)["volumeMounts" := EncodeItems(items)]
        == WithList(WithList(base, "volumeMounts", Some(items)), "env", c.env);
  }

  lemma AddEnv(c: Container, items: seq<Item>)
    ensures EditChild(EncodeContainer(c), "env", AddValue(EncodeItems(items)))
            == Ok(EncodeContainer(c.(env := Some(items))))
  {
    var base := WithList(c.rest["name" := Str(c.name)], "volumeMounts", c.volumeMounts);
    assert WithList(base, "env", c.env)["env" := EncodeItems(items)] == WithList(base, "env", Some(items));
  }

  // ---------------------------------------------------------------------------------------
  // Building the patch
  // ---------------------------------------------------------------------------------------

  /** A vector of named entries that is changed in place. */
  class ItemList {
    var items: seq<Item>

    constructor (items: seq<Item>)
      ensures this.items == items
    {
      this.items := items;
    }

    method Retain(except: string)
      modifies this
      ensures items == Without(old(items), {except})
    {
      var kept: seq<Item> := [];
      var i := 0;
      while i < |items|
        invariant i <= |items|
        invariant items == old(items)
        invariant kept == Without(items[..i], {except})
      {
        assert items[..i + 1][..i] == items[..i];
        if items[i].name != except {
          kept := kept + [items[i]];
        }
        i := i + 1;
      }
      assert items[..i] == items;
      items := kept;
    }

    method Put(item: Item)
      modifies this
      ensures items == Upsert(old(items), item)
    {
      Retain(item.name);
      items := items + [item];
    }
  }

  lemma UpsertAllSnoc(items: seq<Item>, wanted: seq<Item>, item: Item)
    ensures Upsert(UpsertAll(items, wanted), item) == UpsertAll(items, wanted + [item])
  {
    assert (wanted + [item])[..|wanted|] == wanted;
  }

  lemma VolumesDistinct(network: Network, credentials: Option<CredentialMounts>)
    requires !KeyMissing(credentials)
    ensures Distinct(WantedVolumes(network, credentials))
  {
  }

  lemma MountsDistinct(credentials: Option<CredentialMounts>)
    ensures Distinct(WantedMounts(credentials))
  {
  }

  lemma DistinctWithout(a: seq<Item>, b: seq<Item>, c: seq<Item>)
    requires Distinct(a + b + c)
    ensures Distinct(a + c)
  {
    var all := a + b + c;
    assert forall i :: 0 <= i < |a + c| ==> (a + c)[i] == all[if i < |a| then i else i + |b|];
  }

  lemma AllEnvDistinct(network: Network)
    ensures Distinct(PlainEnv(network) + SigningEnv() + AnchorEnv() + ChainEnv())
  {
    assert "NDN_APP_SIGNING_KEY_FILE"[8] != "NDN_APP_TRUST_ANCHOR_DIR"[8];
  }

  lemma EnvDistinct(network: Network, credentials: Option<CredentialMounts>)
    ensures Distinct(WantedEnv(network, credentials))
  {
    hide PlainEnv, SigningEnv, AnchorEnv, ChainEnv, Distinct;
    var p, s, t, u := PlainEnv(network), SigningEnv(), AnchorEnv(), ChainEnv();
    var signing, anchors, chain :=
      credentials.Some? && credentials.value.signing.Some?,
      credentials.Some? && credentials.value.trustAnchors != [],
      credentials.Some? && credentials.value.certificateChain != [];
    AllEnvDistinct(network);
    var s1, t1, u1 := if signing then s else [], if anchors then t else [], if chain then u else [];
    assert p + s + t + u == p + s + (t + u) && p + s1 + (t + u) == (p + s1) + t + u;
    DistinctWithout(p, s, t + u);
    assert Distinct((p + s1) + t + u) by { assert p + [] + (t + u) == p + (t + u); }
    DistinctWithout(p + s1, t, u);
    assert Distinct((p + s1 + t1) + u) by { assert p + s1 + [] + u == (p + s1) + u; }
    assert (p + s1 + t1) + u + [] == (p + s1 + t1) + u && (p + s1 + t1) + [] == p + s1 + t1;
    DistinctWithout(p + s1 + t1, u, []);
    assert WantedEnv(network, credentials) == (p + s1 + t1) + u1;
  }

  /** The volumes that `build_patch` collects. */
  method CollectVolumes(volumes: Option<seq<Item>>, network: Network, credentials: Option<CredentialMounts>)
      returns (r: Result<seq<Item>, InjectError>)
    ensures r.Err? <==> KeyMissing(credentials)
    ensures r.Err? ==> r.error == NoKeySecret
    ensures r.Ok? ==> r.value == Replaced(volumes, WantedVolumes(network, credentials))
  {
    hide Upsert, UpsertAll, Without, SocketVolume, SigningVolume, BundleVolume, Distinct;
    ghost var base := volumes.GetOr([]);
    var list := new ItemList(volumes.GetOr([]));
    ghost var done: seq<Item> := [];
    UpsertAllNone(base);
    done := PutNext(list, base, done, SocketVolume(network));
    if credentials.Some? {
      var c := credentials.value;
      if c.signing.Some? {
        if c.signing.value.keySecret.None? {
          return Err(NoKeySecret);
        }
        done := PutNext(list, base, done, SigningVolume(c.signing.value.keySecret.value, c.signing.value.certSecret));
      }
      if c.trustAnchors != [] {
        done := PutNext(list, base, done, BundleVolume(TRUST_ANCHORS_VOLUME_NAME, "anchor", c.trustAnchors));
      }
      if c.certificateChain != [] {
        done := PutNext(list, base, done, BundleVolume(CERTIFICATE_CHAIN_VOLUME_NAME, "chain", c.certificateChain));
      }
    }
    assert done == WantedVolumes(network, credentials);
    VolumesDistinct(network, credentials);
    UpsertAllIs(base, done);
    return Ok(list.items);
  }

  /** One more `upsert`, with the ghost record of all of them. */
  method PutNext(list: ItemList, ghost base: seq<Item>, ghost done: seq<Item>, item: Item) returns (ghost now: seq<Item>)
    requires list.items == UpsertAll(base, done)
    modifies list
    ensures now == done + [item] && list.items == UpsertAll(base, now)
  {
    hide Upsert, UpsertAll;
    UpsertAllSnoc(base, done, item);
    list.Put(item);
    now := done + [item];
  }

  lemma UpsertAllNone(items: seq<Item>)
    ensures UpsertAll(items, []) == items
  {
  }

  /** The mounts that `build_patch` collects for one container. */
  method CollectMounts(c: Container, credentials: Option<CredentialMounts>) returns (mounts: seq<Item>)
    ensures mounts == Replaced(c.volumeMounts, WantedMounts(credentials))
  {
    hide Upsert, UpsertAll, Without, Mount, CredentialMount, Distinct;
    ghost var base := c.volumeMounts.GetOr([]);
    var list := new ItemList(c.volumeMounts.GetOr([]));
    UpsertAllNone(base);
    ghost var done := PutNext(list, base, [], Mount(VOLUME_NAME, MOUNT_PATH));
    if credentials.Some? {
      if credentials.value.signing.Some? {
        done := PutNext(list, base, done, CredentialMount(SIGNING_VOLUME_NAME, SIGNING_MOUNT_PATH));
      }
      if credentials.value.trustAnchors != [] {
        done := PutNext(list, base, done, CredentialMount(TRUST_ANCHORS_VOLUME_NAME, TRUST_ANCHORS_MOUNT_PATH));
      }
      if credentials.value.certificateChain != [] {
        done := PutNext(list, base, done, CredentialMount(CERTIFICATE_CHAIN_VOLUME_NAME, CERTIFICATE_CHAIN_MOUNT_PATH));
      }
    }
    assert done == WantedMounts(credentials);
    MountsDistinct(credentials);
    UpsertAllIs(base, done);
    return list.items;
  }

  /** The environment that `build_patch` collects for one container. */
  method CollectEnv(c: Container, network: Network, credentials: Option<CredentialMounts>) returns (env: seq<Item>)
    ensures env == Replaced(c.env, WantedEnv(network, credentials))
  {
    hide Upsert, UpsertAll, Without, EnvVar, Distinct;
    ghost var base := c.env.GetOr([]);
    var list := new ItemList(c.env.GetOr([]));
    UpsertAllNone(base);
    ghost var done := PutNext(list, base, [], EnvVar("NDN_CLIENT_TRANSPORT", "unix://" + MOUNT_PATH));
    done := PutNext(list, base, done, EnvVar("NDN_PREFIX", network.prefix));
    if credentials.Some? {
      if credentials.value.signing.Some? {
        done := PutNext(list, base, done, EnvVar("NDN_APP_SIGNING_KEY_FILE", SIGNING_KEY_FILE));
        done := PutNext(list, base, done, EnvVar("NDN_APP_SIGNING_CERT_FILE", SIGNING_CERT_FILE));
      }
      if credentials.value.trustAnchors != [] {
        done := PutNext(list, base, done, EnvVar("NDN_APP_TRUST_ANCHOR_DIR", TRUST_ANCHORS_MOUNT_PATH));
      }
      if credentials.value.certificateChain != [] {
        done := PutNext(list, base, done, EnvVar("NDN_APP_CERTIFICATE_CHAIN_DIR", CERTIFICATE_CHAIN_MOUNT_PATH));
      }
    }
    assert done == WantedEnv(network, credentials);
    EnvDistinct(network, credentials);
    UpsertAllIs(base, done);
    return list.items;
  }

  function AddOperation(path: seq<string>, items: seq<Item>): Operation {
    Operation(path, AddValue(EncodeItems(items)))
  }

  /** The two operations for container `i` take the partly rewritten pod one container further. */
  lemma ContainerStep(pod: Pod, i: nat, network: Network, credentials: Option<CredentialMounts>, mounts: seq<Item>, env: seq<Item>)
    requires Refusal(pod, credentials).None? && i < |pod.spec.value.containers|
    requires var c := pod.spec.value.containers[i];
             var mine := CredentialsFor(pod.spec.value.containers, i, credentials);
             mounts == Replaced(c.volumeMounts, WantedMounts(mine)) && env == Replaced(c.env, WantedEnv(network, mine))
    ensures ApplyPatch(EncodePod(Partly(pod, i, network, credentials)),
                       [AddOperation(["spec", "containers", Decimal(i), "volumeMounts"], mounts),
                        AddOperation(["spec", "containers", Decimal(i), "env"], env)])
            == Ok(EncodePod(Partly(pod, i + 1, network, credentials)))
  {
    hide EncodePod, EditAt, EditChild, EncodeContainer, Decimal, Replaced, WantedMounts, WantedEnv, WantedVolumes, CredentialsFor;
    var before := Partly(pod, i, network, credentials);
    var cs := before.spec.value.containers;
    var c := pod.spec.value.containers[i];
    var c1 := c.(volumeMounts := Some(mounts));
    var c2 := c1.(env := Some(env));
    assert cs[i] == c;
    AddMounts(c, mounts);
    AddInContainer(before, i, "volumeMounts", EncodeItems(mounts), c1);
    var mid := before.(spec := Some(before.spec.value.(containers := cs[i := c1])));
    AddEnv(c1, env);
    AddInContainer(mid, i, "env", EncodeItems(env), c2);
    assert cs[i := c1][i := c2] == Partly(pod, i + 1, network, credentials).spec.value.containers;
    TwoOperations(EncodePod(before), EncodePod(mid), EncodePod(Partly(pod, i + 1, network, credentials)),
                  AddOperation(["spec", "containers", Decimal(i), "volumeMounts"], mounts),
                  AddOperation(["spec", "containers", Decimal(i), "env"], env));
  }

  lemma TwoOperations(a: Json, b: Json, c: Json, first: Operation, second: Operation)
    requires EditAt(a, first.path, first.edit) == Ok(b) && EditAt(b, second.path, second.edit) == Ok(c)
    ensures ApplyPatch(a, [first, second]) == Ok(c)
  {
    OneOperation(a, b, first);
    OneOperation(b, c, second);
    ApplyAppend(a, [first], [second]);
    assert [first] + [second] == [first, second];
  }

  /** `build_patch`. Main result: under RFC 6902 the patch amounts to the direct rewrite. */
  method BuildPatch(pod: Pod, network: Network, credentials: Option<CredentialMounts>) returns (r: Result<Patch, InjectError>)
    ensures match Refusal(pod, credentials)
            case Some(e) => r == Err(e)
            case None => r.Ok? && ApplyPatch(EncodePod(pod), r.value) == Ok(EncodePod(Inject(pod, network, credentials)))
  {
    hide EncodePod, EditAt, EditChild, Decimal, Replaced, WantedMounts, WantedEnv, WantedVolumes, EncodeItems;
    if pod.spec.None? {
      return Err(NoSpec);
    }
    var spec := pod.spec.value;
    var target: Option<nat> := None;
    if credentials.Some? {
      target := FirstNamed(spec.containers, credentials.value.container);
      if target.None? {
        return Err(NoTarget(credentials.value.container));
      }
    }
    var volumes := CollectVolumes(spec.volumes, network, credentials);
    if volumes.Err? {
      return Err(volumes.error);
    }
    assert Refusal(pod, credentials).None?;
    var patches: Patch := [AddOperation(["spec", "volumes"], volumes.value)];
    AddVolumes(pod, volumes.value);
    assert InjectContainers(spec.containers, 0, network, credentials) == spec.containers;
    OneOperation(EncodePod(pod), EncodePod(Partly(pod, 0, network, credentials)), patches[0]);
    var i := 0;
    while i < |spec.containers|
      invariant i <= |spec.containers|
      invariant ApplyPatch(EncodePod(pod), patches) == Ok(EncodePod(Partly(pod, i, network, credentials)))
    {
      var mine := if target == Some(i) then credentials else None;
      var mounts := CollectMounts(spec.containers[i], mine);
      var env := CollectEnv(spec.containers[i], network, mine);
      ContainerStep(pod, i, network, credentials, mounts, env);
      var more := [AddOperation(["spec", "containers", Decimal(i), "volumeMounts"], mounts),
                   AddOperation(["spec", "containers", Decimal(i), "env"], env)];
      ApplyAppend(EncodePod(pod), patches, more);
      patches := patches + more;
      i := i + 1;
    }
    return Ok(patches);
  }

  lemma OneOperation(a: Json, b: Json, op: Operation)
    requires EditAt(a, op.path, op.edit) == Ok(b)
    ensures ApplyPatch(a, [op]) == Ok(b)
  {
    assert [op][1..] == [];
  }

  // ---------------------------------------------------------------------------------------
  // What the rewrite does to each list
  // ---------------------------------------------------------------------------------------

  lemma {:induction false} NamedAppend(a: seq<Item>, b: seq<Item>, name: string)
    ensures Named(a + b, name) == Named(a, name) + Named(b, name)
    decreases |b|
  {
    if b == [] {
      assert a + b == a;
    } else {
      assert (a + b)[..|a + b| - 1] == a + b[..|b| - 1];
      NamedAppend(a, b[..|b| - 1], name);
    }
  }

  lemma {:induction false} NamedWithout(items: seq<Item>, names: set<string>, name: string)
    ensures Named(Without(items, names), name) == if name in names then [] else Named(items, name)
  {
    if items != [] {
      var last := items[|items| - 1];
      NamedWithout(items[..|items| - 1], names, name);
      NamedAppend(Without(items[..|items| - 1], names), [last], name);
      assert Named([last], name) == if last.name == name then [last] else [] by {
        assert [last][..0] == [];
      }
    }
  }

  lemma {:induction false} NamedAbsent(items: seq<Item>, name: string)
    requires name !in Names(items)
    ensures Named(items, name) == []
  {
    if items != [] {
      HasName(items, |items| - 1);
      var front := items[..|items| - 1];
      NamesAppend(front, [items[|items| - 1]]);
      assert front + [items[|items| - 1]] == items;
      NamedAbsent(front, name);
    }
  }

  lemma {:induction false} NamedDistinct(items: seq<Item>, i: nat)
    requires Distinct(items) && i < |items|
    ensures Named(items, items[i].name) == [items[i]]
  {
    var front := items[..|items| - 1];
    if i == |items| - 1 {
      assert items[i].name !in Names(front);
      NamedAbsent(front, items[i].name);
    } else {
      NamedDistinct(front, i);
    }
  }

  /** Everything about a rewritten list: a wanted name has the wanted entries only, every other name
      has what it had, and the entries that are not wanted keep their order. */
  lemma ReplacedLookup(items: Option<seq<Item>>, wanted: seq<Item>, name: string)
    ensures Named(Replaced(items, wanted), name)
            == if name in Names(wanted) then Named(wanted, name) else Named(items.GetOr([]), name)
    ensures Without(Replaced(items, wanted), Names(wanted)) == Without(items.GetOr([]), Names(wanted))
  {
    var kept := Without(items.GetOr([]), Names(wanted));
    NamedAppend(kept, wanted, name);
    NamedWithout(items.GetOr([]), Names(wanted), name);
    if name !in Names(wanted) {
      NamedAbsent(wanted, name);
    }
    WithoutAppend(kept, wanted, Names(wanted));
    WithoutAll(wanted, Names(wanted));
    WithoutNone(kept, Names(wanted));
  }

  const CREDENTIAL_VOLUMES := {SIGNING_VOLUME_NAME, TRUST_ANCHORS_VOLUME_NAME, CERTIFICATE_CHAIN_VOLUME_NAME}
  const CREDENTIAL_VARIABLES := {"NDN_APP_SIGNING_KEY_FILE", "NDN_APP_SIGNING_CERT_FILE", "NDN_APP_TRUST_ANCHOR_DIR",
                                 "NDN_APP_CERTIFICATE_CHAIN_DIR"}

  lemma PlainWants(network: Network)
    ensures Names(WantedMounts(None)) == {VOLUME_NAME}
    ensures Names(WantedEnv(network, None)) == {"NDN_CLIENT_TRANSPORT", "NDN_PREFIX"}
  {
    var transport := EnvVar("NDN_CLIENT_TRANSPORT", "unix://" + MOUNT_PATH);
    var prefix := EnvVar("NDN_PREFIX", network.prefix);
    NameOfOne(Mount(VOLUME_NAME, MOUNT_PATH));
    NameOfOne(transport);
    NameOfOne(prefix);
    NamesAppend([transport], [prefix]);
    assert WantedMounts(None) == [Mount(VOLUME_NAME, MOUNT_PATH)];
    assert WantedEnv(network, None) == [transport] + [prefix];
  }

  /** Only the first container with the target name gains credential mounts and variables: in every
      other container those names keep exactly the entries they had. */
  lemma OnlyTargetGains(pod: Pod, network: Network, credentials: Option<CredentialMounts>, i: nat, name: string)
    requires Refusal(pod, credentials).None? && i < |pod.spec.value.containers|
    requires credentials.None? || FirstNamed(pod.spec.value.containers, credentials.value.container) != Some(i)
    ensures var was := pod.spec.value.containers[i];
            var now := Inject(pod, network, credentials).spec.value.containers[i];
            (name in CREDENTIAL_VOLUMES ==> Named(now.volumeMounts.value, name) == Named(was.volumeMounts.GetOr([]), name))
            && (name in CREDENTIAL_VARIABLES ==> Named(now.env.value, name) == Named(was.env.GetOr([]), name))
  {
    hide Replaced, Named, Names, WantedMounts, WantedEnv, WantedVolumes;
    var was := pod.spec.value.containers[i];
    PlainWants(network);
    ReplacedLookup(was.volumeMounts, WantedMounts(None), name);
    ReplacedLookup(was.env, WantedEnv(network, None), name);
  }

  /** Injecting again changes nothing, list order included. */
  lemma InjectIdempotent(pod: Pod, network: Network, credentials: Option<CredentialMounts>)
    requires Refusal(pod, credentials).None?
    ensures Refusal(Inject(pod, network, credentials), credentials).None?
    ensures Inject(Inject(pod, network, credentials), network, credentials) == Inject(pod, network, credentials)
  {
    hide Replaced, WantedMounts, WantedEnv, WantedVolumes;
    var once := Inject(pod, network, credentials);
    var cs := pod.spec.value.containers;
    var ds := once.spec.value.containers;
    ReplacedTwice(pod.spec.value.volumes, WantedVolumes(network, credentials));
    if credentials.Some? {
      SameFirst(cs, ds, credentials.value.container);
    }
    forall i | 0 <= i < |cs|
      ensures InjectContainer(ds[i], network, CredentialsFor(ds, i, credentials)) == ds[i]
    {
      var mine := CredentialsFor(cs, i, credentials);
      ReplacedTwice(cs[i].volumeMounts, WantedMounts(mine));
      ReplacedTwice(cs[i].env, WantedEnv(network, mine));
    }
    assert InjectContainers(ds, |ds|, network, credentials) == ds;
  }

  lemma {:induction false} SameFirst(cs: seq<Container>, ds: seq<Container>, name: string)
    requires |cs| == |ds| && forall i :: 0 <= i < |cs| ==> cs[i].name == ds[i].name
    ensures FirstNamed(cs, name) == FirstNamed(ds, name)
  {
    if cs != [] {
      SameFirst(cs[1..], ds[1..], name);
    }
  }

  // ---------------------------------------------------------------------------------------
  // Well-formedness
  // ---------------------------------------------------------------------------------------

  /** Volumes and variables have one entry a name, and every mount names a declared volume. */
  predicate WellFormed(pod: Pod) {
    pod.spec.Some? ==>
      && Distinct(pod.spec.value.volumes.GetOr([]))
      && forall i :: 0 <= i < |pod.spec.value.containers| ==>
           ContainerWellFormed(pod.spec.value.containers[i], Names(pod.spec.value.volumes.GetOr([])))
  }

  predicate ContainerWellFormed(c: Container, declared: set<string>) {
    Distinct(c.env.GetOr([])) && Names(c.volumeMounts.GetOr([])) <= declared
  }

  lemma {:induction false} WithoutDistinct(items: seq<Item>, names: set<string>)
    requires Distinct(items)
    ensures Distinct(Without(items, names))
  {
    if items != [] {
      var front := items[..|items| - 1];
      WithoutDistinct(front, names);
      assert items[|items| - 1].name !in Names(front);
      var kept := Without(front, names);
      assert forall i :: 0 <= i < |kept| ==> kept[i].name in Names(kept);
    }
  }

  lemma ReplacedDistinct(items: Option<seq<Item>>, wanted: seq<Item>)
    requires Distinct(items.GetOr([])) && Distinct(wanted)
    ensures Distinct(Replaced(items, wanted))
  {
    var kept := Without(items.GetOr([]), Names(wanted));
    WithoutDistinct(items.GetOr([]), Names(wanted));
    assert forall i :: 0 <= i < |kept| ==> kept[i].name in Names(kept);
    assert forall i :: 0 <= i < |wanted| ==> wanted[i].name in Names(wanted);
  }

  lemma ReplacedNames(items: Option<seq<Item>>, wanted: seq<Item>)
    ensures Names(Replaced(items, wanted)) == Names(items.GetOr([])) + Names(wanted)
  {
    NamesAppend(Without(items.GetOr([]), Names(wanted)), wanted);
  }

  lemma MountsAreDeclared(network: Network, credentials: Option<CredentialMounts>)
    requires !KeyMissing(credentials)
    ensures Names(WantedMounts(credentials)) == Names(WantedVolumes(network, credentials))
    ensures Names(WantedMounts(None)) <= Names(WantedVolumes(network, credentials))
  {
    var m := WantedMounts(credentials);
    var v := WantedVolumes(network, credentials);
    assert |m| == |v| && forall i :: 0 <= i < |m| ==> m[i].name == v[i].name;
    SameNames(m, v);
    PlainWants(network);
    HasName(v, 0);
  }

  lemma SameNames(a: seq<Item>, b: seq<Item>)
    requires |a| == |b| && forall i :: 0 <= i < |a| ==> a[i].name == b[i].name
    ensures Names(a) == Names(b)
  {
  }

  /** Injection keeps a pod well formed; where a container mounts no volume twice, it mounts none twice
      afterwards; and every volume that was declared still is, so the mounts of init containers, which are not
      touched, keep naming declared volumes. */
  lemma InjectKeepsWellFormed(pod: Pod, network: Network, credentials: Option<CredentialMounts>)
    requires Refusal(pod, credentials).None? && WellFormed(pod)
    ensures WellFormed(Inject(pod, network, credentials))
    ensures var was, now := pod.spec.value, Inject(pod, network, credentials).spec.value;
            && Names(was.volumes.GetOr([])) <= Names(now.volumes.value)
            && now.rest == was.rest && |now.containers| == |was.containers|
            && forall i :: 0 <= i < |was.containers| && Distinct(was.containers[i].volumeMounts.GetOr([]))
                 ==> Distinct(now.containers[i].volumeMounts.value)
  {
    MountNamesStayDistinct(pod, network, credentials);
    hide Replaced, WantedMounts, WantedEnv, WantedVolumes, Distinct, Names;
    var spec := pod.spec.value;
    VolumesDistinct(network, credentials);
    ReplacedDistinct(spec.volumes, WantedVolumes(network, credentials));
    ReplacedNames(spec.volumes, WantedVolumes(network, credentials));
    MountsAreDeclared(network, credentials);
    forall i | 0 <= i < |spec.containers|
      ensures ContainerWellFormed(Inject(pod, network, credentials).spec.value.containers[i],
                                  Names(Inject(pod, network, credentials).spec.value.volumes.value))
    {
      var c := spec.containers[i];
      var mine := CredentialsFor(spec.containers, i, credentials);
      assert ContainerWellFormed(c, Names(spec.volumes.GetOr([])));
      EnvDistinct(network, mine);
      ReplacedDistinct(c.env, WantedEnv(network, mine));
      ReplacedNames(c.volumeMounts, WantedMounts(mine));
    }
  }

  lemma MountNamesStayDistinct(pod: Pod, network: Network, credentials: Option<CredentialMounts>)
    requires Refusal(pod, credentials).None?
    ensures forall i :: 0 <= i < |pod.spec.value.containers| && Distinct(pod.spec.value.containers[i].volumeMounts.GetOr([]))
              ==> Distinct(Inject(pod, network, credentials).spec.value.containers[i].volumeMounts.value)
  {
    hide Replaced, WantedMounts, WantedEnv, WantedVolumes, Distinct;
    var cs := pod.spec.value.containers;
    forall i | 0 <= i < |cs| && Distinct(cs[i].volumeMounts.GetOr([]))
      ensures Distinct(Inject(pod, network, credentials).spec.value.containers[i].volumeMounts.value)
    {
      var mine := CredentialsFor(cs, i, credentials);
      MountsDistinct(mine);
      ReplacedDistinct(cs[i].volumeMounts, WantedMounts(mine));
    }
  }

  // ---------------------------------------------------------------------------------------
  // What the application sees
  // ---------------------------------------------------------------------------------------

  /** The files of a bundle have pairwise distinct paths. */
  lemma BundleFilesDistinct(prefix: string, i: nat, j: nat)
    requires BundleFile(prefix, i) == BundleFile(prefix, j)
    ensures i == j
  {
    var n := |prefix| + 1;
    var a, b := BundleFile(prefix, i), BundleFile(prefix, j);
    assert |a| == n + |Decimal(i)| + 5 && |b| == n + |Decimal(j)| + 5;
    assert Decimal(i) == a[n..|a| - 5] && Decimal(j) == b[n..|b| - 5];
    DecimalInjective(i, j);
  }
}
