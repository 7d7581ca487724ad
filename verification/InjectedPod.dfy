/** What a pod's containers find after injection, read off the entries of the pod as Kubernetes reads them. */
module InjectedPod {
  import opened Wrappers
  import opened JsonPatch
  import opened Injector

  // ---------------------------------------------------------------------------------------
  // Reading a pod
  // ---------------------------------------------------------------------------------------

  /** The one entry of the name, if there is exactly one. */
  function Only(items: Option<seq<Item>>, name: string): Option<Item> {
    var named := Named(items.GetOr([]), name);
    if |named| == 1 then Some(named[0]) else None
  }

  /** The member of an entry that a path names. */
  function MemberAt(item: Item, path: seq<string>): Option<Json> {
    At(Obj(item.rest), path)
  }

  /** What the environment variable holds. */
  function ValueOf(c: Container, name: string): Option<Json> {
    match Only(c.env, name)
    case None => None
    case Some(e) => MemberAt(e, ["value"])
  }

  /** The container sees the volume `v` at the directory or file `dir`. */
  predicate MountedAt(spec: PodSpec, c: Container, dir: string, v: Item) {
    && Only(spec.volumes, v.name) == Some(v)
    && Only(c.volumeMounts, v.name).Some?
    && MemberAt(Only(c.volumeMounts, v.name).value, ["mountPath"]) == Some(Str(dir))
  }

  predicate MountedReadOnly(spec: PodSpec, c: Container, dir: string, v: Item) {
    MountedAt(spec, c, dir, v) && MemberAt(Only(c.volumeMounts, v.name).value, ["readOnly"]) == Some(Bool(true))
  }

  /** The volume is the socket of the host at the path. */
  predicate HostSocket(v: Item, path: string) {
    MemberAt(v, ["hostPath", "path"]) == Some(Str(path)) && MemberAt(v, ["hostPath", "type"]) == Some(Str("Socket"))
  }

  /** The source projects one entry of a Secret, which has to exist, to a file. */
  predicate SecretFile(source: Json, file: string, secret: string, key: string) {
    && At(source, ["secret", "name"]) == Some(Str(secret))
    && At(source, ["secret", "optional"]) == Some(Bool(false))
    && At(source, ["secret", "items"]).Some? && At(source, ["secret", "items"]).value.Arr?
    && |At(source, ["secret", "items"]).value.items| == 1
    && var item := At(source, ["secret", "items"]).value.items[0];
       At(item, ["key"]) == Some(Str(key)) && At(item, ["path"]) == Some(Str(file))
  }

  /** The volume consists of as many projected files, readable by everyone and writable by no one (mode 0444). */
  predicate FilesOnly(v: Item, count: nat) {
    && MemberAt(v, ["projected", "defaultMode"]) == Some(Num(4 * 64 + 4 * 8 + 4))
    && MemberAt(v, ["projected", "sources"]).Some? && MemberAt(v, ["projected", "sources"]).value.Arr?
    && |MemberAt(v, ["projected", "sources"]).value.items| == count
  }

  /** File number `k` of the volume is the Secret's entry. */
  predicate Shows(v: Item, count: nat, k: nat, file: string, secret: string, key: string)
    requires FilesOnly(v, count) && k < count
  {
    SecretFile(MemberAt(v, ["projected", "sources"]).value.items[k], file, secret, key)
  }

  // ---------------------------------------------------------------------------------------
  // The entries that are injected
  // ---------------------------------------------------------------------------------------

  lemma EnvVarHolds(name: string, value: string)
    ensures EnvVar(name, value).name == name && MemberAt(EnvVar(name, value), ["value"]) == Some(Str(value))
  {
    PathOfOne(EnvVar(name, value).rest, "value");
  }

  lemma MountHolds(name: string, path: string)
    ensures Mount(name, path).name == name && MemberAt(Mount(name, path), ["mountPath"]) == Some(Str(path))
    ensures var m := CredentialMount(name, path);
            m.name == name && MemberAt(m, ["mountPath"]) == Some(Str(path)) && MemberAt(m, ["readOnly"]) == Some(Bool(true))
  {
    assert "mountPath" != "readOnly";
    PathOfOne(Mount(name, path).rest, "mountPath");
    PathOfOne(CredentialMount(name, path).rest, "mountPath");
    PathOfOne(CredentialMount(name, path).rest, "readOnly");
  }

  lemma SocketHolds(network: Network)
    ensures SocketVolume(network).name == VOLUME_NAME && HostSocket(SocketVolume(network), network.hostSocketPath)
  {
    var rest := SocketVolume(network).rest;
    assert "path" != "type";
    PathOfTwo(rest, "hostPath", "path");
    PathOfTwo(rest, "hostPath", "type");
    PathOfOne(rest["hostPath"].fields, "path");
    PathOfOne(rest["hostPath"].fields, "type");
  }

  lemma ProjectionHolds(secret: string, key: string, file: string)
    ensures SecretFile(SecretProjection(secret, key, file), file, secret, key)
  {
    var outer := SecretProjection(secret, key, file).fields;
    assert "name" != "items" && "name" != "optional" && "items" != "optional" && "key" != "path";
    var inner := outer["secret"].fields;
    PathOfTwo(outer, "secret", "name");
    PathOfTwo(outer, "secret", "optional");
    PathOfTwo(outer, "secret", "items");
    PathOfOne(inner, "name");
    PathOfOne(inner, "optional");
    PathOfOne(inner, "items");
    var item := inner["items"].items[0].fields;
    PathOfOne(item, "key");
    PathOfOne(item, "path");
  }

  lemma ProjectedHolds(name: string, sources: seq<Json>)
    ensures var v := ProjectedVolume(name, sources);
            v.name == name && FilesOnly(v, |sources|) && MemberAt(v, ["projected", "sources"]) == Some(Arr(sources))
  {
    var rest := ProjectedVolume(name, sources).rest;
    assert "defaultMode" != "sources";
    PathOfTwo(rest, "projected", "defaultMode");
    PathOfTwo(rest, "projected", "sources");
    PathOfOne(rest["projected"].fields, "defaultMode");
    PathOfOne(rest["projected"].fields, "sources");
  }

  lemma SigningHolds(keySecret: string, certSecret: string)
    ensures var v := SigningVolume(keySecret, certSecret);
            && v.name == SIGNING_VOLUME_NAME && FilesOnly(v, 2)
            && Shows(v, 2, 0, "ndn.key", keySecret, "ndn.key")
            && Shows(v, 2, 1, "ndn.cert", certSecret, "ndn.cert")
  {
    hide SecretProjection, ProjectedVolume, FilesOnly, SecretFile;
    var sources := [SecretProjection(keySecret, "ndn.key", "ndn.key"), SecretProjection(certSecret, "ndn.cert", "ndn.cert")];
    ProjectedHolds(SIGNING_VOLUME_NAME, sources);
    ProjectionHolds(keySecret, "ndn.key", "ndn.key");
    ProjectionHolds(certSecret, "ndn.cert", "ndn.cert");
  }

  lemma BundleHolds(name: string, prefix: string, secrets: seq<string>)
    ensures var v := BundleVolume(name, prefix, secrets);
            && v.name == name && FilesOnly(v, |secrets|)
            && forall k :: 0 <= k < |secrets| ==> Shows(v, |secrets|, k, prefix + "-" + Decimal(k) + ".cert", secrets[k], "ndn.cert")
  {
    hide SecretProjection, ProjectedVolume, FilesOnly, SecretFile, Decimal;
    var sources := seq(|secrets|, i requires 0 <= i < |secrets| =>
                     SecretProjection(secrets[i], "ndn.cert", BundleFile(prefix, i)));
    ProjectedHolds(name, sources);
    forall k | 0 <= k < |secrets|
      ensures SecretFile(sources[k], prefix + "-" + Decimal(k) + ".cert", secrets[k], "ndn.cert")
    {
      ProjectionHolds(secrets[k], "ndn.cert", BundleFile(prefix, k));
    }
  }

  /** A wanted entry is the only one of its name in the rewritten list. */
  lemma OnlyWanted(items: Option<seq<Item>>, wanted: seq<Item>, k: nat)
    requires Distinct(wanted) && k < |wanted|
    ensures Only(Some(Replaced(items, wanted)), wanted[k].name) == Some(wanted[k])
  {
    hide Replaced, Named, Distinct, Names;
    HasName(wanted, k);
    NamedDistinct(wanted, k);
    ReplacedLookup(items, wanted, wanted[k].name);
  }

  // ---------------------------------------------------------------------------------------
  // Main results
  // ---------------------------------------------------------------------------------------

  /** Main result: in every container NDN_PREFIX is the network's prefix, and NDN_CLIENT_TRANSPORT is the URL of a
      path at which the container sees the network's socket on the host. */
  lemma SocketIsReachable(pod: Pod, network: Network, credentials: Option<CredentialMounts>, i: nat)
    requires Refusal(pod, credentials).None? && i < |pod.spec.value.containers|
    ensures var spec := Inject(pod, network, credentials).spec.value;
            var c := spec.containers[i];
            && ValueOf(c, "NDN_PREFIX") == Some(Str(network.prefix))
            && ValueOf(c, "NDN_CLIENT_TRANSPORT") == Some(Str("unix:///run/ndnd.sock"))
            && exists v :: MountedAt(spec, c, "/run/ndnd.sock", v) && HostSocket(v, network.hostSocketPath)
  {
    hide Replaced, Distinct, Only, EnvVar, Mount, SocketVolume, SigningVolume, BundleVolume, CredentialMount, HostSocket, MemberAt;
    var was := pod.spec.value.containers[i];
    var spec := Inject(pod, network, credentials).spec.value;
    var mine := CredentialsFor(pod.spec.value.containers, i, credentials);
    var wv, wm, we := WantedVolumes(network, credentials), WantedMounts(mine), WantedEnv(network, mine);
    VolumesDistinct(network, credentials);
    MountsDistinct(mine);
    EnvDistinct(network, mine);
    OnlyWanted(pod.spec.value.volumes, wv, 0);
    OnlyWanted(was.volumeMounts, wm, 0);
    OnlyWanted(was.env, we, 0);
    OnlyWanted(was.env, we, 1);
    SocketHolds(network);
    MountHolds(VOLUME_NAME, MOUNT_PATH);
    EnvVarHolds("NDN_CLIENT_TRANSPORT", "unix://" + MOUNT_PATH);
    EnvVarHolds("NDN_PREFIX", network.prefix);
    TransportUrl();
    assert MountedAt(spec, spec.containers[i], MOUNT_PATH, SocketVolume(network));
  }

  lemma TransportUrl()
    ensures "unix://" + MOUNT_PATH == "unix:///run/ndnd.sock"
  {
  }

  /** The container that the credentials are for. */
  function Target(pod: Pod, c: CredentialMounts): nat
    requires Refusal(pod, Some(c)).None?
  {
    FirstNamed(pod.spec.value.containers, c.container).value
  }

  /** Entry `k` of the wanted volumes is mounted by entry `k` of the wanted mounts. */
  lemma WantedIsMounted(pod: Pod, network: Network, c: CredentialMounts, k: nat, dir: string)
    requires Refusal(pod, Some(c)).None? && 0 < k < |WantedVolumes(network, Some(c))| && k < |WantedMounts(Some(c))|
    requires var v := WantedVolumes(network, Some(c))[k]; WantedMounts(Some(c))[k] == CredentialMount(v.name, dir)
    ensures var spec := Inject(pod, network, Some(c)).spec.value;
            MountedReadOnly(spec, spec.containers[Target(pod, c)], dir, WantedVolumes(network, Some(c))[k])
  {
    hide Replaced, Distinct, Only, CredentialMount, MemberAt, WantedVolumes, WantedMounts, WantedEnv;
    var wv, wm := WantedVolumes(network, Some(c)), WantedMounts(Some(c));
    VolumesDistinct(network, Some(c));
    MountsDistinct(Some(c));
    OnlyWanted(pod.spec.value.volumes, wv, k);
    OnlyWanted(pod.spec.value.containers[Target(pod, c)].volumeMounts, wm, k);
    MountHolds(wv[k].name, dir);
  }

  lemma VariableHolds(pod: Pod, network: Network, c: CredentialMounts, k: nat, name: string, value: string)
    requires Refusal(pod, Some(c)).None? && k < |WantedEnv(network, Some(c))| && WantedEnv(network, Some(c))[k] == EnvVar(name, value)
    ensures ValueOf(Inject(pod, network, Some(c)).spec.value.containers[Target(pod, c)], name) == Some(Str(value))
  {
    hide Replaced, Distinct, Only, EnvVar, MemberAt, WantedVolumes, WantedMounts, WantedEnv;
    EnvDistinct(network, Some(c));
    OnlyWanted(pod.spec.value.containers[Target(pod, c)].env, WantedEnv(network, Some(c)), k);
    EnvVarHolds(name, value);
  }

  /** Main result: in the target container the two signing variables are paths of two files of one read-only
      volume, which are the key and the certificate that were asked for. */
  lemma SigningIsReadable(pod: Pod, network: Network, c: CredentialMounts)
    requires Refusal(pod, Some(c)).None? && c.signing.Some?
    ensures var spec := Inject(pod, network, Some(c)).spec.value;
            var target := spec.containers[Target(pod, c)];
            && ValueOf(target, "NDN_APP_SIGNING_KEY_FILE") == Some(Str("/etc/ndn/app/signing/ndn.key"))
            && ValueOf(target, "NDN_APP_SIGNING_CERT_FILE") == Some(Str("/etc/ndn/app/signing/ndn.cert"))
            && exists v ::
                 && MountedReadOnly(spec, target, "/etc/ndn/app/signing", v) && FilesOnly(v, 2)
                 && Shows(v, 2, 0, "ndn.key", c.signing.value.keySecret.value, "ndn.key")
                 && Shows(v, 2, 1, "ndn.cert", c.signing.value.certSecret, "ndn.cert")
  {
    hide Replaced, ValueOf, MountedReadOnly, FilesOnly, Shows, SocketVolume, SigningVolume, BundleVolume, EnvVar, CredentialMount, Inject;
    var v := SigningVolume(c.signing.value.keySecret.value, c.signing.value.certSecret);
    SigningHolds(c.signing.value.keySecret.value, c.signing.value.certSecret);
    WantedIsMounted(pod, network, c, 1, SIGNING_MOUNT_PATH);
    VariableHolds(pod, network, c, 2, "NDN_APP_SIGNING_KEY_FILE", SIGNING_KEY_FILE);
    VariableHolds(pod, network, c, 3, "NDN_APP_SIGNING_CERT_FILE", SIGNING_CERT_FILE);
  }

  /** Main result: NDN_APP_TRUST_ANCHOR_DIR names a directory that holds the trust anchors and nothing else. */
  lemma AnchorsAreReadable(pod: Pod, network: Network, c: CredentialMounts)
    requires Refusal(pod, Some(c)).None? && c.trustAnchors != []
    ensures var spec := Inject(pod, network, Some(c)).spec.value;
            var target := spec.containers[Target(pod, c)];
            && ValueOf(target, "NDN_APP_TRUST_ANCHOR_DIR") == Some(Str("/etc/ndn/app/trust-anchors"))
            && exists v ::
                 && MountedReadOnly(spec, target, "/etc/ndn/app/trust-anchors", v) && FilesOnly(v, |c.trustAnchors|)
                 && forall k :: 0 <= k < |c.trustAnchors| ==>
                      Shows(v, |c.trustAnchors|, k, "anchor-" + Decimal(k) + ".cert", c.trustAnchors[k], "ndn.cert")
  {
    hide Replaced, ValueOf, MountedReadOnly, FilesOnly, Shows, SocketVolume, SigningVolume, BundleVolume, EnvVar, CredentialMount, Inject, Decimal;
    var p := if c.signing.Some? then 1 else 0;
    var v := BundleVolume(TRUST_ANCHORS_VOLUME_NAME, "anchor", c.trustAnchors);
    BundleHolds(TRUST_ANCHORS_VOLUME_NAME, "anchor", c.trustAnchors);
    assert forall k :: "anchor" + "-" + Decimal(k) == "anchor-" + Decimal(k);
    WantedIsMounted(pod, network, c, 1 + p, TRUST_ANCHORS_MOUNT_PATH);
    VariableHolds(pod, network, c, 2 + 2 * p, "NDN_APP_TRUST_ANCHOR_DIR", TRUST_ANCHORS_MOUNT_PATH);
    assert WantedVolumes(network, Some(c))[1 + p] == v;
  }

  /** Main result: NDN_APP_CERTIFICATE_CHAIN_DIR names a directory that holds the chain and nothing else. */
  lemma ChainIsReadable(pod: Pod, network: Network, c: CredentialMounts)
    requires Refusal(pod, Some(c)).None? && c.certificateChain != []
    ensures var spec := Inject(pod, network, Some(c)).spec.value;
            var target := spec.containers[Target(pod, c)];
            && ValueOf(target, "NDN_APP_CERTIFICATE_CHAIN_DIR") == Some(Str("/etc/ndn/app/certificate-chain"))
            && exists v ::
                 && MountedReadOnly(spec, target, "/etc/ndn/app/certificate-chain", v) && FilesOnly(v, |c.certificateChain|)
                 && forall k :: 0 <= k < |c.certificateChain| ==>
                      Shows(v, |c.certificateChain|, k, "chain-" + Decimal(k) + ".cert", c.certificateChain[k], "ndn.cert")
  {
    hide Replaced, ValueOf, MountedReadOnly, FilesOnly, Shows, SocketVolume, SigningVolume, BundleVolume, EnvVar, CredentialMount, Inject, Decimal;
    var wv, we := WantedVolumes(network, Some(c)), WantedEnv(network, Some(c));
    var v := BundleVolume(CERTIFICATE_CHAIN_VOLUME_NAME, "chain", c.certificateChain);
    BundleHolds(CERTIFICATE_CHAIN_VOLUME_NAME, "chain", c.certificateChain);
    assert forall k :: "chain" + "-" + Decimal(k) == "chain-" + Decimal(k);
    assert |WantedMounts(Some(c))| == |wv| && wv[|wv| - 1] == v;
    WantedIsMounted(pod, network, c, |wv| - 1, CERTIFICATE_CHAIN_MOUNT_PATH);
    VariableHolds(pod, network, c, |we| - 1, "NDN_APP_CERTIFICATE_CHAIN_DIR", CERTIFICATE_CHAIN_MOUNT_PATH);
  }

  // ---------------------------------------------------------------------------------------
  // Everything else
  // ---------------------------------------------------------------------------------------

  /** The names of the volumes that injection is about. */
  function InjectedVolumes(credentials: Option<CredentialMounts>): set<string> {
    {"run-ndnd"}
    + (if credentials.Some? && credentials.value.signing.Some? then {"ndn-app-signing"} else {})
    + (if credentials.Some? && credentials.value.trustAnchors != [] then {"ndn-app-trust-anchors"} else {})
    + (if credentials.Some? && credentials.value.certificateChain != [] then {"ndn-app-certificate-chain"} else {})
  }

  /** The names of the variables. */
  function InjectedVariables(credentials: Option<CredentialMounts>): set<string> {
    {"NDN_CLIENT_TRANSPORT", "NDN_PREFIX"}
    + (if credentials.Some? && credentials.value.signing.Some? then {"NDN_APP_SIGNING_KEY_FILE", "NDN_APP_SIGNING_CERT_FILE"} else {})
    + (if credentials.Some? && credentials.value.trustAnchors != [] then {"NDN_APP_TRUST_ANCHOR_DIR"} else {})
    + (if credentials.Some? && credentials.value.certificateChain != [] then {"NDN_APP_CERTIFICATE_CHAIN_DIR"} else {})
  }

  lemma NamesOfTwo(a: Item, b: Item)
    ensures Names([a, b]) == {a.name, b.name}
  {
    NameOfOne(a);
    NameOfOne(b);
    NamesAppend([a], [b]);
    assert [a] + [b] == [a, b];
  }

  lemma NamesOfFour(a: seq<Item>, b: seq<Item>, c: seq<Item>, d: seq<Item>)
    ensures Names(a + b + c + d) == Names(a) + Names(b) + Names(c) + Names(d)
  {
    NamesAppend(a, b);
    NamesAppend(a + b, c);
    NamesAppend(a + b + c, d);
  }

  lemma NamesOfNone()
    ensures Names([]) == {}
  {
  }

  lemma WantedVariableNames(network: Network, credentials: Option<CredentialMounts>)
    ensures Names(WantedEnv(network, credentials)) == InjectedVariables(credentials)
  {
    hide Names, EnvVar;
    EnvNames(network);
    NamesOfNone();
    var signing, anchors, chain :=
      if credentials.Some? && credentials.value.signing.Some? then SigningEnv() else [],
      if credentials.Some? && credentials.value.trustAnchors != [] then AnchorEnv() else [],
      if credentials.Some? && credentials.value.certificateChain != [] then ChainEnv() else [];
    NamesOfFour(PlainEnv(network), signing, anchors, chain);
    assert WantedEnv(network, credentials) == PlainEnv(network) + signing + anchors + chain;
    hide PlainEnv, SigningEnv, AnchorEnv, ChainEnv;
  }

  lemma EnvNames(network: Network)
    ensures Names(PlainEnv(network)) == {"NDN_CLIENT_TRANSPORT", "NDN_PREFIX"}
    ensures Names(SigningEnv()) == {"NDN_APP_SIGNING_KEY_FILE", "NDN_APP_SIGNING_CERT_FILE"}
    ensures Names(AnchorEnv()) == {"NDN_APP_TRUST_ANCHOR_DIR"}
    ensures Names(ChainEnv()) == {"NDN_APP_CERTIFICATE_CHAIN_DIR"}
  {
    hide Names;
    NamesOfTwo(PlainEnv(network)[0], PlainEnv(network)[1]);
    NamesOfTwo(SigningEnv()[0], SigningEnv()[1]);
    NameOfOne(AnchorEnv()[0]);
    NameOfOne(ChainEnv()[0]);
  }

  lemma WantedMountNames(credentials: Option<CredentialMounts>)
    ensures Names(WantedMounts(credentials)) == InjectedVolumes(credentials)
  {
    hide Names;
    var plain := [Mount(VOLUME_NAME, MOUNT_PATH)];
    NameOfOne(plain[0]);
    NamesOfNone();
    NameOfOne(CredentialMount(SIGNING_VOLUME_NAME, SIGNING_MOUNT_PATH));
    NameOfOne(CredentialMount(TRUST_ANCHORS_VOLUME_NAME, TRUST_ANCHORS_MOUNT_PATH));
    NameOfOne(CredentialMount(CERTIFICATE_CHAIN_VOLUME_NAME, CERTIFICATE_CHAIN_MOUNT_PATH));
    var signing, anchors, chain :=
      if credentials.Some? && credentials.value.signing.Some? then [CredentialMount(SIGNING_VOLUME_NAME, SIGNING_MOUNT_PATH)] else [],
      if credentials.Some? && credentials.value.trustAnchors != [] then [CredentialMount(TRUST_ANCHORS_VOLUME_NAME, TRUST_ANCHORS_MOUNT_PATH)] else [],
      if credentials.Some? && credentials.value.certificateChain != []
      then [CredentialMount(CERTIFICATE_CHAIN_VOLUME_NAME, CERTIFICATE_CHAIN_MOUNT_PATH)] else [];
    NamesOfFour(plain, signing, anchors, chain);
    assert WantedMounts(credentials) == plain + signing + anchors + chain;
  }

  /** `now` is `was` with the entries of `names` replaced by one each: the names are there once, all other
      entries are as they were, in their order. */
  predicate ChangedOnly(was: Option<seq<Item>>, now: Option<seq<Item>>, names: set<string>) {
    && now.Some?
    && (forall name :: name in names ==> Only(now, name).Some?)
    && Without(now.value, names) == Without(was.GetOr([]), names)
    && Names(now.value) == Names(was.GetOr([])) + names
  }

  lemma ReplacedChangesOnly(was: Option<seq<Item>>, wanted: seq<Item>, names: set<string>)
    requires Distinct(wanted) && Names(wanted) == names
    ensures ChangedOnly(was, Some(Replaced(was, wanted)), names)
  {
    ReplacedLookup(was, wanted, "");
    ReplacedNames(was, wanted);
    forall name | name in names ensures Only(Some(Replaced(was, wanted)), name).Some? {
      var k :| 0 <= k < |wanted| && wanted[k].name == name;
      OnlyWanted(was, wanted, k);
    }
  }

  /** Main result: injection changes the named volumes, mounts and variables and nothing else in the pod, not
      even the order of what it does not inject. */
  lemma NothingElseChanges(pod: Pod, network: Network, credentials: Option<CredentialMounts>)
    requires Refusal(pod, credentials).None?
    ensures var now := Inject(pod, network, credentials);
            && now.rest == pod.rest && now.spec.Some? && now.spec.value.rest == pod.spec.value.rest
            && ChangedOnly(pod.spec.value.volumes, now.spec.value.volumes, InjectedVolumes(credentials))
            && |now.spec.value.containers| == |pod.spec.value.containers|
            && forall i :: 0 <= i < |pod.spec.value.containers| ==>
                 var was, c := pod.spec.value.containers[i], now.spec.value.containers[i];
                 var mine := CredentialsFor(pod.spec.value.containers, i, credentials);
                 && c.name == was.name && c.rest == was.rest
                 && ChangedOnly(was.volumeMounts, c.volumeMounts, InjectedVolumes(mine))
                 && ChangedOnly(was.env, c.env, InjectedVariables(mine))
  {
    hide Replaced, Distinct, Names, WantedMounts, WantedEnv, WantedVolumes, InjectedVolumes, InjectedVariables, ChangedOnly, CredentialsFor, FirstNamed;
    WantedMountNames(credentials);
    MountsAreDeclared(network, credentials);
    VolumesDistinct(network, credentials);
    ReplacedChangesOnly(pod.spec.value.volumes, WantedVolumes(network, credentials), InjectedVolumes(credentials));
    forall i | 0 <= i < |pod.spec.value.containers|
      ensures var was, c := pod.spec.value.containers[i], Inject(pod, network, credentials).spec.value.containers[i];
              var mine := CredentialsFor(pod.spec.value.containers, i, credentials);
              && c.name == was.name && c.rest == was.rest
              && ChangedOnly(was.volumeMounts, c.volumeMounts, InjectedVolumes(mine))
              && ChangedOnly(was.env, c.env, InjectedVariables(mine))
    {
      var was := pod.spec.value.containers[i];
      var mine := CredentialsFor(pod.spec.value.containers, i, credentials);
      WantedMountNames(mine);
      WantedVariableNames(network, mine);
      MountsDistinct(mine);
      EnvDistinct(network, mine);
      ReplacedChangesOnly(was.volumeMounts, WantedMounts(mine), InjectedVolumes(mine));
      ReplacedChangesOnly(was.env, WantedEnv(network, mine), InjectedVariables(mine));
    }
  }

  // ---------------------------------------------------------------------------------------
  // The document
  // ---------------------------------------------------------------------------------------

  lemma {:induction false} AtPath(doc: Json, a: seq<string>, b: seq<string>)
    ensures At(doc, a + b) == match At(doc, a) case None => None case Some(child) => At(child, b)
  {
    if a == [] {
      assert a + b == b;
    } else {
      assert (a + b)[0] == a[0] && (a + b)[1..] == a[1..] + b;
      if Child(doc, a[0]).Some? { AtPath(Child(doc, a[0]).value, a[1..], b); }
    }
  }

  /** The members of an entry in the document. */
  lemma ItemMembers(item: Item, path: seq<string>)
    requires path != [] && path[0] != "name"
    ensures At(EncodeItem(item), ["name"]) == Some(Str(item.name))
    ensures At(EncodeItem(item), path) == MemberAt(item, path)
  {
    PathOfOne(item.rest["name" := Str(item.name)], "name");
  }

  predicate ListAt(doc: Json, path: seq<string>, items: Option<seq<Item>>) {
    match items
    case None => At(doc, path).None?
    case Some(l) =>
      && At(doc, path).Some? && At(doc, path).value.Arr? && |At(doc, path).value.items| == |l|
      && forall k :: 0 <= k < |l| ==> At(doc, path).value.items[k] == EncodeItem(l[k])
  }

  lemma ContainerMembers(c: Container)
    ensures At(EncodeContainer(c), ["name"]) == Some(Str(c.name))
    ensures ListAt(EncodeContainer(c), ["volumeMounts"], c.volumeMounts)
    ensures ListAt(EncodeContainer(c), ["env"], c.env)
  {
    hide EncodeItem;
    var fields := EncodeContainer(c).fields;
    assert "volumeMounts" != "env" && "volumeMounts" != "name" && "env" != "name";
    PathOfOne(fields, "name");
    PathOfOne(fields, "volumeMounts");
    PathOfOne(fields, "env");
  }

  lemma SpecMembers(spec: PodSpec, i: nat)
    requires i < |spec.containers|
    ensures ListAt(EncodeSpec(spec), ["volumes"], spec.volumes)
    ensures At(EncodeSpec(spec), ["containers", Decimal(i)]) == Some(EncodeContainer(spec.containers[i]))
  {
    hide EncodeContainer, EncodeItem, Decimal;
    var fields := EncodeSpec(spec).fields;
    assert "volumes" != "containers";
    PathOfOne(fields, "volumes");
    PathOfTwo(fields, "containers", Decimal(i));
    IndexRoundTrip(i);
    assert [Decimal(i)][1..] == [];
  }

  /** Where the pod's JSON document has what: the volumes, and each container's name, mounts and variables. */
  lemma DocumentPaths(pod: Pod, i: nat)
    requires pod.spec.Some? && i < |pod.spec.value.containers|
    ensures var doc := EncodePod(pod);
            var c := pod.spec.value.containers[i];
            && ListAt(doc, ["spec", "volumes"], pod.spec.value.volumes)
            && At(doc, ["spec", "containers", Decimal(i), "name"]) == Some(Str(c.name))
            && ListAt(doc, ["spec", "containers", Decimal(i), "volumeMounts"], c.volumeMounts)
            && ListAt(doc, ["spec", "containers", Decimal(i), "env"], c.env)
  {
    hide EncodeContainer, EncodeItem, EncodeSpec, Decimal;
    var doc := EncodePod(pod);
    SpecMembers(pod.spec.value, i);
    PathOfTwo(doc.fields, "spec", "volumes");
    ContainerMembers(pod.spec.value.containers[i]);
    forall key ensures At(doc, ["spec", "containers", Decimal(i), key]) == At(EncodeContainer(pod.spec.value.containers[i]), [key]) {
      ContainerAt(doc, pod, i, key);
    }
  }

  lemma ContainerAt(doc: Json, pod: Pod, i: nat, key: string)
    requires pod.spec.Some? && i < |pod.spec.value.containers| && doc == EncodePod(pod)
    ensures At(doc, ["spec", "containers", Decimal(i), key]) == At(EncodeContainer(pod.spec.value.containers[i]), [key])
  {
    hide EncodeContainer, EncodeItem, EncodeSpec, Decimal;
    SpecMembers(pod.spec.value, i);
    var path := ["spec", "containers", Decimal(i), key];
    assert path[1..] == ["containers", Decimal(i)] + [key];
    AtPath(EncodeSpec(pod.spec.value), ["containers", Decimal(i)], [key]);
  }
}
