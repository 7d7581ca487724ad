/** The certificate controller as a machine over the API server's store. Each step is one
    API call of a pass, so passes on different objects interleave and may stop anywhere. */
module CertificateWorld {
  import opened Wrappers
  import opened Conditions
  import opened CertificateTypes

  /** What never changes during a run: the specs of every object that may come to exist, and
      the names of the Secrets that users may write. */
  datatype Config = Config(
    certificates: map<Name, CertificateSpec>,
    externals: map<Name, ExternalSpec>,
    userSecrets: set<SecretName>)

  /** Users do not write the Secrets that a Certificate derives from its name. */
  predicate ValidConfig(cfg: Config) {
    forall s :: s in cfg.userSecrets ==> s.Plain? || s.owner !in cfg.certificates
  }

  /** Where a signing pass finds its signer's key and certificate. */
  datatype SignerRef = SignerRef(keySecret: SecretName, certSecret: Option<SecretName>, selfSigned: bool)

  /** A pass in flight, by the API call it makes next. `base` is the status it started from. */
  datatype Pass =
    | Resolving(base: CertificateStatus)
    | ReadingSignerKey(base: CertificateStatus, st: CertificateStatus, ref: SignerRef)
    | ReadingOwnKey(base: CertificateStatus, st: CertificateStatus, ref: SignerRef, signerKey: Key)
    | ReadingSignerCert(base: CertificateStatus, st: CertificateStatus, ref: SignerRef, cert: Cert, signedAt: Time)
    | WritingCert(base: CertificateStatus, st: CertificateStatus, cert: Cert, signerCert: Cert, signedAt: Time)
    | Publishing(st: CertificateStatus, recorded: Option<Time>)

  /** `log` is auxiliary: for each Certificate, when each recorded issuance was signed. */
  datatype World = World(
    certs: map<Name, Option<CertificateStatus>>,
    externals: map<Name, Option<ExternalStatus>>,
    secrets: map<SecretName, Secret>,
    clock: Time,
    nextKey: nat,
    passes: map<Name, Pass>,
    externalPasses: map<Name, ExternalStatus>,
    log: map<Name, seq<Time>>)

  const EMPTY_WORLD := World(map[], map[], map[], 0, 0, map[], map[], map[])

  function StatusOf(w: World, n: Name): CertificateStatus {
    if n in w.certs then w.certs[n].GetOr(DEFAULT_STATUS) else DEFAULT_STATUS
  }

  function Log(w: World, n: Name): seq<Time> {
    if n in w.log then w.log[n] else []
  }

  // ---------------------------------------------------------------------------------------
  // A Certificate pass, one API call at a time
  // ---------------------------------------------------------------------------------------

  /** What one step of a pass does to the world: at most one write, then the pass goes on or ends.
      `elapsed` is the time between two clock readings of the same step. */
  datatype Effect =
    | Proceed(next: Pass, elapsed: nat)
    | Fail(elapsed: nat)
    | CreateKeySecret(next: Pass)
    | ApplyCertSecret(secret: Secret, next: Pass)
    | PatchStatus(st: CertificateStatus, recorded: Option<Time>)

  function Apply(w: World, n: Name, e: Effect): World {
    match e
    case Proceed(p, d) => w.(clock := w.clock + d, passes := w.passes[n := p])
    case Fail(d) => w.(clock := w.clock + d, passes := w.passes - {n})
    case CreateKeySecret(p) =>
      w.(secrets := w.secrets[KeySecret(n) := Secret(Some(Generated(w.nextKey)), None, None)],
         nextKey := w.nextKey + 1,
         passes := w.passes[n := p])
    case ApplyCertSecret(secret, p) =>
      w.(secrets := w.secrets[CertSecret(n) := secret], passes := w.passes[n := p])
    case PatchStatus(st, at) =>
      w.(certs := w.certs[n := Some(st)],
         log := if at.Some? then w.log[n := Log(w, n) + [at.value]] else w.log,
         passes := w.passes - {n})
  }

  /** A pass starts from the current status. A key Secret that is already there is a conflict. */
  function Begin(cfg: Config, w: World, n: Name, d: nat): Effect
    requires n in cfg.certificates
  {
    var spec := cfg.certificates[n];
    var st := StatusOf(w, n);
    if !st.keyExists then
      if KeySecret(n) in w.secrets then Fail(0)
      else CreateKeySecret(Publishing(WithKey(spec, n, st, Generated(w.nextKey), w.clock), None))
    else if st.certExists && !st.needsRenewal then
      match Validated(spec, st, w.clock, w.clock + d)
      case None => Fail(d)
      case Some(st1) => Proceed(Publishing(st1, None), d)
    else Proceed(Resolving(st), 0)
  }

  datatype Resolution = Ready(st: CertificateStatus, ref: SignerRef) | NotReady(st: CertificateStatus) | Failed

  function Resolve(cfg: Config, w: World, n: Name, base: CertificateStatus): Resolution
    requires n in cfg.certificates
  {
    var spec := cfg.certificates[n];
    var m := spec.issuerName;
    match spec.issuerKind
    case CertificateKind =>
      if m !in w.certs || w.certs[m].None? then Failed
      else
        var issuer := w.certs[m].value;
        var keySecret := if issuer.keyExists then issuer.key.secret else None;
        var certSecret := if issuer.certExists then issuer.cert.secret else None;
        var ready := keySecret.Some? && (m == n || certSecret.Some?);
        var st := WithCertificateIssuer(spec, base, ready, w.clock);
        if ready then Ready(st, SignerRef(keySecret.value, certSecret, m == n)) else NotReady(st)
    case ExternalKind =>
      if m !in w.externals || w.externals[m].None? then Failed
      else
        var issuer := w.externals[m].value;
        var keySecret := if issuer.keyExists then issuer.key.secret else None;
        var certSecret := if issuer.certExists then issuer.cert.secret else None;
        var st := WithExternalIssuer(spec, base, keySecret.Some?, w.clock);
        if keySecret.Some? then Ready(st, SignerRef(keySecret.value, certSecret, false)) else NotReady(st)
    case OtherKind(_) => Failed
  }

  function ReadKey(w: World, s: SecretName): Option<Key> {
    if s in w.secrets then w.secrets[s].key else None
  }

  function ReadCert(w: World, s: SecretName): Option<Cert> {
    if s in w.secrets then w.secrets[s].cert else None
  }

  /** The next API call of the pass on `n`; `d` separates the clock readings that give the start
      and the end of a validity period. */
  function Continue(cfg: Config, w: World, n: Name, d: nat): Effect
    requires n in cfg.certificates && n in w.passes
  {
    var spec := cfg.certificates[n];
    match w.passes[n]
    case Resolving(base) =>
      (match Resolve(cfg, w, n, base)
       case Ready(st, ref) => Proceed(ReadingSignerKey(base, st, ref), 0)
       case NotReady(st) => Proceed(Publishing(st, None), 0)
       case Failed => Fail(0))
    case ReadingSignerKey(base, st, ref) =>
      (match ReadKey(w, ref.keySecret)
       case Some(k) => Proceed(ReadingOwnKey(base, st, ref, k), 0)
       case None => Fail(0))
    case ReadingOwnKey(base, st, ref, signerKey) =>
      if base.key.secret.None? || ReadKey(w, base.key.secret.value).None? then Fail(0)
      else
        var own := ReadKey(w, base.key.secret.value).value;
        var now := w.clock + d;
        var cert := Cert(own, signerKey, Trunc(w.clock), Trunc(now + Interval(spec)));
        Proceed(ReadingSignerCert(base, st, ref, cert, now), d)
    case ReadingSignerCert(base, st, ref, cert, at) =>
      (match ref.certSecret
       case Some(s) =>
         (match ReadCert(w, s)
          case Some(c) => Proceed(WritingCert(base, st, cert, c, at), 0)
          case None => Fail(0))
       case None => if ref.selfSigned then Proceed(WritingCert(base, st, cert, cert, at), 0) else Fail(0))
    case WritingCert(_, st, cert, signerCert, at) =>
      ApplyCertSecret(Secret(None, Some(cert), Some(signerCert)),
                      Publishing(WithCert(spec, n, st, cert, w.clock), Some(at)))
    case Publishing(st, at) => PatchStatus(st, at)
  }

  // ---------------------------------------------------------------------------------------
  // Steps and runs
  // ---------------------------------------------------------------------------------------

  datatype Action =
    | Tick(d: nat)
    | CreateCertificate(n: Name)
    | CreateExternal(n: Name)
    | WriteSecret(s: SecretName, secret: Secret)
    | DeleteSecret(s: SecretName)
    | BeginPass(n: Name, d: nat)
    | ContinuePass(n: Name, d: nat)
    | Crash(n: Name)
    | BeginExternal(n: Name)
    | PublishExternal(n: Name)

  /** One step of the world. An action that is not enabled changes nothing. */
  function Step(cfg: Config, w: World, a: Action): World {
    match a
    case Tick(d) => w.(clock := w.clock + d)
    case CreateCertificate(n) =>
      if n in cfg.certificates && n !in w.certs then w.(certs := w.certs[n := None]) else w
    case CreateExternal(n) =>
      if n in cfg.externals && n !in w.externals then w.(externals := w.externals[n := None]) else w
    case WriteSecret(s, secret) =>
      if s in cfg.userSecrets then w.(secrets := w.secrets[s := secret]) else w
    case DeleteSecret(s) =>
      if s in cfg.userSecrets then w.(secrets := w.secrets - {s}) else w
    case BeginPass(n, d) =>
      if n in cfg.certificates && n in w.certs && n !in w.passes then Apply(w, n, Begin(cfg, w, n, d)) else w
    case ContinuePass(n, d) =>
      if n in cfg.certificates && n in w.passes then Apply(w, n, Continue(cfg, w, n, d)) else w
    case Crash(n) => w.(passes := w.passes - {n})
    case BeginExternal(n) =>
      if n in cfg.externals && n in w.externals && n !in w.externalPasses && cfg.externals[n].secretName in w.secrets then
        w.(externalPasses := w.externalPasses[n :=
             Observed(cfg.externals[n], w.externals[n].GetOr(DEFAULT_EXTERNAL), w.secrets[cfg.externals[n].secretName], w.clock)])
      else w
    case PublishExternal(n) =>
      if n in w.externals && n in w.externalPasses then
        w.(externals := w.externals[n := Some(w.externalPasses[n])], externalPasses := w.externalPasses - {n})
      else w
  }

  function Run(cfg: Config, w: World, actions: seq<Action>): World
    decreases |actions|
  {
    if actions == [] then w else Run(cfg, Step(cfg, w, actions[0]), actions[1..])
  }

  lemma {:induction false} RunSplit(cfg: Config, w: World, a: seq<Action>, b: seq<Action>)
    ensures Run(cfg, w, a + b) == Run(cfg, Run(cfg, w, a), b)
    decreases |a|
  {
    if a == [] {
      assert a + b == b;
    } else {
      assert (a + b)[1..] == a[1..] + b;
      RunSplit(cfg, Step(cfg, w, a[0]), a[1..], b);
    }
  }
}
