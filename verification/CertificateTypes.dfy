/** Certificates, external certificates and the Secrets that hold their keys, after
    src/cert_controller/types.rs, with the status computations of
    src/cert_controller/reconcile.rs and src/ext_cert_controller/reconcile.rs. */
module CertificateTypes {
  import opened Wrappers
  import opened Conditions

  /** Clock readings and durations are counted in nanoseconds. */
  const SECOND: int := 1_000_000_000
  const DAY: int := 24 * 60 * 60 * SECOND

  /** Largest duration chrono can hold: i64::MAX milliseconds. */
  const MAX_DURATION: int := 0x7FFF_FFFF_FFFF_FFFF * 1_000_000

  /** A key made by `ndnd sec keygen`, or one brought in by a user's Secret. */
  datatype Key = Generated(serial: nat) | Imported(id: nat)

  datatype Cert = Cert(subject: Key, signer: Key, notBefore: Time, notAfter: Time)

  /** Names of Secrets. `KeySecret(n)` and `CertSecret(n)` are the names the controller derives. */
  datatype SecretName = KeySecret(owner: Name) | CertSecret(owner: Name) | Plain(name: string)

  /** The entries ndn.key, ndn.cert and signer.cert of a Secret, already decoded. */
  datatype Secret = Secret(key: Option<Key>, cert: Option<Cert>, signerCert: Option<Cert>)

  datatype IssuerKind = CertificateKind | ExternalKind | OtherKind(kind: string)

  datatype CertificateSpec = CertificateSpec(
    issuerKind: IssuerKind,
    issuerName: Name,
    renewBefore: Option<nat>,
    renewInterval: Option<nat>,
    generation: int)

  datatype ExternalSpec = ExternalSpec(secretName: SecretName, generation: int)

  /** The condition types these controllers write. */
  datatype ConditionType = TypeReady | TypeKeyReady | TypeCertReady | TypeIssuerReady | TypeRenewalRequired | TypeIssuing

  type ConditionsField = ConditionList<ConditionType>

  /** `name` stands for the NDN name, which identifies the key. */
  datatype KeyStatus = KeyStatus(name: Option<Key>, secret: Option<SecretName>)

  datatype CertStatus = CertStatus(
    name: Option<Key>,
    signerKey: Option<Key>,
    issuedAt: Option<Time>,
    validUntil: Option<Time>,
    secret: Option<SecretName>,
    valid: bool)

  datatype CertificateStatus = CertificateStatus(
    key: KeyStatus,
    cert: CertStatus,
    keyExists: bool,
    certExists: bool,
    needsRenewal: bool,
    conditions: ConditionsField)

  datatype ExternalStatus = ExternalStatus(
    key: KeyStatus,
    cert: CertStatus,
    keyExists: bool,
    certExists: bool,
    conditions: ConditionsField)

  const NO_KEY := KeyStatus(None, None)
  const NO_CERT := CertStatus(None, None, None, None, None, false)
  const DEFAULT_STATUS := CertificateStatus(NO_KEY, NO_CERT, false, false, false, None)
  const DEFAULT_EXTERNAL := ExternalStatus(NO_KEY, NO_CERT, false, false, None)

  /** How a derived Secret name is spelled. */
  function Render(s: SecretName): string {
    match s
    case KeySecret(n) => n.text + "-key"
    case CertSecret(n) => n.text + "-cert"
    case Plain(p) => p
  }

  predicate EndsWith(s: string, suffix: string) {
    |suffix| <= |s| && s[|s| - |suffix|..] == suffix
  }

  /** A name is spelled in one way only: a plain name is one no Certificate derives. */
  predicate Spelled(s: SecretName) {
    s.Plain? ==> !EndsWith(s.name, "-key") && !EndsWith(s.name, "-cert")
  }

  lemma RenderShape(s: SecretName)
    ensures s.KeySecret? ==> EndsWith(Render(s), "-key") && Render(s)[|Render(s)| - 1] == 'y'
    ensures s.CertSecret? ==> EndsWith(Render(s), "-cert") && Render(s)[|Render(s)| - 1] == 't'
    ensures !s.Plain? ==> s.owner.text == Render(s)[..|Render(s)| - (if s.KeySecret? then 4 else 5)]
  {
  }

  lemma RenderIsInjective(a: SecretName, b: SecretName)
    requires Spelled(a) && Spelled(b) && Render(a) == Render(b)
    ensures a == b
  {
    RenderShape(a);
    RenderShape(b);
  }

  // ---------------------------------------------------------------------------------------
  // Durations
  // ---------------------------------------------------------------------------------------

  /** Dates are written to whole seconds when a certificate is signed. */
  function Trunc(t: Time): (r: Time)
    ensures r <= t < r + SECOND && r % SECOND == 0
  {
    t - t % SECOND
  }

  /** `chrono::Duration::from_std`. */
  function FromStd(d: nat): Option<nat> {
    if d <= MAX_DURATION then Some(d) else None
  }

  /** Validity period handed to the signer; a duration out of range becomes zero. */
  function Interval(spec: CertificateSpec): nat {
    FromStd(spec.renewInterval.GetOr(30 * DAY)).GetOr(0)
  }

  function Before(spec: CertificateSpec): Option<nat> {
    FromStd(spec.renewBefore.GetOr(7 * DAY))
  }

  // ---------------------------------------------------------------------------------------
  // Status computations
  // ---------------------------------------------------------------------------------------

  predicate KeyReady(st: CertificateStatus) {
    st.keyExists && st.key.secret.Some?
  }

  predicate CertReady(st: CertificateStatus) {
    st.certExists && st.cert.valid && st.cert.secret.Some?
  }

  function MissingMessage(keyReady: bool, certReady: bool): string {
    if keyReady && certReady then ""
    else "Missing prerequisites: "
         + (if keyReady then "" else "Key")
         + (if !keyReady && !certReady then ", " else "")
         + (if certReady then "" else "Cert")
  }

  function RenewalCondition(cs: ConditionsField, needed: bool, generation: int, now: Time): ConditionsField {
    PutBool(cs, TypeRenewalRequired, needed, if needed then "RenewalWindow" else "NotInWindow", "", generation, now)
  }

  function WithAvailability(generation: int, st: CertificateStatus, now: Time): CertificateStatus {
    var c1 := PutBool(st.conditions, TypeKeyReady, KeyReady(st),
                      if KeyReady(st) then "KeyAvailable" else "KeyMissing", "", generation, now);
    var c2 := PutBool(c1, TypeCertReady, CertReady(st),
                      if CertReady(st) then "CertAvailable" else "CertMissingOrInvalid", "", generation, now);
    var ready := KeyReady(st) && CertReady(st);
    st.(conditions := PutBool(c2, TypeReady, ready, if ready then "Ready" else "PrerequisitesNotReady",
                              MissingMessage(KeyReady(st), CertReady(st)), generation, now))
  }

  /** The (true, true, false) branch: `requeueAt` is the reading that schedules the next pass and
      `now` the later one that validates. None when the branch returns an error. */
  function Validated(spec: CertificateSpec, st: CertificateStatus, requeueAt: Time, now: Time): Option<CertificateStatus> {
    if st.cert.validUntil.None? || st.cert.validUntil.value < requeueAt || Before(spec).None? then None
    else
      var until := st.cert.validUntil.value;
      var needed := until - Before(spec).value <= now;
      var st1 := st.(cert := st.cert.(valid := until > now), needsRenewal := needed);
      var st2 := st1.(conditions := RenewalCondition(st1.conditions, needed, spec.generation, now));
      Some(WithAvailability(spec.generation, st2, now))
  }

  /** The working copy of the conditions that `reconcile` makes and never patches. */
  function Working(spec: CertificateSpec, st: CertificateStatus, now: Time): ConditionsField {
    var renewal := RenewalCondition(st.conditions, st.needsRenewal, spec.generation, now);
    if !st.keyExists then renewal
    else if !st.certExists then PutBool(renewal, TypeIssuing, true, "Issuing", "Issuing certificate", spec.generation, now)
    else if st.needsRenewal then PutBool(renewal, TypeIssuing, true, "Renewing", "Renewal is in progress", spec.generation, now)
    else renewal
  }

  function WithKey(spec: CertificateSpec, n: Name, st: CertificateStatus, key: Key, now: Time): CertificateStatus {
    st.(key := KeyStatus(Some(key), Some(KeySecret(n))),
        keyExists := true,
        conditions := PutBool(st.conditions, TypeKeyReady, true, "KeyGenerated", "Key secret created", spec.generation, now))
  }

  function WithCert(spec: CertificateSpec, n: Name, st: CertificateStatus, cert: Cert, now: Time): CertificateStatus {
    var st1 := st.(cert := CertStatus(Some(cert.subject), Some(cert.signer), Some(cert.notBefore), Some(cert.notAfter),
                                      Some(CertSecret(n)), true),
                   certExists := true,
                   needsRenewal := false,
                   conditions := RenewalCondition(st.conditions, false, spec.generation, now));
    var st2 := WithAvailability(spec.generation, st1, now);
    st2.(conditions := PutBool(st2.conditions, TypeIssuing, false, "Renewed", "Certificate (re)issued", spec.generation, now))
  }

  function WithCertificateIssuer(spec: CertificateSpec, st: CertificateStatus, ready: bool, now: Time): CertificateStatus {
    st.(conditions := PutBool(st.conditions, TypeIssuerReady, ready, if ready then "IssuerResolved" else "IssuerNotReady",
                              if ready then "Certificate issuer is ready to sign"
                              else "Certificate issuer key or certificate is not available yet",
                              spec.generation, now))
  }

  function WithExternalIssuer(spec: CertificateSpec, st: CertificateStatus, ready: bool, now: Time): CertificateStatus {
    st.(conditions := PutBool(st.conditions, TypeIssuerReady, ready, if ready then "IssuerResolved" else "IssuerMissingKey",
                              if ready then "ExternalIssuer status available"
                              else "ExternalCertificate issuer has no key; cannot sign",
                              spec.generation, now))
  }

  predicate ExternalCertReady(st: ExternalStatus) {
    st.certExists && st.cert.valid && st.cert.secret.Some?
  }

  function WithExternalAvailability(generation: int, st: ExternalStatus, now: Time): ExternalStatus {
    var keyReady := st.keyExists && st.key.secret.Some?;
    var ready := ExternalCertReady(st);
    var c1 := PutBool(st.conditions, TypeKeyReady, keyReady, if keyReady then "KeyAvailable" else "KeyMissing", "", generation, now);
    var c2 := PutBool(c1, TypeCertReady, ready, if ready then "CertAvailable" else "CertMissingOrInvalid", "", generation, now);
    st.(conditions := PutBool(c2, TypeReady, ready, if ready then "Ready" else "PrerequisitesNotReady", "", generation, now))
  }

  /** The status an ExternalCertificate pass computes from its Secret. */
  function Observed(spec: ExternalSpec, st: ExternalStatus, secret: Secret, now: Time): ExternalStatus {
    var st1 :=
      match secret.key
      case Some(k) => st.(key := KeyStatus(Some(k), Some(spec.secretName)), keyExists := true)
      case None => st.(keyExists := false);
    var st2 :=
      match secret.cert
      case Some(c) =>
        st1.(cert := CertStatus(Some(c.subject), Some(c.signer), Some(c.notBefore), Some(c.notAfter),
                                Some(spec.secretName), c.notAfter > now),
             certExists := true)
      case None => st1.(certExists := false, cert := st1.cert.(valid := false));
    WithExternalAvailability(spec.generation, st2, now)
  }
}
