/** What every step of the certificate controller keeps, in every interleaving and with a
    crash at any point. */
module CertificateSafety {
  import opened Wrappers
  import opened Conditions
  import opened CertificateTypes
  import opened CertificateWorld

  // ---------------------------------------------------------------------------------------
  // Statuses
  // ---------------------------------------------------------------------------------------

  /** What a reader of the conditions may rely on. */
  predicate FlagsOk(st: CertificateStatus) {
    var ready := Flag(st.conditions, TypeReady);
    var renewal := Flag(st.conditions, TypeRenewalRequired);
    && (ready.Some? ==> (ready.value <==> KeyReady(st) && CertReady(st)))
    && (renewal.Some? ==> (renewal.value <==> st.needsRenewal))
    && Flag(st.conditions, TypeIssuing) != Some(true)
    && (!st.keyExists ==> ready.None?)
  }

  predicate StatusOk(n: Name, st: CertificateStatus) {
    && (st.keyExists <==> st.key.secret.Some?)
    && (st.keyExists ==> st.key.secret == Some(KeySecret(n)) && st.key.name.Some?)
    && (st.certExists <==> st.cert.secret.Some?)
    && (st.certExists ==> st.keyExists && st.cert.secret == Some(CertSecret(n)) && st.cert.validUntil.Some?)
    && (st.needsRenewal ==> st.certExists)
    && FlagsOk(st)
  }

  lemma WithKeyOk(spec: CertificateSpec, n: Name, st: CertificateStatus, key: Key, now: Time)
    requires StatusOk(n, st) && !st.keyExists
    ensures var st' := WithKey(spec, n, st, key, now);
            StatusOk(n, st') && st'.keyExists && st'.key.name == Some(key) && st'.certExists == st.certExists
  {
  }

  lemma ValidatedOk(spec: CertificateSpec, n: Name, st: CertificateStatus, requeueAt: Time, now: Time)
    requires StatusOk(n, st) && st.keyExists && st.certExists && Validated(spec, st, requeueAt, now).Some?
    ensures var st' := Validated(spec, st, requeueAt, now).value;
            StatusOk(n, st') && st'.keyExists && st'.certExists && st'.key == st.key
  {
  }

  lemma WithCertOk(spec: CertificateSpec, n: Name, st: CertificateStatus, cert: Cert, now: Time)
    requires StatusOk(n, st) && st.keyExists
    ensures var st' := WithCert(spec, n, st, cert, now);
            StatusOk(n, st') && st'.keyExists && st'.certExists && st'.key == st.key
  {
  }

  lemma WithIssuerOk(spec: CertificateSpec, n: Name, st: CertificateStatus, ready: bool, now: Time)
    requires StatusOk(n, st)
    ensures StatusOk(n, WithCertificateIssuer(spec, st, ready, now))
    ensures StatusOk(n, WithExternalIssuer(spec, st, ready, now))
    ensures WithCertificateIssuer(spec, st, ready, now) == st.(conditions := WithCertificateIssuer(spec, st, ready, now).conditions)
    ensures WithExternalIssuer(spec, st, ready, now) == st.(conditions := WithExternalIssuer(spec, st, ready, now).conditions)
  {
  }

  // ---------------------------------------------------------------------------------------
  // The world
  // ---------------------------------------------------------------------------------------

  function KeyOf(w: World, n: Name): Option<Key> {
    ReadKey(w, KeySecret(n))
  }

  /** A Certificate's issuer that is a Certificate signs with its own key. */
  predicate SignerOk(cfg: Config, w: World, n: Name, signer: Key)
    requires n in cfg.certificates
  {
    var m := cfg.certificates[n].issuerName;
    cfg.certificates[n].issuerKind.CertificateKind? ==> m in cfg.certificates && KeyOf(w, m) == Some(signer)
  }

  /** And the certificate stored as signer.cert is then for that key. Of an ExternalCertificate nothing
      of the kind is known: its Secret holds what users have written. */
  predicate SealOk(cfg: Config, w: World, n: Name, cert: Cert, signerCert: Cert)
    requires n in cfg.certificates
  {
    && SignerOk(cfg, w, n, cert.signer)
    && (cfg.certificates[n].issuerKind.CertificateKind? ==> signerCert.subject == cert.signer)
  }

  predicate SelfSigned(cfg: Config, n: Name)
    requires n in cfg.certificates
  {
    cfg.certificates[n].issuerKind.CertificateKind? && cfg.certificates[n].issuerName == n
  }

  predicate SecretOk(cfg: Config, w: World, s: SecretName)
    requires s in w.secrets
  {
    var x := w.secrets[s];
    s !in cfg.userSecrets ==>
      && !s.Plain? && s.owner in w.certs && s.owner in cfg.certificates
      && (s.KeySecret? ==>
            && x.cert.None? && x.signerCert.None?
            && x.key.Some? && x.key.value.Generated? && x.key.value.serial < w.nextKey)
      && (s.CertSecret? ==>
            && x.key.None? && x.cert.Some? && x.signerCert.Some?
            && KeyOf(w, s.owner) == Some(x.cert.value.subject)
            && SealOk(cfg, w, s.owner, x.cert.value, x.signerCert.value))
  }

  predicate CertOk(cfg: Config, w: World, n: Name) {
    var st := StatusOf(w, n);
    && n in cfg.certificates
    && StatusOk(n, st)
    && (st.keyExists ==> KeyOf(w, n) == st.key.name)
    && (st.certExists ==> CertSecret(n) in w.secrets)
  }

  /** The signer a pass resolved is the issuer its spec names, and that issuer can sign. */
  predicate RefOk(cfg: Config, w: World, n: Name, ref: SignerRef)
    requires n in cfg.certificates
  {
    var m := cfg.certificates[n].issuerName;
    match cfg.certificates[n].issuerKind
    case CertificateKind =>
      && m in w.certs
      && StatusOf(w, m).keyExists
      && ref.keySecret == KeySecret(m)
      && (ref.certSecret.Some? ==> ref.certSecret.value == CertSecret(m) && StatusOf(w, m).certExists)
      && (ref.selfSigned <==> m == n)
      && (m != n ==> ref.certSecret.Some?)
      && (m == n ==> (ref.certSecret.Some? <==> StatusOf(w, n).certExists))
    case ExternalKind =>
      && m in w.externals && m in cfg.externals
      && ref.keySecret == cfg.externals[m].secretName
      && (ref.certSecret.Some? ==> ref.certSecret.value == cfg.externals[m].secretName)
      && !ref.selfSigned
    case OtherKind(_) => false
  }

  /** The issuer of `n` is itself, an ExternalCertificate, or a Certificate already issued. */
  predicate IssuerOk(cfg: Config, w: World, n: Name)
    requires n in cfg.certificates
  {
    var m := cfg.certificates[n].issuerName;
    match cfg.certificates[n].issuerKind
    case CertificateKind => m in w.certs && (m == n || StatusOf(w, m).certExists)
    case ExternalKind => m in w.externals
    case OtherKind(_) => false
  }

  /** An issuing pass works on the current status and changes only its conditions until it has signed. */
  predicate BaseOk(w: World, n: Name, base: CertificateStatus, st: CertificateStatus) {
    && base == StatusOf(w, n)
    && base.keyExists
    && (base.certExists ==> base.needsRenewal)
    && st == base.(conditions := st.conditions)
    && StatusOk(n, st)
  }

  predicate PassOk(cfg: Config, w: World, n: Name, p: Pass) {
    && n in cfg.certificates && n in w.certs
    && match p
       case Resolving(base) => BaseOk(w, n, base, base)
       case ReadingSignerKey(base, st, ref) => BaseOk(w, n, base, st) && RefOk(cfg, w, n, ref)
       case ReadingOwnKey(base, st, ref, signerKey) =>
         && BaseOk(w, n, base, st) && RefOk(cfg, w, n, ref)
         && SignerOk(cfg, w, n, signerKey)
       case ReadingSignerCert(base, st, ref, cert, _) =>
         && BaseOk(w, n, base, st) && RefOk(cfg, w, n, ref)
         && SignerOk(cfg, w, n, cert.signer)
         && KeyOf(w, n) == Some(cert.subject)
       case WritingCert(base, st, cert, signerCert, _) =>
         && BaseOk(w, n, base, st) && IssuerOk(cfg, w, n)
         && KeyOf(w, n) == Some(cert.subject)
         && SealOk(cfg, w, n, cert, signerCert)
         && (SelfSigned(cfg, n) ==> Some(signerCert) == if base.certExists then ReadCert(w, CertSecret(n)) else Some(cert))
       case Publishing(st, _) =>
         && StatusOk(n, st) && st.keyExists
         && KeyOf(w, n) == st.key.name
         && (st.certExists ==> CertSecret(n) in w.secrets)
         && (StatusOf(w, n).certExists ==> st.certExists)
  }

  predicate ExternalOk(cfg: Config, n: Name, st: ExternalStatus) {
    && n in cfg.externals
    && (st.key.secret.Some? ==> st.key.secret.value == cfg.externals[n].secretName)
    && (st.cert.secret.Some? ==> st.cert.secret.value == cfg.externals[n].secretName)
    && Flag(st.conditions, TypeReady) == Flag(st.conditions, TypeCertReady)
    && (Flag(st.conditions, TypeReady).Some? ==>
          (Flag(st.conditions, TypeReady).value <==> ExternalCertReady(st)))
  }

  ghost predicate CertsOk(cfg: Config, w: World) {
    forall n :: n in w.certs ==> CertOk(cfg, w, n)
  }

  ghost predicate SecretsOk(cfg: Config, w: World) {
    forall s :: s in w.secrets ==> SecretOk(cfg, w, s)
  }

  ghost predicate PassesOk(cfg: Config, w: World) {
    forall n :: n in w.passes ==> PassOk(cfg, w, n, w.passes[n])
  }

  ghost predicate ExternalsOk(cfg: Config, w: World) {
    && (forall n :: n in w.externals && w.externals[n].Some? ==> ExternalOk(cfg, n, w.externals[n].value))
    && (forall n :: n in w.externalPasses ==> n in w.externals && ExternalOk(cfg, n, w.externalPasses[n]))
  }

  /** No two Certificates were given the same key. */
  ghost predicate KeysDistinct(w: World) {
    forall m, n :: m in w.certs && n in w.certs && KeyOf(w, m).Some? && KeyOf(w, m) == KeyOf(w, n) ==> m == n
  }

  /** The invariant of the certificate controllers. */
  ghost predicate Inv(cfg: Config, w: World) {
    && CertsOk(cfg, w)
    && SecretsOk(cfg, w)
    && PassesOk(cfg, w)
    && ExternalsOk(cfg, w)
    && KeysDistinct(w)
  }

  /** What never goes away: objects, key and certificate existence, keys, issued Secrets. */
  ghost predicate Grows(cfg: Config, w: World, w': World) {
    && (forall n :: n in w.certs ==> n in w'.certs)
    && (forall n :: n in w.externals ==> n in w'.externals)
    && (forall n :: n in w.certs && StatusOf(w, n).keyExists ==> StatusOf(w', n).keyExists)
    && (forall n :: n in w.certs && StatusOf(w, n).certExists ==> StatusOf(w', n).certExists)
    && (forall n :: n in cfg.certificates && KeyOf(w, n).Some? ==> KeyOf(w', n) == KeyOf(w, n))
    && (forall n :: n in cfg.certificates && CertSecret(n) in w.secrets ==> CertSecret(n) in w'.secrets)
    && w.nextKey <= w'.nextKey
  }

  lemma StoreKept(cfg: Config, w: World, w': World)
    requires w'.certs == w.certs && w'.externals == w.externals && w'.secrets == w.secrets && w'.nextKey == w.nextKey
    ensures Grows(cfg, w, w')
  {
  }

  lemma SecretAdded(cfg: Config, w: World, w': World, s: SecretName, x: Secret)
    requires w'.certs == w.certs && w'.externals == w.externals && w.nextKey <= w'.nextKey
    requires w'.secrets == w.secrets[s := x]
    requires !s.Plain? && s.owner in cfg.certificates ==> s.CertSecret? || s !in w.secrets
    ensures Grows(cfg, w, w')
  {
  }

  lemma SecretRemoved(cfg: Config, w: World, w': World, s: SecretName)
    requires w'.certs == w.certs && w'.externals == w.externals && w.nextKey == w'.nextKey
    requires w'.secrets == w.secrets - {s}
    requires s.Plain? || s.owner !in cfg.certificates
    ensures Grows(cfg, w, w')
  {
  }

  lemma StatusSet(cfg: Config, w: World, w': World, n: Name, st: Option<CertificateStatus>)
    requires w'.certs == w.certs[n := st] && w'.externals == w.externals
    requires w'.secrets == w.secrets && w.nextKey == w'.nextKey
    requires StatusOf(w, n).keyExists ==> st.GetOr(DEFAULT_STATUS).keyExists
    requires StatusOf(w, n).certExists ==> st.GetOr(DEFAULT_STATUS).certExists
    ensures Grows(cfg, w, w')
  {
  }

  /** What a step of a pass must guarantee about the write it makes and about where it goes on. */
  predicate EffectOk(cfg: Config, w: World, n: Name, e: Effect) {
    && n in cfg.certificates && n in w.certs
    && match e
       case Proceed(p, _) => PassOk(cfg, w, n, p)
       case Fail(_) => true
       case CreateKeySecret(p) =>
         && KeySecret(n) !in w.secrets
         && p.Publishing? && StatusOk(n, p.st) && p.st.keyExists && !p.st.certExists
         && p.st.key.name == Some(Generated(w.nextKey))
         && !StatusOf(w, n).certExists
       case ApplyCertSecret(x, p) =>
         && x.key.None? && x.cert.Some? && x.signerCert.Some?
         && KeyOf(w, n) == Some(x.cert.value.subject)
         && SealOk(cfg, w, n, x.cert.value, x.signerCert.value)
         && IssuerOk(cfg, w, n)
         && p.Publishing? && StatusOk(n, p.st) && p.st.certExists && p.st.key.name == KeyOf(w, n)
       case PatchStatus(st, at) => PassOk(cfg, w, n, Publishing(st, at))
  }

  lemma BeginOk(cfg: Config, w: World, n: Name, d: nat)
    requires n in w.certs && CertOk(cfg, w, n)
    ensures EffectOk(cfg, w, n, Begin(cfg, w, n, d))
  {
    hide FlagsOk, Validated, WithKey, PutBool;
    var spec := cfg.certificates[n];
    var st := StatusOf(w, n);
    if !st.keyExists {
      if KeySecret(n) !in w.secrets {
        WithKeyOk(spec, n, st, Generated(w.nextKey), w.clock);
      }
    } else if st.certExists && !st.needsRenewal {
      match Validated(spec, st, w.clock, w.clock + d) {
        case None =>
        case Some(st1) => ValidatedOk(spec, n, st, w.clock, w.clock + d);
      }
    }
  }

  lemma ResolveOk(cfg: Config, w: World, n: Name, base: CertificateStatus)
    requires n in w.certs && CertOk(cfg, w, n) && BaseOk(w, n, base, base)
    requires cfg.certificates[n].issuerName in w.certs ==> CertOk(cfg, w, cfg.certificates[n].issuerName)
    requires ExternalsOk(cfg, w)
    ensures match Resolve(cfg, w, n, base)
            case Ready(st, ref) => BaseOk(w, n, base, st) && RefOk(cfg, w, n, ref)
            case NotReady(st) => BaseOk(w, n, base, st)
            case Failed => true
  {
    hide FlagsOk, WithCertificateIssuer, WithExternalIssuer, PutBool;
    var spec := cfg.certificates[n];
    forall ready: bool {
      WithIssuerOk(spec, n, base, ready, w.clock);
    }
  }

  lemma CertStable(cfg: Config, w: World, w': World, n: Name)
    requires n in w.certs && CertOk(cfg, w, n) && Grows(cfg, w, w') && StatusOf(w', n) == StatusOf(w, n)
    ensures CertOk(cfg, w', n)
  {
  }

  lemma RefStable(cfg: Config, w: World, w': World, n: Name, ref: SignerRef)
    requires n in cfg.certificates && RefOk(cfg, w, n, ref) && Grows(cfg, w, w') && StatusOf(w', n) == StatusOf(w, n)
    ensures RefOk(cfg, w', n, ref)
  {
  }

  lemma PassStable(cfg: Config, w: World, w': World, n: Name, p: Pass)
    requires PassOk(cfg, w, n, p) && Grows(cfg, w, w') && StatusOf(w', n) == StatusOf(w, n)
    requires ReadCert(w', CertSecret(n)) == ReadCert(w, CertSecret(n))
    ensures PassOk(cfg, w', n, p)
  {
    hide FlagsOk;
    match p {
      case ReadingSignerKey(base, st, ref) => RefStable(cfg, w, w', n, ref);
      case ReadingOwnKey(base, st, ref, signerKey) => RefStable(cfg, w, w', n, ref);
      case ReadingSignerCert(base, st, ref, cert, at) => RefStable(cfg, w, w', n, ref);
      case _ =>
    }
  }

  lemma SecretStable(cfg: Config, w: World, w': World, s: SecretName)
    requires s in w.secrets && SecretOk(cfg, w, s) && Grows(cfg, w, w')
    requires s in w'.secrets && w'.secrets[s] == w.secrets[s]
    ensures SecretOk(cfg, w', s)
  {
  }

  lemma ResolvingOk(cfg: Config, w: World, n: Name, d: nat)
    requires CertsOk(cfg, w) && ExternalsOk(cfg, w) && n in w.passes && w.passes[n].Resolving?
    requires PassOk(cfg, w, n, w.passes[n])
    ensures EffectOk(cfg, w, n, Continue(cfg, w, n, d))
  {
    hide FlagsOk, Resolve, PutBool, RefOk, ExternalsOk;
    var base := w.passes[n].base;
    assert CertOk(cfg, w, n);
    ResolveOk(cfg, w, n, base);
    match Resolve(cfg, w, n, base) {
      case Ready(st, ref) =>
      case NotReady(st) =>
      case Failed =>
    }
  }

  lemma SignerKeyOk(cfg: Config, w: World, n: Name, d: nat)
    requires CertsOk(cfg, w) && n in w.passes && w.passes[n].ReadingSignerKey?
    requires PassOk(cfg, w, n, w.passes[n])
    ensures EffectOk(cfg, w, n, Continue(cfg, w, n, d))
  {
    hide FlagsOk, PutBool, StatusOk;
    var m := cfg.certificates[n].issuerName;
    assert cfg.certificates[n].issuerKind.CertificateKind? ==> CertOk(cfg, w, m);
  }

  lemma OwnKeyOk(cfg: Config, w: World, n: Name, d: nat)
    requires n in w.passes && w.passes[n].ReadingOwnKey?
    requires PassOk(cfg, w, n, w.passes[n])
    ensures EffectOk(cfg, w, n, Continue(cfg, w, n, d))
  {
    hide FlagsOk, PutBool, RefOk, SignerOk, Trunc, Interval;
  }

  lemma SealingOk(cfg: Config, w: World, n: Name, d: nat)
    requires ValidConfig(cfg) && Inv(cfg, w) && n in w.passes && w.passes[n].ReadingSignerCert?
    requires PassOk(cfg, w, n, w.passes[n])
    ensures EffectOk(cfg, w, n, Continue(cfg, w, n, d))
  {
    hide FlagsOk, PutBool, RefOk, Inv, IssuerOk, SealOk, SignerOk;
    SignerCertOk(cfg, w, n, w.passes[n].ref, w.passes[n].cert);
  }

  lemma WritingOk(cfg: Config, w: World, n: Name, d: nat)
    requires CertsOk(cfg, w) && n in w.passes && (w.passes[n].WritingCert? || w.passes[n].Publishing?)
    requires PassOk(cfg, w, n, w.passes[n])
    ensures EffectOk(cfg, w, n, Continue(cfg, w, n, d))
  {
    hide FlagsOk, PutBool, RefOk, SealOk, WithCert, IssuerOk;
    match w.passes[n] {
      case WritingCert(base, st, cert, signerCert, at) =>
        assert CertOk(cfg, w, n);
        WithCertOk(cfg.certificates[n], n, st, cert, w.clock);
      case Publishing(_, _) =>
    }
  }

  lemma ContinueOk(cfg: Config, w: World, n: Name, d: nat)
    requires ValidConfig(cfg) && Inv(cfg, w) && n in w.passes
    ensures n in cfg.certificates && EffectOk(cfg, w, n, Continue(cfg, w, n, d))
  {
    PassesHold(cfg, w, n);
    hide Continue, EffectOk, PassOk, CertsOk, SecretsOk, ExternalsOk, KeysDistinct, ValidConfig;
    match w.passes[n] {
      case Resolving(_) => ResolvingOk(cfg, w, n, d);
      case ReadingSignerCert(_, _, _, _, _) => SealingOk(cfg, w, n, d);
      case WritingCert(_, _, _, _, _) => WritingOk(cfg, w, n, d);
      case Publishing(_, _) => WritingOk(cfg, w, n, d);
      case ReadingSignerKey(_, _, _) => SignerKeyOk(cfg, w, n, d);
      case ReadingOwnKey(_, _, _, _) => OwnKeyOk(cfg, w, n, d);
    }
  }

  /** By the time it is read, the certificate of a Certificate issuer certifies the key that signed. */
  lemma SignerCertOk(cfg: Config, w: World, n: Name, ref: SignerRef, cert: Cert)
    requires ValidConfig(cfg) && Inv(cfg, w) && n in w.certs && n in cfg.certificates
    requires RefOk(cfg, w, n, ref)
    requires SignerOk(cfg, w, n, cert.signer) && KeyOf(w, n) == Some(cert.subject)
    ensures IssuerOk(cfg, w, n)
    ensures ref.certSecret.Some? && ReadCert(w, ref.certSecret.value).Some?
            ==> SealOk(cfg, w, n, cert, ReadCert(w, ref.certSecret.value).value)
    ensures ref.certSecret.None? && ref.selfSigned ==> SealOk(cfg, w, n, cert, cert)
    ensures SelfSigned(cfg, n) && ref.certSecret.Some? ==> ref.certSecret.value == CertSecret(n) && StatusOf(w, n).certExists
    ensures SelfSigned(cfg, n) && ref.certSecret.None? ==> !StatusOf(w, n).certExists
  {
    hide FlagsOk, StatusOk, PassOk;
    var m := cfg.certificates[n].issuerName;
    if cfg.certificates[n].issuerKind.CertificateKind? {
      assert CertOk(cfg, w, m);
    }
    if ref.certSecret.Some? && ReadCert(w, ref.certSecret.value).Some? {
      assert SecretOk(cfg, w, ref.certSecret.value);
    }
  }

  // ---------------------------------------------------------------------------------------
  // Every write keeps the invariant
  // ---------------------------------------------------------------------------------------

  lemma ApplyGrows(cfg: Config, w: World, n: Name, e: Effect)
    requires EffectOk(cfg, w, n, e)
    ensures Grows(cfg, w, Apply(w, n, e))
  {
    hide FlagsOk, IssuerOk, RefOk, SealOk, BaseOk;
    match e {
      case Proceed(p, d) => StoreKept(cfg, w, Apply(w, n, e));
      case Fail(d) => StoreKept(cfg, w, Apply(w, n, e));
      case CreateKeySecret(p) => SecretAdded(cfg, w, Apply(w, n, e), KeySecret(n), Secret(Some(Generated(w.nextKey)), None, None));
      case ApplyCertSecret(x, p) => SecretAdded(cfg, w, Apply(w, n, e), CertSecret(n), x);
      case PatchStatus(st, at) => StatusSet(cfg, w, Apply(w, n, e), n, Some(st));
    }
  }

  lemma ApplyKeepsPasses(cfg: Config, w: World, n: Name, e: Effect)
    requires PassesOk(cfg, w) && EffectOk(cfg, w, n, e)
    ensures PassesOk(cfg, Apply(w, n, e))
  {
    hide FlagsOk, IssuerOk, RefOk, BaseOk, SecretOk;
    var w' := Apply(w, n, e);
    ApplyGrows(cfg, w, n, e);
    forall m | m in w'.passes
      ensures PassOk(cfg, w', m, w'.passes[m])
    {
      if m == n {
        match e {
          case Proceed(p, d) => PassStable(cfg, w, w', n, p);
          case _ =>
        }
      } else {
        PassStable(cfg, w, w', m, w.passes[m]);
      }
    }
  }

  lemma ApplyKeepsSecrets(cfg: Config, w: World, n: Name, e: Effect)
    requires ValidConfig(cfg) && SecretsOk(cfg, w) && EffectOk(cfg, w, n, e)
    ensures SecretsOk(cfg, Apply(w, n, e))
  {
    hide FlagsOk, IssuerOk, RefOk, BaseOk, PassOk;
    var w' := Apply(w, n, e);
    ApplyGrows(cfg, w, n, e);
    forall s | s in w'.secrets
      ensures SecretOk(cfg, w', s)
    {
      if s in w.secrets && w'.secrets[s] == w.secrets[s] {
        SecretStable(cfg, w, w', s);
      }
    }
  }

  lemma ApplyKeepsCerts(cfg: Config, w: World, n: Name, e: Effect)
    requires CertsOk(cfg, w) && EffectOk(cfg, w, n, e)
    ensures CertsOk(cfg, Apply(w, n, e))
  {
    hide FlagsOk, IssuerOk, RefOk, BaseOk, SecretOk;
    var w' := Apply(w, n, e);
    ApplyGrows(cfg, w, n, e);
    forall m | m in w'.certs
      ensures CertOk(cfg, w', m)
    {
      if m != n || !e.PatchStatus? {
        CertStable(cfg, w, w', m);
      }
    }
  }

  lemma ApplyKeepsKeysDistinct(cfg: Config, w: World, n: Name, e: Effect)
    requires ValidConfig(cfg) && SecretsOk(cfg, w) && KeysDistinct(w) && n in cfg.certificates && n in w.certs
    requires CertsOk(cfg, w)
    ensures KeysDistinct(Apply(w, n, e))
  {
    hide SecretsOk, CertsOk;
    var w' := Apply(w, n, e);
    NextKeyIsNew(cfg, w);
    assert forall m :: m != n || !e.CreateKeySecret? ==> KeyOf(w', m) == KeyOf(w, m);
  }

  lemma NextKeyIsNew(cfg: Config, w: World)
    requires ValidConfig(cfg) && SecretsOk(cfg, w) && CertsOk(cfg, w)
    ensures forall m :: m in w.certs && KeyOf(w, m).Some? ==> KeyOf(w, m) != Some(Generated(w.nextKey))
  {
    hide FlagsOk, StatusOk, SealOk;
    forall m | m in w.certs && KeyOf(w, m).Some? ensures KeyOf(w, m) != Some(Generated(w.nextKey)) {
      assert SecretOk(cfg, w, KeySecret(m)) && CertOk(cfg, w, m);
    }
  }

  lemma ApplyInv(cfg: Config, w: World, n: Name, e: Effect)
    requires ValidConfig(cfg) && Inv(cfg, w) && EffectOk(cfg, w, n, e)
    ensures Inv(cfg, Apply(w, n, e))
  {
    hide CertsOk, SecretsOk, PassesOk, KeysDistinct, ValidConfig, PassOk, IssuerOk, StatusOk, BaseOk;
    ApplyKeepsPasses(cfg, w, n, e);
    ApplyKeepsSecrets(cfg, w, n, e);
    ApplyKeepsCerts(cfg, w, n, e);
    ApplyKeepsKeysDistinct(cfg, w, n, e);
  }

  lemma ObservedOk(spec: ExternalSpec, n: Name, st: ExternalStatus, secret: Secret, now: Time, cfg: Config)
    requires n in cfg.externals && cfg.externals[n] == spec && ExternalOk(cfg, n, st)
    ensures ExternalOk(cfg, n, Observed(spec, st, secret, now))
  {
  }

  /** The step leaves existing statuses, passes and operator Secrets as they were. */
  ghost predicate Framed(cfg: Config, w: World, w': World) {
    && (forall n :: n in w'.certs ==> n in cfg.certificates && StatusOf(w', n) == StatusOf(w, n))
    && (forall n :: n in w'.passes ==> n in w.passes && w'.passes[n] == w.passes[n])
    && (forall s :: s in w'.secrets ==>
          || (s in w.secrets && w'.secrets[s] == w.secrets[s])
          || s in cfg.userSecrets)
  }

  lemma FrameInv(cfg: Config, w: World, w': World)
    requires ValidConfig(cfg) && Inv(cfg, w) && Grows(cfg, w, w') && w'.nextKey == w.nextKey
    requires Framed(cfg, w, w') && ExternalsOk(cfg, w')
    ensures Inv(cfg, w')
  {
    hide FlagsOk, RefOk, IssuerOk, BaseOk, KeysDistinct;
    forall n | n in w'.certs ensures CertOk(cfg, w', n) {
      if n in w.certs { CertStable(cfg, w, w', n); } else { DefaultOk(n); }
    }
    forall s | s in w'.secrets ensures SecretOk(cfg, w', s) {
      if s in w.secrets && w'.secrets[s] == w.secrets[s] { SecretStable(cfg, w, w', s); }
    }
    forall n | n in w'.passes ensures PassOk(cfg, w', n, w'.passes[n]) {
      assert PassOk(cfg, w, n, w.passes[n]);
      PassStable(cfg, w, w', n, w.passes[n]);
    }
    FrameKeysDistinct(cfg, w, w');
  }

  lemma FrameKeysDistinct(cfg: Config, w: World, w': World)
    requires ValidConfig(cfg) && Framed(cfg, w, w') && KeysDistinct(w) && SecretsOk(cfg, w)
    requires forall n :: n in w'.certs ==> n in cfg.certificates
    ensures KeysDistinct(w')
  {
    hide FlagsOk, RefOk, IssuerOk, BaseOk;
    forall i, j | i in w'.certs && j in w'.certs && KeyOf(w', i).Some? && KeyOf(w', i) == KeyOf(w', j) ensures i == j {
      assert KeySecret(i) in w.secrets && KeySecret(j) in w.secrets && SecretOk(cfg, w, KeySecret(i)) && SecretOk(cfg, w, KeySecret(j));
    }
  }

  lemma DefaultOk(n: Name)
    ensures StatusOk(n, DEFAULT_STATUS)
  {
  }

  lemma ExternalStepOk(cfg: Config, w: World, a: Action)
    requires ExternalsOk(cfg, w)
    requires !a.BeginPass? && !a.ContinuePass?
    ensures ExternalsOk(cfg, Step(cfg, w, a))
  {
    hide Observed, ExternalOk;
    if a.BeginExternal? && a.n in cfg.externals && a.n in w.externals && cfg.externals[a.n].secretName in w.secrets {
      var spec := cfg.externals[a.n];
      var st := w.externals[a.n].GetOr(DEFAULT_EXTERNAL);
      assert ExternalOk(cfg, a.n, st) by { DefaultExternalOk(cfg, a.n); }
      ObservedOk(spec, a.n, st, w.secrets[spec.secretName], w.clock, cfg);
    }
  }

  lemma DefaultExternalOk(cfg: Config, n: Name)
    requires n in cfg.externals
    ensures ExternalOk(cfg, n, DEFAULT_EXTERNAL)
  {
  }

  lemma SecretStepGrows(cfg: Config, w: World, a: Action)
    requires ValidConfig(cfg)
    requires a.WriteSecret? || a.DeleteSecret?
    ensures Grows(cfg, w, Step(cfg, w, a))
  {
    hide Grows;
    if a.s !in cfg.userSecrets {
      StoreKept(cfg, w, w);
    } else {
      assert a.s.Plain? || a.s.owner !in cfg.certificates;
      hide ValidConfig;
      if a.WriteSecret? {
        SecretAdded(cfg, w, w.(secrets := w.secrets[a.s := a.secret]), a.s, a.secret);
      } else {
        SecretRemoved(cfg, w, w.(secrets := w.secrets - {a.s}), a.s);
      }
    }
  }

  lemma OtherStepGrows(cfg: Config, w: World, a: Action)
    requires ValidConfig(cfg)
    requires !a.BeginPass? && !a.ContinuePass?
    ensures Grows(cfg, w, Step(cfg, w, a))
  {
    hide Grows, Observed, ValidConfig, StatusOf, ReadKey;
    var w' := Step(cfg, w, a);
    match a {
      case WriteSecret(_, _) => SecretStepGrows(cfg, w, a);
      case DeleteSecret(_) => SecretStepGrows(cfg, w, a);
      case CreateCertificate(n) => if n !in w.certs { CreationGrows(cfg, w, n); } StoreKept(cfg, w, w);
      case CreateExternal(n) => ExternalsGrow(cfg, w, w');
      case PublishExternal(n) => ExternalsGrow(cfg, w, w');
      case _ => StoreKept(cfg, w, w');
    }
  }

  lemma CreationGrows(cfg: Config, w: World, n: Name)
    requires n !in w.certs
    ensures Grows(cfg, w, w.(certs := w.certs[n := None]))
  {
    hide Grows;
    StatusSet(cfg, w, w.(certs := w.certs[n := None]), n, None);
  }

  lemma ExternalsGrow(cfg: Config, w: World, w': World)
    requires w'.certs == w.certs && w'.secrets == w.secrets && w'.nextKey == w.nextKey
    requires forall n :: n in w.externals ==> n in w'.externals
    ensures Grows(cfg, w, w')
  {
  }

  lemma SecretStepFramed(cfg: Config, w: World, a: Action)
    requires forall n :: n in w.certs ==> n in cfg.certificates
    requires a.WriteSecret? || a.DeleteSecret?
    ensures Framed(cfg, w, Step(cfg, w, a)) && Step(cfg, w, a).nextKey == w.nextKey
  {
  }

  lemma IdleFramed(cfg: Config, w: World, w': World)
    requires forall n :: n in w.certs ==> n in cfg.certificates
    requires w'.certs == w.certs && w'.passes == w.passes && w'.secrets == w.secrets
    ensures Framed(cfg, w, w')
  {
  }

  lemma CreationFramed(cfg: Config, w: World, n: Name)
    requires forall n :: n in w.certs ==> n in cfg.certificates
    requires n in cfg.certificates && n !in w.certs
    ensures Framed(cfg, w, w.(certs := w.certs[n := None]))
  {
  }

  lemma CrashFramed(cfg: Config, w: World, n: Name)
    requires forall n :: n in w.certs ==> n in cfg.certificates
    ensures Framed(cfg, w, w.(passes := w.passes - {n}))
  {
  }

  lemma OtherStepFramed(cfg: Config, w: World, a: Action)
    requires forall n :: n in w.certs ==> n in cfg.certificates
    requires !a.BeginPass? && !a.ContinuePass?
    ensures Framed(cfg, w, Step(cfg, w, a)) && Step(cfg, w, a).nextKey == w.nextKey
  {
    hide Observed, Framed;
    match a {
      case WriteSecret(_, _) => SecretStepFramed(cfg, w, a);
      case DeleteSecret(_) => SecretStepFramed(cfg, w, a);
      case CreateCertificate(n) => if n in cfg.certificates && n !in w.certs { CreationFramed(cfg, w, n); } else { IdleFramed(cfg, w, w); }
      case Crash(n) => CrashFramed(cfg, w, n);
      case _ => IdleFramed(cfg, w, Step(cfg, w, a));
    }
  }

  lemma OtherStepInv(cfg: Config, w: World, a: Action)
    requires ValidConfig(cfg) && Inv(cfg, w)
    requires !a.BeginPass? && !a.ContinuePass?
    ensures Inv(cfg, Step(cfg, w, a)) && Grows(cfg, w, Step(cfg, w, a))
  {
    hide CertsOk, SecretsOk, PassesOk, KeysDistinct, Step, ExternalsOk, Framed, Grows, ValidConfig;
    ExternalStepOk(cfg, w, a);
    OtherStepGrows(cfg, w, a);
    assert forall n :: n in w.certs ==> n in cfg.certificates by { CertsHave(cfg, w); }
    OtherStepFramed(cfg, w, a);
    FrameInv(cfg, w, Step(cfg, w, a));
  }

  lemma StepInv(cfg: Config, w: World, a: Action)
    requires ValidConfig(cfg) && Inv(cfg, w)
    ensures Inv(cfg, Step(cfg, w, a)) && Grows(cfg, w, Step(cfg, w, a))
  {
    hide CertsOk, SecretsOk, KeysDistinct, Begin, Continue, Apply, Grows, PassOk, StatusOk;
    match a {
      case BeginPass(n, d) =>
        if n in cfg.certificates && n in w.certs && n !in w.passes {
          CertsHold(cfg, w, n);
          BeginOk(cfg, w, n, d);
          ApplyInv(cfg, w, n, Begin(cfg, w, n, d));
          ApplyGrows(cfg, w, n, Begin(cfg, w, n, d));
        } else {
          StoreKept(cfg, w, w);
        }
      case ContinuePass(n, d) =>
        if n in cfg.certificates && n in w.passes {
          ContinueOk(cfg, w, n, d);
          ApplyInv(cfg, w, n, Continue(cfg, w, n, d));
          ApplyGrows(cfg, w, n, Continue(cfg, w, n, d));
        } else {
          StoreKept(cfg, w, w);
        }
      case _ => OtherStepInv(cfg, w, a);
    }
  }

  lemma PassesHold(cfg: Config, w: World, n: Name)
    requires PassesOk(cfg, w) && n in w.passes
    ensures PassOk(cfg, w, n, w.passes[n])
  {
  }

  lemma CertsHave(cfg: Config, w: World)
    requires CertsOk(cfg, w)
    ensures forall n :: n in w.certs ==> n in cfg.certificates
  {
  }

  lemma CertsHold(cfg: Config, w: World, n: Name)
    requires CertsOk(cfg, w) && n in w.certs
    ensures CertOk(cfg, w, n)
  {
  }

  lemma {:induction false} RunInv(cfg: Config, w: World, actions: seq<Action>)
    requires ValidConfig(cfg) && Inv(cfg, w)
    ensures Inv(cfg, Run(cfg, w, actions))
    decreases |actions|
  {
    if actions != [] {
      StepInv(cfg, w, actions[0]);
      RunInv(cfg, Step(cfg, w, actions[0]), actions[1..]);
    }
  }
}
