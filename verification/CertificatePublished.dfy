/** What a published status tells its reader: each condition speaks for the fields it summarises and for
    the issuer, and the recorded certificate is the one that is stored. */
module CertificatePublished {
  import opened Wrappers
  import opened Conditions
  import opened CertificateTypes
  import opened CertificateWorld
  import opened CertificateSafety
  import opened CertificateTheorems

  // ---------------------------------------------------------------------------------------
  // The issuer
  // ---------------------------------------------------------------------------------------

  /** The issuer that the spec of `n` names is there and has a status. */
  predicate IssuerRecorded(cfg: Config, w: World, n: Name)
    requires n in cfg.certificates
  {
    var m := cfg.certificates[n].issuerName;
    match cfg.certificates[n].issuerKind
    case CertificateKind => m in w.certs && w.certs[m].Some?
    case ExternalKind => m in w.externals && w.externals[m].Some?
    case OtherKind(_) => false
  }

  /** And that status lets it sign for `n`: a Certificate needs a key and, unless it signs for itself, a
      certificate; an ExternalCertificate needs a key. */
  predicate IssuerCanSign(cfg: Config, w: World, n: Name)
    requires n in cfg.certificates && IssuerRecorded(cfg, w, n)
  {
    var m := cfg.certificates[n].issuerName;
    match cfg.certificates[n].issuerKind
    case CertificateKind =>
      var issuer := w.certs[m].value;
      issuer.keyExists && issuer.key.secret.Some? && (m == n || (issuer.certExists && issuer.cert.secret.Some?))
    case _ => w.externals[m].value.keyExists && w.externals[m].value.key.secret.Some?
  }

  /** The Secrets that the issuer's status names. */
  function IssuerSecrets(cfg: Config, w: World, n: Name): (Option<SecretName>, Option<SecretName>)
    requires n in cfg.certificates && IssuerRecorded(cfg, w, n)
  {
    var m := cfg.certificates[n].issuerName;
    if cfg.certificates[n].issuerKind.CertificateKind? then
      var issuer := w.certs[m].value;
      (issuer.key.secret, if issuer.certExists then issuer.cert.secret else None)
    else
      var issuer := w.externals[m].value;
      (issuer.key.secret, if issuer.certExists then issuer.cert.secret else None)
  }

  /** `st` is `base` but for the condition IssuerReady, which says `ready`. */
  predicate OnlyIssuerReady(base: CertificateStatus, st: CertificateStatus, ready: bool) {
    && Flag(st.conditions, TypeIssuerReady) == Some(ready)
    && (forall t :: t != TypeIssuerReady ==> Flag(st.conditions, t) == Flag(base.conditions, t))
    && st == base.(conditions := st.conditions)
  }

  /** What looking up the issuer gives. IssuerReady says whether it can sign, nothing else in the status
      changes, and the pass goes on with the Secrets of that issuer if and only if it can. */
  predicate ShowsIssuer(cfg: Config, w: World, n: Name, base: CertificateStatus, r: Resolution)
    requires n in cfg.certificates && IssuerRecorded(cfg, w, n)
  {
    && !r.Failed?
    && OnlyIssuerReady(base, r.st, IssuerCanSign(cfg, w, n))
    && (r.Ready? <==> IssuerCanSign(cfg, w, n))
    && (r.Ready? ==>
          && Some(r.ref.keySecret) == IssuerSecrets(cfg, w, n).0
          && r.ref.certSecret == IssuerSecrets(cfg, w, n).1
          && r.ref.selfSigned == SelfSigned(cfg, n))
  }

  lemma WithIssuerShows(spec: CertificateSpec, st: CertificateStatus, ready: bool, now: Time)
    ensures OnlyIssuerReady(st, WithCertificateIssuer(spec, st, ready, now), ready)
    ensures OnlyIssuerReady(st, WithExternalIssuer(spec, st, ready, now), ready)
  {
    hide PutBool, Flag;
  }

  lemma ResolveShowsIssuer(cfg: Config, w: World, n: Name, base: CertificateStatus)
    requires n in cfg.certificates
    ensures Resolve(cfg, w, n, base).Failed? <==> !IssuerRecorded(cfg, w, n)
    ensures IssuerRecorded(cfg, w, n) ==> ShowsIssuer(cfg, w, n, base, Resolve(cfg, w, n, base))
  {
    hide WithCertificateIssuer, WithExternalIssuer, OnlyIssuerReady;
    if IssuerRecorded(cfg, w, n) {
      WithIssuerShows(cfg.certificates[n], base, IssuerCanSign(cfg, w, n), w.clock);
    }
  }

  // ---------------------------------------------------------------------------------------
  // The conditions
  // ---------------------------------------------------------------------------------------

  /** Each condition that a Certificate's own fields decide is there from the moment on that its subject
      exists, and says of it what the fields say. */
  predicate Shown(st: CertificateStatus) {
    && Flag(st.conditions, TypeKeyReady) == (if st.keyExists then Some(true) else None)
    && Flag(st.conditions, TypeCertReady) == (if st.certExists then Some(st.cert.valid) else None)
    && Flag(st.conditions, TypeReady) == (if st.certExists then Some(st.cert.valid) else None)
    && Flag(st.conditions, TypeRenewalRequired) == (if st.certExists then Some(st.needsRenewal) else None)
    && Flag(st.conditions, TypeIssuing) == (if st.certExists then Some(false) else None)
  }

  /** The Certificate issuer of `n` has what it takes to sign for it. */
  predicate Equipped(cfg: Config, w: World, n: Name)
    requires n in cfg.certificates
  {
    var m := cfg.certificates[n].issuerName;
    m in w.certs && StatusOf(w, m).keyExists && (m == n || StatusOf(w, m).certExists)
  }

  predicate IssuerShown(cfg: Config, w: World, n: Name, st: CertificateStatus)
    requires n in cfg.certificates
  {
    cfg.certificates[n].issuerKind.CertificateKind? ==>
      && (Flag(st.conditions, TypeIssuerReady) == Some(true) ==> Equipped(cfg, w, n))
      && (st.certExists ==> Flag(st.conditions, TypeIssuerReady) == Some(true))
  }

  predicate AllShown(cfg: Config, w: World, n: Name, st: CertificateStatus) {
    n in cfg.certificates && Shown(st) && IssuerShown(cfg, w, n, st)
  }

  /** The status records the certificate `c` of `n`. */
  predicate Records(n: Name, st: CertificateStatus, c: Option<Cert>) {
    && c.Some? && st.certExists
    && st.cert.name == Some(c.value.subject) && st.cert.signerKey == Some(c.value.signer)
    && st.cert.issuedAt == Some(c.value.notBefore) && st.cert.validUntil == Some(c.value.notAfter)
    && st.cert.secret == Some(CertSecret(n))
  }

  predicate PassShown(cfg: Config, w: World, n: Name, p: Pass) {
    match p
    case Resolving(_) => true
    case Publishing(st, at) =>
      AllShown(cfg, w, n, st)
      && (at.Some? ==> Records(n, st, ReadCert(w, CertSecret(n))) && st.cert.valid && !st.needsRenewal)
    case _ => AllShown(cfg, w, n, p.st) && Flag(p.st.conditions, TypeIssuerReady) == Some(true)
  }

  ghost predicate WorldShown(cfg: Config, w: World) {
    && (forall n :: n in w.certs ==> AllShown(cfg, w, n, StatusOf(w, n)))
    && (forall n :: n in w.passes ==> PassShown(cfg, w, n, w.passes[n]))
  }

  predicate EffectShown(cfg: Config, w: World, n: Name, e: Effect) {
    match e
    case Proceed(p, _) => PassShown(cfg, w, n, p)
    case Fail(_) => true
    case CreateKeySecret(p) => p.Publishing? && p.recorded.None? && AllShown(cfg, w, n, p.st)
    case ApplyCertSecret(x, p) =>
      p.Publishing? && AllShown(cfg, w, n, p.st) && Records(n, p.st, x.cert) && p.st.cert.valid && !p.st.needsRenewal
    case PatchStatus(st, _) => AllShown(cfg, w, n, st)
  }

  lemma WithKeyShown(spec: CertificateSpec, n: Name, st: CertificateStatus, key: Key, now: Time)
    requires Shown(st)
    ensures Shown(WithKey(spec, n, st, key, now))
    ensures Flag(WithKey(spec, n, st, key, now).conditions, TypeIssuerReady) == Flag(st.conditions, TypeIssuerReady)
  {
    hide PutBool, Flag;
  }

  lemma AvailabilityShown(generation: int, st: CertificateStatus, now: Time)
    ensures var cs := WithAvailability(generation, st, now).conditions;
            && Flag(cs, TypeKeyReady) == Some(KeyReady(st)) && Flag(cs, TypeCertReady) == Some(CertReady(st))
            && Flag(cs, TypeReady) == Some(KeyReady(st) && CertReady(st))
            && Flag(cs, TypeRenewalRequired) == Flag(st.conditions, TypeRenewalRequired)
            && Flag(cs, TypeIssuing) == Flag(st.conditions, TypeIssuing)
            && Flag(cs, TypeIssuerReady) == Flag(st.conditions, TypeIssuerReady)
  {
    hide PutBool, Flag, MissingMessage, KeyReady, CertReady;
  }

  lemma ValidatedShown(spec: CertificateSpec, n: Name, st: CertificateStatus, start: Time, now: Time)
    requires StatusOk(n, st) && st.keyExists && st.certExists && Shown(st) && Validated(spec, st, start, now).Some?
    ensures var st' := Validated(spec, st, start, now).value;
            Shown(st') && st'.certExists && Flag(st'.conditions, TypeIssuerReady) == Flag(st.conditions, TypeIssuerReady)
  {
    hide PutBool, Flag, WithAvailability, FlagsOk;
    var needed := st.cert.validUntil.value - Before(spec).value <= now;
    var st1 := st.(cert := st.cert.(valid := st.cert.validUntil.value > now), needsRenewal := needed);
    var st2 := st1.(conditions := RenewalCondition(st1.conditions, needed, spec.generation, now));
    AvailabilityShown(spec.generation, st2, now);
    assert WithAvailability(spec.generation, st2, now) == st2.(conditions := WithAvailability(spec.generation, st2, now).conditions) by {
      AvailabilityOnly(spec.generation, st2, now);
    }
  }

  lemma AvailabilityOnly(generation: int, st: CertificateStatus, now: Time)
    ensures WithAvailability(generation, st, now) == st.(conditions := WithAvailability(generation, st, now).conditions)
  {
    hide PutBool;
  }

  lemma WithCertShown(spec: CertificateSpec, n: Name, st: CertificateStatus, cert: Cert, now: Time)
    requires StatusOk(n, st) && st.keyExists && Shown(st)
    ensures var st' := WithCert(spec, n, st, cert, now);
            && Shown(st') && Records(n, st', Some(cert)) && st'.cert.valid && !st'.needsRenewal
            && Flag(st'.conditions, TypeIssuerReady) == Flag(st.conditions, TypeIssuerReady)
  {
    hide PutBool, Flag, WithAvailability, FlagsOk;
    var st1 := st.(cert := CertStatus(Some(cert.subject), Some(cert.signer), Some(cert.notBefore), Some(cert.notAfter),
                                      Some(CertSecret(n)), true),
                   certExists := true, needsRenewal := false,
                   conditions := RenewalCondition(st.conditions, false, spec.generation, now));
    AvailabilityShown(spec.generation, st1, now);
    AvailabilityOnly(spec.generation, st1, now);
  }

  // ---------------------------------------------------------------------------------------
  // One step of a pass
  // ---------------------------------------------------------------------------------------

  lemma BeginShown(cfg: Config, w: World, n: Name, d: nat)
    requires n in w.certs && CertOk(cfg, w, n) && AllShown(cfg, w, n, StatusOf(w, n))
    ensures EffectShown(cfg, w, n, Begin(cfg, w, n, d))
  {
    hide Shown, FlagsOk, Flag, WithKey, Validated;
    var spec := cfg.certificates[n];
    var st := StatusOf(w, n);
    if !st.keyExists {
      WithKeyShown(spec, n, st, Generated(w.nextKey), w.clock);
      assert WithKey(spec, n, st, Generated(w.nextKey), w.clock).certExists == st.certExists by { WithKeyOk(spec, n, st, Generated(w.nextKey), w.clock); }
    } else if st.certExists && !st.needsRenewal {
      if Validated(spec, st, w.clock, w.clock + d).Some? { ValidatedShown(spec, n, st, w.clock, w.clock + d); }
    }
  }

  lemma ResolvingShown(cfg: Config, w: World, n: Name, d: nat)
    requires CertsOk(cfg, w) && n in w.passes && n in w.certs && w.passes[n].Resolving?
    requires PassOk(cfg, w, n, w.passes[n]) && AllShown(cfg, w, n, StatusOf(w, n))
    ensures EffectShown(cfg, w, n, Continue(cfg, w, n, d))
  {
    hide FlagsOk, Flag, Resolve, PutBool;
    var base := w.passes[n].base;
    ResolveShowsIssuer(cfg, w, n, base);
    if IssuerRecorded(cfg, w, n) && cfg.certificates[n].issuerKind.CertificateKind? {
      CertsHold(cfg, w, cfg.certificates[n].issuerName);
    }
  }

  lemma SigningShown(cfg: Config, w: World, n: Name, d: nat)
    requires n in cfg.certificates && n in w.passes && !w.passes[n].Resolving? && !w.passes[n].WritingCert?
    requires PassShown(cfg, w, n, w.passes[n])
    ensures EffectShown(cfg, w, n, Continue(cfg, w, n, d))
  {
    hide Shown, IssuerShown, Flag, Records, Trunc, Interval, ReadKey, ReadCert;
  }

  lemma WritingShown(cfg: Config, w: World, n: Name, d: nat)
    requires n in cfg.certificates && n in w.passes && w.passes[n].WritingCert?
    requires PassOk(cfg, w, n, w.passes[n]) && PassShown(cfg, w, n, w.passes[n])
    ensures EffectShown(cfg, w, n, Continue(cfg, w, n, d))
  {
    hide Shown, Flag, FlagsOk, WithCert, SealOk, IssuerOk;
    var p := w.passes[n];
    WithCertShown(cfg.certificates[n], n, p.st, p.cert, w.clock);
  }

  lemma ContinueShown(cfg: Config, w: World, n: Name, d: nat)
    requires CertsOk(cfg, w) && PassesOk(cfg, w) && WorldShown(cfg, w) && n in w.passes
    ensures n in cfg.certificates && EffectShown(cfg, w, n, Continue(cfg, w, n, d))
  {
    hide Continue, EffectShown, PassShown, AllShown, StatusOk, BaseOk, RefOk, SealOk, CertOk, SignerOk, IssuerOk;
    assert n in w.certs && n in cfg.certificates by { PassesHold(cfg, w, n); }
    PassesHold(cfg, w, n);
    match w.passes[n] {
      case Resolving(_) => ResolvingShown(cfg, w, n, d);
      case WritingCert(_, _, _, _, _) => WritingShown(cfg, w, n, d);
      case _ => SigningShown(cfg, w, n, d);
    }
  }

  // ---------------------------------------------------------------------------------------
  // Every step
  // ---------------------------------------------------------------------------------------

  lemma ShownStable(cfg: Config, w: World, w': World, n: Name, st: CertificateStatus)
    requires AllShown(cfg, w, n, st) && Grows(cfg, w, w')
    ensures AllShown(cfg, w', n, st)
  {
    hide Shown, Flag;
  }

  lemma PassShownStable(cfg: Config, w: World, w': World, n: Name, p: Pass)
    requires PassShown(cfg, w, n, p) && Grows(cfg, w, w') && ReadCert(w', CertSecret(n)) == ReadCert(w, CertSecret(n))
    ensures PassShown(cfg, w', n, p)
  {
    hide AllShown, Flag, Grows, Records;
    match p {
      case Resolving(_) =>
      case _ => ShownStable(cfg, w, w', n, p.st);
    }
  }

  /** What one effect does to the statuses and passes it is not about. */
  lemma ApplyOthers(w: World, i: Name, e: Effect, n: Name)
    requires n != i
    ensures var w' := Apply(w, i, e);
            && (n in w'.certs <==> n in w.certs) && StatusOf(w', n) == StatusOf(w, n)
            && (n in w'.passes <==> n in w.passes) && (n in w.passes ==> w'.passes[n] == w.passes[n])
            && ReadCert(w', CertSecret(n)) == ReadCert(w, CertSecret(n))
  {
  }

  lemma ApplyOwn(w: World, n: Name, e: Effect)
    ensures var w' := Apply(w, n, e);
            && (n in w'.passes ==> !e.Fail? && !e.PatchStatus? && w'.passes[n] == e.next)
            && (n in w'.certs <==> n in w.certs || e.PatchStatus?)
            && StatusOf(w', n) == (if e.PatchStatus? then e.st else StatusOf(w, n))
            && ReadCert(w', CertSecret(n)) == (if e.ApplyCertSecret? then e.secret.cert else ReadCert(w, CertSecret(n)))
  {
  }

  lemma OwnShown(cfg: Config, w: World, n: Name, e: Effect)
    requires WorldShown(cfg, w) && n in w.certs && EffectShown(cfg, w, n, e) && Grows(cfg, w, Apply(w, n, e))
    ensures var w' := Apply(w, n, e);
            && AllShown(cfg, w', n, StatusOf(w', n))
            && (n in w'.passes ==> PassShown(cfg, w', n, w'.passes[n]))
  {
    hide AllShown, Records, Grows, Flag, Apply, StatusOf, ReadCert;
    var w' := Apply(w, n, e);
    ApplyOwn(w, n, e);
    match e {
      case Proceed(p, _) =>
        ShownStable(cfg, w, w', n, StatusOf(w, n));
        PassShownStable(cfg, w, w', n, p);
      case Fail(_) => ShownStable(cfg, w, w', n, StatusOf(w, n));
      case CreateKeySecret(p) =>
        ShownStable(cfg, w, w', n, StatusOf(w, n));
        ShownStable(cfg, w, w', n, p.st);
      case ApplyCertSecret(_, p) =>
        ShownStable(cfg, w, w', n, StatusOf(w, n));
        ShownStable(cfg, w, w', n, p.st);
      case PatchStatus(st, _) => ShownStable(cfg, w, w', n, st);
    }
  }

  lemma ApplyShown(cfg: Config, w: World, i: Name, e: Effect)
    requires WorldShown(cfg, w) && EffectOk(cfg, w, i, e) && EffectShown(cfg, w, i, e)
    ensures WorldShown(cfg, Apply(w, i, e))
  {
    hide AllShown, PassShown, EffectShown, PassOk, StatusOk, SealOk, IssuerOk, Apply, Grows, ReadCert, StatusOf;
    var w' := Apply(w, i, e);
    ApplyGrows(cfg, w, i, e);
    OwnShown(cfg, w, i, e);
    forall n | n in w'.certs ensures AllShown(cfg, w', n, StatusOf(w', n)) {
      if n != i { ApplyOthers(w, i, e, n); ShownStable(cfg, w, w', n, StatusOf(w, n)); }
    }
    forall n | n in w'.passes ensures PassShown(cfg, w', n, w'.passes[n]) {
      if n != i { ApplyOthers(w, i, e, n); PassShownStable(cfg, w, w', n, w.passes[n]); }
    }
  }

  /** What a step that is of no pass leaves of `n`. */
  predicate Left(cfg: Config, w: World, w': World, n: Name) {
    && StatusOf(w', n) == StatusOf(w, n)
    && (n in w'.certs ==> n in w.certs || n in cfg.certificates)
    && (KeySecret(n) in w'.secrets <==> KeySecret(n) in w.secrets)
    && (CertSecret(n) in w'.secrets <==> CertSecret(n) in w.secrets)
    && ReadCert(w', CertSecret(n)) == ReadCert(w, CertSecret(n))
  }

  lemma OtherLeaves(cfg: Config, w: World, a: Action, n: Name)
    requires ValidConfig(cfg) && n in cfg.certificates && !a.BeginPass? && !a.ContinuePass?
    ensures Left(cfg, w, Step(cfg, w, a), n)
  {
    hide Observed, Left;
    match a {
      case CreateCertificate(m) => LeftByCreation(cfg, w, m, n);
      case WriteSecret(s, x) => LeftByUsers(cfg, w, s, x, n);
      case DeleteSecret(s) => LeftByUsers(cfg, w, s, Secret(None, None, None), n);
      case _ => SameLeft(cfg, w, Step(cfg, w, a), n);
    }
    SameLeft(cfg, w, w, n);
  }

  lemma LeftByCreation(cfg: Config, w: World, m: Name, n: Name)
    requires n in cfg.certificates
    ensures m !in w.certs ==> Left(cfg, w, w.(certs := w.certs[m := None]), n)
  {
  }

  lemma LeftByUsers(cfg: Config, w: World, s: SecretName, x: Secret, n: Name)
    requires ValidConfig(cfg) && n in cfg.certificates
    ensures s in cfg.userSecrets ==>
              Left(cfg, w, w.(secrets := w.secrets[s := x]), n) && Left(cfg, w, w.(secrets := w.secrets - {s}), n)
  {
    hide StatusOf;
    if s in cfg.userSecrets { assert s != KeySecret(n) && s != CertSecret(n); }
    hide ValidConfig;
    SameStatus(w, w.(secrets := w.secrets[s := x]), n);
    SameStatus(w, w.(secrets := w.secrets - {s}), n);
  }

  lemma SameStatus(w: World, w': World, n: Name)
    requires w'.certs == w.certs
    ensures StatusOf(w', n) == StatusOf(w, n)
  {
  }

  lemma SameLeft(cfg: Config, w: World, w': World, n: Name)
    requires w'.certs == w.certs && w'.secrets == w.secrets
    ensures Left(cfg, w, w', n)
  {
  }

  lemma OtherPasses(cfg: Config, w: World, a: Action, n: Name)
    requires !a.BeginPass? && !a.ContinuePass?
    ensures var w' := Step(cfg, w, a);
            && (n in w'.passes ==> n in w.passes && w'.passes[n] == w.passes[n])
            && (a != Crash(n) && n in w.passes ==> n in w'.passes)
            && (n in w'.certs ==> n in w.certs || n in cfg.certificates)
  {
    hide Observed;
  }

  lemma OtherShown(cfg: Config, w: World, a: Action)
    requires ValidConfig(cfg) && Inv(cfg, w) && WorldShown(cfg, w) && !a.BeginPass? && !a.ContinuePass?
    ensures WorldShown(cfg, Step(cfg, w, a))
  {
    hide AllShown, PassShown, Step, Grows, ReadCert, StatusOf, ValidConfig, CertsOk, SecretsOk, PassesOk, ExternalsOk, KeysDistinct, StatusOk;
    var w' := Step(cfg, w, a);
    OtherStepInv(cfg, w, a);
    CertsHave(cfg, w);
    forall n | n in w'.certs ensures AllShown(cfg, w', n, StatusOf(w', n)) {
      OtherPasses(cfg, w, a, n);
      OtherLeaves(cfg, w, a, n);
      if n in w.certs { ShownStable(cfg, w, w', n, StatusOf(w, n)); } else { DefaultShown(cfg, w', n); NoStatus(w, n); }
    }
    forall n | n in w'.passes ensures PassShown(cfg, w', n, w'.passes[n]) {
      OtherPasses(cfg, w, a, n);
      PassesHold(cfg, w, n);
      OtherLeaves(cfg, w, a, n);
      PassShownStable(cfg, w, w', n, w.passes[n]);
    }
  }

  lemma NoStatus(w: World, n: Name)
    requires n !in w.certs
    ensures StatusOf(w, n) == DEFAULT_STATUS
  {
  }

  lemma DefaultShown(cfg: Config, w: World, n: Name)
    requires n in cfg.certificates
    ensures AllShown(cfg, w, n, DEFAULT_STATUS)
  {
  }

  lemma StepShown(cfg: Config, w: World, a: Action)
    requires ValidConfig(cfg) && Inv(cfg, w) && WorldShown(cfg, w)
    ensures WorldShown(cfg, Step(cfg, w, a))
  {
    hide AllShown, PassShown, Begin, Continue, Apply, CertOk, PassOk, StatusOk, ExternalsOk, SecretsOk, KeysDistinct;
    match a {
      case BeginPass(n, d) =>
        if n in cfg.certificates && n in w.certs && n !in w.passes {
          CertsHold(cfg, w, n);
          BeginOk(cfg, w, n, d);
          BeginShown(cfg, w, n, d);
          ApplyShown(cfg, w, n, Begin(cfg, w, n, d));
        }
      case ContinuePass(n, d) =>
        if n in cfg.certificates && n in w.passes {
          ContinueOk(cfg, w, n, d);
          ContinueShown(cfg, w, n, d);
          ApplyShown(cfg, w, n, Continue(cfg, w, n, d));
        }
      case _ => OtherShown(cfg, w, a);
    }
  }

  lemma {:induction false} RunShown(cfg: Config, w: World, actions: seq<Action>)
    requires ValidConfig(cfg) && Inv(cfg, w) && WorldShown(cfg, w)
    ensures WorldShown(cfg, Run(cfg, w, actions))
    decreases |actions|
  {
    hide Step, Inv, WorldShown;
    if actions != [] {
      StepInv(cfg, w, actions[0]);
      StepShown(cfg, w, actions[0]);
      RunShown(cfg, Step(cfg, w, actions[0]), actions[1..]);
    }
  }

  // ---------------------------------------------------------------------------------------
  // Main results
  // ---------------------------------------------------------------------------------------

  /** Main result: in every reachable world the conditions of a Certificate are decided by its fields: absent
      before their subject exists, exact from then on. */
  lemma ConditionsAreExact(cfg: Config, actions: seq<Action>, n: Name)
    requires ValidConfig(cfg)
    ensures var w := Run(cfg, EMPTY_WORLD, actions);
            var st := StatusOf(w, n);
            n in w.certs ==>
              && Flag(st.conditions, TypeKeyReady) == (if st.keyExists then Some(true) else None)
              && Flag(st.conditions, TypeCertReady) == (if st.certExists then Some(st.cert.valid) else None)
              && Flag(st.conditions, TypeReady) == (if st.certExists then Some(st.cert.valid) else None)
              && Flag(st.conditions, TypeRenewalRequired) == (if st.certExists then Some(st.needsRenewal) else None)
              && Flag(st.conditions, TypeIssuing) == (if st.certExists then Some(false) else None)
  {
    hide Run, Flag;
    EmptyInv(cfg);
    RunShown(cfg, EMPTY_WORLD, actions);
  }

  /** Main result: a Certificate whose issuer is a Certificate and that has been issued says IssuerReady; and
      whenever it says so, that issuer is recorded as able to sign. */
  lemma IssuerReadyIsTrue(cfg: Config, actions: seq<Action>, n: Name)
    requires ValidConfig(cfg) && n in cfg.certificates && cfg.certificates[n].issuerKind.CertificateKind?
    ensures var w := Run(cfg, EMPTY_WORLD, actions);
            n in w.certs ==>
              && (StatusOf(w, n).certExists ==> Flag(StatusOf(w, n).conditions, TypeIssuerReady) == Some(true))
              && (Flag(StatusOf(w, n).conditions, TypeIssuerReady) == Some(true)
                  ==> IssuerRecorded(cfg, w, n) && IssuerCanSign(cfg, w, n))
  {
    hide Run, Flag, Shown, FlagsOk, SecretsOk, PassesOk, ExternalsOk, KeysDistinct;
    var w := Run(cfg, EMPTY_WORLD, actions);
    EmptyInv(cfg);
    RunShown(cfg, EMPTY_WORLD, actions);
    ReachableInv(cfg, actions);
    if n in w.certs && cfg.certificates[n].issuerName in w.certs { CertsHold(cfg, w, cfg.certificates[n].issuerName); }
  }

  /** Main result: the patch of an issuing pass publishes the certificate that the pass stored, whatever
      happened since, as valid and not due for renewal. */
  lemma PublishedIsStored(cfg: Config, actions: seq<Action>, n: Name, d: nat)
    requires ValidConfig(cfg)
    requires var w := Run(cfg, EMPTY_WORLD, actions);
             n in w.passes && w.passes[n].Publishing? && w.passes[n].recorded.Some?
    ensures var w' := Run(cfg, EMPTY_WORLD, actions + [ContinuePass(n, d)]);
            && CertSecret(n) in w'.secrets && w'.secrets[CertSecret(n)].cert.Some?
            && var st := StatusOf(w', n);
               var c := w'.secrets[CertSecret(n)].cert.value;
               && st.certExists && st.cert.valid && !st.needsRenewal
               && st.cert == CertStatus(Some(c.subject), Some(c.signer), Some(c.notBefore), Some(c.notAfter), Some(CertSecret(n)), true)
  {
    hide Run, Flag, AllShown;
    var w := Run(cfg, EMPTY_WORLD, actions);
    EmptyInv(cfg);
    RunShown(cfg, EMPTY_WORLD, actions);
    ReachableInv(cfg, actions);
    PassesHold(cfg, w, n);
    RunSplit(cfg, EMPTY_WORLD, actions, [ContinuePass(n, d)]);
    var w' := Step(cfg, w, ContinuePass(n, d));
    assert Run(cfg, w, [ContinuePass(n, d)]) == w' by { OneStep(cfg, w, ContinuePass(n, d)); }
  }

  lemma OneStep(cfg: Config, w: World, a: Action)
    ensures Run(cfg, w, [a]) == Step(cfg, w, a)
  {
    hide Step;
    assert [a][1..] == [];
  }

  // ---------------------------------------------------------------------------------------
  // The status and the store
  // ---------------------------------------------------------------------------------------

  /** The status that a pass is about to publish, or else the one that is recorded. */
  function InHand(w: World, n: Name): CertificateStatus {
    if n in w.passes && w.passes[n].Publishing? then w.passes[n].st else StatusOf(w, n)
  }

  /** It knows of the stored key, and it records the stored certificate. */
  predicate Agrees(w: World, n: Name) {
    && (KeySecret(n) in w.secrets ==> InHand(w, n).keyExists)
    && (CertSecret(n) in w.secrets ==> Records(n, InHand(w, n), ReadCert(w, CertSecret(n))))
  }

  /** The status in hand after a step of the pass on `n`. */
  function Handed(w: World, n: Name, e: Effect): CertificateStatus {
    match e
    case PatchStatus(st, _) => st
    case Fail(_) => StatusOf(w, n)
    case _ => if e.next.Publishing? then e.next.st else StatusOf(w, n)
  }

  lemma ApplyHands(w: World, n: Name, e: Effect)
    ensures InHand(Apply(w, n, e), n) == Handed(w, n, e)
    ensures KeySecret(n) in Apply(w, n, e).secrets <==> e.CreateKeySecret? || KeySecret(n) in w.secrets
    ensures CertSecret(n) in Apply(w, n, e).secrets <==> e.ApplyCertSecret? || CertSecret(n) in w.secrets
    ensures ReadCert(Apply(w, n, e), CertSecret(n)) == if e.ApplyCertSecret? then e.secret.cert else ReadCert(w, CertSecret(n))
  {
  }

  lemma ApplyHandsOthers(w: World, i: Name, e: Effect, n: Name)
    requires i != n
    ensures InHand(Apply(w, i, e), n) == InHand(w, n)
    ensures KeySecret(n) in Apply(w, i, e).secrets <==> KeySecret(n) in w.secrets
    ensures CertSecret(n) in Apply(w, i, e).secrets <==> CertSecret(n) in w.secrets
    ensures ReadCert(Apply(w, i, e), CertSecret(n)) == ReadCert(w, CertSecret(n))
  {
  }

  lemma BeginAgrees(cfg: Config, w: World, n: Name, d: nat)
    requires n in w.certs && n !in w.passes && CertOk(cfg, w, n) && Agrees(w, n)
    ensures Agrees(Apply(w, n, Begin(cfg, w, n, d)), n)
  {
    hide PutBool, FlagsOk, Flag, Apply, ReadCert;
    ApplyHands(w, n, Begin(cfg, w, n, d));
  }

  lemma ContinueAgrees(cfg: Config, w: World, n: Name, d: nat)
    requires n in cfg.certificates && n in w.passes && Agrees(w, n)
    requires PassOk(cfg, w, n, w.passes[n])
    ensures Agrees(Apply(w, n, Continue(cfg, w, n, d)), n)
  {
    hide PutBool, FlagsOk, Flag, Apply, ReadKey, ReadCert, Resolve, RefOk, SealOk, IssuerOk, SignerOk, WithCert, Trunc, Interval;
    var p := w.passes[n];
    ApplyHands(w, n, Continue(cfg, w, n, d));
    match p {
      case Resolving(base) =>
        hide WithCertificateIssuer, WithExternalIssuer;
        ResolveShowsIssuer(cfg, w, n, base);
      case WritingCert(base, st, cert, _, _) => RecordsNew(cfg.certificates[n], n, st, cert, w.clock);
      case _ =>
    }
  }

  lemma RecordsNew(spec: CertificateSpec, n: Name, st: CertificateStatus, cert: Cert, now: Time)
    requires st.keyExists
    ensures Records(n, WithCert(spec, n, st, cert, now), Some(cert)) && WithCert(spec, n, st, cert, now).keyExists
  {
    hide PutBool;
  }

  lemma OtherAgrees(cfg: Config, w: World, a: Action, n: Name)
    requires ValidConfig(cfg) && n in cfg.certificates && Agrees(w, n)
    requires !a.BeginPass? && !a.ContinuePass? && a != Crash(n)
    ensures Agrees(Step(cfg, w, a), n)
  {
    hide Step, Records, StatusOf, ReadCert;
    OtherLeaves(cfg, w, a, n);
    OtherPasses(cfg, w, a, n);
  }

  lemma StepAgrees(cfg: Config, w: World, a: Action, n: Name)
    requires ValidConfig(cfg) && Inv(cfg, w) && n in cfg.certificates && Agrees(w, n) && a != Crash(n)
    ensures Agrees(Step(cfg, w, a), n)
  {
    hide Begin, Continue, Apply, Agrees, CertOk, PassOk, ExternalsOk, SecretsOk, KeysDistinct, StatusOk;
    match a {
      case BeginPass(m, d) =>
        if m in cfg.certificates && m in w.certs && m !in w.passes {
          if m == n { CertsHold(cfg, w, n); BeginAgrees(cfg, w, n, d); } else { ElsewhereAgrees(w, m, Begin(cfg, w, m, d), n); }
        }
      case ContinuePass(m, d) =>
        if m in cfg.certificates && m in w.passes {
          if m == n { PassesHold(cfg, w, n); ContinueAgrees(cfg, w, n, d); } else { ElsewhereAgrees(w, m, Continue(cfg, w, m, d), n); }
        }
      case _ => OtherAgrees(cfg, w, a, n);
    }
  }

  lemma ElsewhereAgrees(w: World, i: Name, e: Effect, n: Name)
    requires i != n && Agrees(w, n)
    ensures Agrees(Apply(w, i, e), n)
  {
    hide Apply, InHand, ReadCert, Records;
    ApplyHandsOthers(w, i, e, n);
  }

  lemma {:induction false} RunAgrees(cfg: Config, w: World, actions: seq<Action>, n: Name)
    requires ValidConfig(cfg) && Inv(cfg, w) && n in cfg.certificates && Agrees(w, n) && Crash(n) !in actions
    ensures Agrees(Run(cfg, w, actions), n)
    decreases |actions|
  {
    hide Step, Inv, Agrees;
    if actions != [] {
      assert actions[0] in actions;
      StepInv(cfg, w, actions[0]);
      StepAgrees(cfg, w, actions[0], n);
      RunAgrees(cfg, Step(cfg, w, actions[0]), actions[1..], n);
    }
  }

  /** Main result: as long as no pass on `n` crashes, whatever other passes do and users write, its recorded
      status and the store agree between its passes: the Secrets are there if and only if the status says so,
      and every field about the certificate is that of the stored one. */
  lemma StatusAgreesWithStore(cfg: Config, actions: seq<Action>, n: Name)
    requires ValidConfig(cfg) && n in cfg.certificates && Crash(n) !in actions
    ensures var w := Run(cfg, EMPTY_WORLD, actions);
            var st := StatusOf(w, n);
            n in w.certs && n !in w.passes ==>
              && (st.keyExists <==> KeySecret(n) in w.secrets)
              && (st.certExists <==> CertSecret(n) in w.secrets)
              && (st.certExists ==>
                    && w.secrets[CertSecret(n)].cert.Some?
                    && var c := w.secrets[CertSecret(n)].cert.value;
                       st.cert == CertStatus(Some(c.subject), Some(c.signer), Some(c.notBefore), Some(c.notAfter),
                                             Some(CertSecret(n)), st.cert.valid))
  {
    hide Run, FlagsOk, SecretsOk, PassesOk, ExternalsOk, KeysDistinct;
    var w := Run(cfg, EMPTY_WORLD, actions);
    ReachableInv(cfg, actions);
    EmptyInv(cfg);
    RunAgrees(cfg, EMPTY_WORLD, actions, n);
    if n in w.certs { CertsHold(cfg, w, n); }
  }

  /** The dates of a signature: whole seconds, the start within the second of the reading before, the end
      within the second of the reading after plus the validity period. */
  lemma SigningDates(cfg: Config, w: World, n: Name, d: nat)
    requires n in cfg.certificates && n in w.passes && w.passes[n].ReadingOwnKey?
    ensures var e := Continue(cfg, w, n, d);
            e.Proceed? ==>
              && e.next.ReadingSignerCert? && e.elapsed == d && e.next.signedAt == w.clock + d
              && e.next.cert.notBefore % SECOND == 0 && e.next.cert.notBefore <= w.clock < e.next.cert.notBefore + SECOND
              && var end := w.clock + d + Interval(cfg.certificates[n]);
                 e.next.cert.notAfter % SECOND == 0 && e.next.cert.notAfter <= end < e.next.cert.notAfter + SECOND
  {
    hide ReadKey, Interval;
  }

  /** The periods when the spec names none, and when what it names is out of range. */
  lemma Periods(spec: CertificateSpec)
    ensures spec.renewInterval.None? ==> Interval(spec) == 2_592_000 * SECOND
    ensures spec.renewBefore.None? ==> Before(spec) == Some(604_800 * SECOND)
    ensures spec.renewInterval.Some? ==>
              Interval(spec) == if spec.renewInterval.value <= MAX_DURATION then spec.renewInterval.value else 0
    ensures spec.renewBefore.Some? ==>
              Before(spec) == if spec.renewBefore.value <= MAX_DURATION then spec.renewBefore else None
  {
  }
}
