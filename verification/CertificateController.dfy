/** The controllers' own code, statement by statement, over a store that it updates in place.
    Each method is proved against the step machine: a pass that nothing interrupts does exactly
    what the run of its single steps does. */
module CertificateController {
  import opened Wrappers
  import opened Conditions
  import opened CertificateTypes
  import opened CertificateWorld
  import opened CertificateProgress
  import opened CertificatePublished
  import opened ExternalProvenance

  datatype Error =
    | NotFound(what: string)
    | AlreadyExists
    | MissingAnnotation(name: string)
    | Other(message: string)

  /** `set_availability_conditions`. */
  method SetAvailabilityConditions(generation: int, status: CertificateStatus, now: Time) returns (st: CertificateStatus)
    ensures st == WithAvailability(generation, status, now)
  {
    st := status;
    var keyReady := st.keyExists && st.key.secret.Some?;
    var certReady := st.certExists && st.cert.valid && st.cert.secret.Some?;
    st := st.(conditions := PutBool(st.conditions, TypeKeyReady, keyReady,
                                    if keyReady then "KeyAvailable" else "KeyMissing", "", generation, now));
    st := st.(conditions := PutBool(st.conditions, TypeCertReady, certReady,
                                    if certReady then "CertAvailable" else "CertMissingOrInvalid", "", generation, now));
    var ready := keyReady && certReady;
    st := st.(conditions := PutBool(st.conditions, TypeReady, ready, if ready then "Ready" else "PrerequisitesNotReady",
                                    MissingMessage(keyReady, certReady), generation, now));
  }

  /** `valid_until`. */
  function ValidUntil(st: CertificateStatus): Result<Time, Error> {
    match st.cert.validUntil
    case Some(t) => Ok(t)
    case None => Err(MissingAnnotation("validUntil"))
  }

  /** `validate_cert`. */
  method ValidateCert(spec: CertificateSpec, status: CertificateStatus, now: Time) returns (r: Result<CertificateStatus, Error>)
    ensures r.Err? <==> status.cert.validUntil.None? || Before(spec).None?
    ensures r.Ok? ==>
              && (r.value.cert.valid <==> status.cert.validUntil.value > now)
              && (r.value.needsRenewal <==> status.cert.validUntil.value - Before(spec).value <= now)
              && r.value == status.(cert := status.cert.(valid := r.value.cert.valid), needsRenewal := r.value.needsRenewal,
                                    conditions := RenewalCondition(status.conditions, r.value.needsRenewal, spec.generation, now))
  {
    var st := status;
    var until := ValidUntil(status);
    if until.Err? {
      return Err(until.error);
    }
    st := st.(cert := st.cert.(valid := until.value > now));
    if Before(spec).None? {
      return Err(Other("renewBefore out of range"));
    }
    var renewBefore := until.value - Before(spec).value;
    st := st.(needsRenewal := renewBefore <= now);
    st := st.(conditions := RenewalCondition(st.conditions, st.needsRenewal, spec.generation, now));
    return Ok(st);
  }

  /** The part of `create_cert` that writes the new certificate into the status. */
  method RecordCert(spec: CertificateSpec, n: Name, status: CertificateStatus, cert: Cert, now: Time) returns (st: CertificateStatus)
    ensures st == WithCert(spec, n, status, cert, now)
  {
    hide PutBool;
    st := status;
    st := st.(cert := st.cert.(name := Some(cert.subject)));
    st := st.(cert := st.cert.(signerKey := Some(cert.signer)));
    st := st.(cert := st.cert.(issuedAt := Some(cert.notBefore)));
    st := st.(cert := st.cert.(validUntil := Some(cert.notAfter)));
    st := st.(cert := st.cert.(secret := Some(CertSecret(n))));
    st := st.(cert := st.cert.(valid := true));
    st := st.(certExists := true);
    st := st.(needsRenewal := false);
    st := st.(conditions := RenewalCondition(st.conditions, false, spec.generation, now));
    st := SetAvailabilityConditions(spec.generation, st, now);
    st := st.(conditions := PutBool(st.conditions, TypeIssuing, false, "Renewed", "Certificate (re)issued", spec.generation, now));
  }

  lemma AvailabilityFlag(generation: int, st: CertificateStatus, now: Time)
    ensures Flag(WithAvailability(generation, st, now).conditions, TypeIssuing) == Flag(st.conditions, TypeIssuing)
  {
    hide PutBool, Flag, MissingMessage;
  }

  lemma KeyFlag(spec: CertificateSpec, n: Name, st: CertificateStatus, key: Key, now: Time)
    ensures Flag(WithKey(spec, n, st, key, now).conditions, TypeIssuing) == Flag(st.conditions, TypeIssuing)
  {
    hide PutBool, Flag;
  }

  lemma ValidatedFlag(spec: CertificateSpec, st: CertificateStatus, start: Time, now: Time)
    requires Validated(spec, st, start, now).Some?
    ensures Flag(Validated(spec, st, start, now).value.conditions, TypeIssuing) == Flag(st.conditions, TypeIssuing)
  {
    hide PutBool, Flag, WithAvailability;
    var needed := st.cert.validUntil.value - Before(spec).value <= now;
    var st1 := st.(cert := st.cert.(valid := st.cert.validUntil.value > now), needsRenewal := needed);
    AvailabilityFlag(spec.generation, st1.(conditions := RenewalCondition(st1.conditions, needed, spec.generation, now)), now);
  }

  lemma CertFlag(spec: CertificateSpec, n: Name, st: CertificateStatus, cert: Cert, now: Time)
    ensures Flag(WithCert(spec, n, st, cert, now).conditions, TypeIssuing) == Some(false)
  {
    hide PutBool, Flag, WithAvailability;
  }

  lemma IssuerFlag(spec: CertificateSpec, st: CertificateStatus, ready: bool, now: Time)
    ensures Flag(WithCertificateIssuer(spec, st, ready, now).conditions, TypeIssuing) == Flag(st.conditions, TypeIssuing)
    ensures Flag(WithExternalIssuer(spec, st, ready, now).conditions, TypeIssuing) == Flag(st.conditions, TypeIssuing)
  {
    hide PutBool, Flag;
  }

  /** No pass makes Issuing True in what it publishes. */
  lemma PatchedDiffers(cfg: Config, w: World, n: Name, d: nat)
    requires n in cfg.certificates && n in w.certs
    ensures Flag(StatusOf(w, n).conditions, TypeIssuing) != Some(true) ==>
              Flag(StatusOf(Settle(w, n, WholePass(cfg, w, n, d)), n).conditions, TypeIssuing) != Some(true)
  {
    hide WithKey, Validated, IssuingPass, Flag;
    var spec := cfg.certificates[n];
    var st := StatusOf(w, n);
    SettledStatus(w, n, WholePass(cfg, w, n, d));
    if !st.keyExists {
      KeyFlag(spec, n, st, Generated(w.nextKey), w.clock);
    } else if st.certExists && !st.needsRenewal {
      if Validated(spec, st, w.clock, w.clock + d).Some? { ValidatedFlag(spec, st, w.clock, w.clock + d); }
    } else {
      IssuingOutcome(cfg, w, n, st, d);
    }
  }

  /** What the match of `reconcile` has made of the store and hands on, for the outcome `o` of the whole pass. */
  ghost predicate StatusMade(w: World, n: Name, o: Outcome, w': World, r: Result<CertificateStatus, Error>, signedAt: Option<Time>) {
    match o
    case Nothing(e) => r.Err? && w' == w.(clock := w.clock + e)
    case NewStatus(st, e) => r == Ok(st) && signedAt == None && w' == w.(clock := w.clock + e)
    case NewKey(st) =>
      r == Ok(st) && signedAt == None
      && w' == w.(secrets := w.secrets[KeySecret(n) := Secret(Some(Generated(w.nextKey)), None, None)], nextKey := w.nextKey + 1)
    case NewCert(st, x, e, at) =>
      r == Ok(st) && signedAt == Some(at) && w' == w.(secrets := w.secrets[CertSecret(n) := x], clock := w.clock + e)
  }

  function Recorded(w: World, n: Name, st: CertificateStatus, signedAt: Option<Time>): World {
    w.(certs := w.certs[n := Some(st)], log := if signedAt.Some? then w.log[n := Log(w, n) + [signedAt.value]] else w.log)
  }

  /** With the status patched, that is the whole pass. */
  lemma PatchSettles(w: World, n: Name, o: Outcome, w': World, r: Result<CertificateStatus, Error>, signedAt: Option<Time>)
    requires StatusMade(w, n, o, w', r, signedAt) && w.passes == map[]
    ensures r.Err? <==> o.Nothing?
    ensures (if r.Ok? then Recorded(w', n, r.value, signedAt) else w') == Settle(w, n, o)
  {
    assert w.passes - {n} == map[];
  }

  lemma SettledStatus(w: World, n: Name, o: Outcome)
    ensures StatusOf(Settle(w, n, o), n) == if o.Nothing? then StatusOf(w, n) else o.st
  {
  }

  lemma IssuingOutcome(cfg: Config, w: World, n: Name, base: CertificateStatus, d: nat)
    requires n in cfg.certificates
    ensures var o := IssuingPass(cfg, w, n, base, d);
            && (o.Nothing? || o.NewStatus? || o.NewCert?)
            && (o.NewStatus? ==> Flag(o.st.conditions, TypeIssuing) == Flag(base.conditions, TypeIssuing))
            && (o.NewCert? ==> Flag(o.st.conditions, TypeIssuing) == Some(false))
  {
    hide WithCertificateIssuer, WithExternalIssuer, WithCert, Flag, Trunc, Interval;
    var spec := cfg.certificates[n];
    IssuerFlag(spec, base, false, w.clock);
    match Resolve(cfg, w, n, base) {
      case Ready(st, ref) =>
        var o := Issue(spec, w, n, base, st, ref, d);
        if o.NewCert? { CertFlag(spec, n, st, o.secret.cert.value, w.clock + d); }
      case _ =>
    }
  }

  /** The API server's store as one controller process sees it between its calls. */
  class Cluster {
    const cfg: Config
    var certs: map<Name, Option<CertificateStatus>>
    var externals: map<Name, Option<ExternalStatus>>
    var secrets: map<SecretName, Secret>
    var clock: Time
    var nextKey: nat
    ghost var log: map<Name, seq<Time>>

    constructor (cfg: Config)
      ensures this.cfg == cfg && Snapshot() == EMPTY_WORLD
    {
      this.cfg := cfg;
      certs, externals, secrets := map[], map[], map[];
      clock, nextKey := 0, 0;
      log := map[];
    }

    ghost function Snapshot(): World
      reads this
    {
      World(certs, externals, secrets, clock, nextKey, map[], map[], log)
    }

    /** `key_text_from_secret` for ndn.key. */
    method KeyFromSecret(name: SecretName) returns (r: Result<Key, Error>)
      ensures match ReadKey(Snapshot(), name) case Some(k) => r == Ok(k) case None => r.Err?
    {
      if name !in secrets {
        return Err(NotFound("secret"));
      }
      match secrets[name].key {
        case Some(k) => return Ok(k);
        case None => return Err(Other("Key data not found"));
      }
    }

    /** `key_text_from_secret` for ndn.cert. */
    method CertFromSecret(name: SecretName) returns (r: Result<Cert, Error>)
      ensures match ReadCert(Snapshot(), name) case Some(c) => r == Ok(c) case None => r.Err?
    {
      if name !in secrets {
        return Err(NotFound("secret"));
      }
      match secrets[name].cert {
        case Some(c) => return Ok(c);
        case None => return Err(Other("Key data not found"));
      }
    }

    /** `create_key`. */
    method CreateKey(n: Name, status: CertificateStatus) returns (r: Result<CertificateStatus, Error>)
      requires n in cfg.certificates
      modifies this`secrets, this`nextKey
      ensures r.Err? <==> KeySecret(n) in old(secrets)
      ensures r.Err? ==> secrets == old(secrets) && nextKey == old(nextKey)
      ensures r.Ok? ==>
                && r.value == WithKey(cfg.certificates[n], n, status, Generated(old(nextKey)), clock)
                && secrets == old(secrets)[KeySecret(n) := Secret(Some(Generated(old(nextKey))), None, None)]
                && nextKey == old(nextKey) + 1
    {
      var key := Generated(nextKey);
      if KeySecret(n) in secrets {
        return Err(AlreadyExists);
      }
      nextKey := nextKey + 1;
      secrets := secrets[KeySecret(n) := Secret(Some(key), None, None)];
      var st := status;
      st := st.(key := st.key.(name := Some(key)));
      st := st.(key := st.key.(secret := Some(KeySecret(n))));
      st := st.(keyExists := true);
      st := st.(conditions := PutBool(st.conditions, TypeKeyReady, true, "KeyGenerated", "Key secret created",
                                      cfg.certificates[n].generation, clock));
      return Ok(st);
    }

    /** The issuer part of `create_cert`: which Secrets to sign with, or why not now. */
    method ResolveIssuerOf(n: Name, status: CertificateStatus) returns (r: Result<Resolution, Error>)
      requires n in cfg.certificates
      ensures r.Err? <==> Resolve(cfg, Snapshot(), n, status).Failed?
      ensures r.Ok? ==> r.value == Resolve(cfg, Snapshot(), n, status)
      ensures r.Ok? <==> IssuerRecorded(cfg, Snapshot(), n)
      ensures r.Ok? ==> ShowsIssuer(cfg, Snapshot(), n, status, r.value)
      ensures r.Err? && cfg.certificates[n].issuerKind.OtherKind? ==>
                r.error == Other("Unsupported issuer kind: " + cfg.certificates[n].issuerKind.kind)
      ensures r.Err? && cfg.certificates[n].issuerKind.CertificateKind? ==>
                r.error == if cfg.certificates[n].issuerName !in certs then NotFound("issuer") else Other("Issuer status not found")
      ensures r.Err? && cfg.certificates[n].issuerKind.ExternalKind? ==>
                r.error == if cfg.certificates[n].issuerName !in externals then NotFound("issuer") else Other("Issuer status not found")
    {
      hide WithCertificateIssuer, WithExternalIssuer, ShowsIssuer;
      ResolveShowsIssuer(cfg, Snapshot(), n, status);
      var spec := cfg.certificates[n];
      var st := status;
      match spec.issuerKind {
        case CertificateKind =>
          if spec.issuerName !in certs {
            return Err(NotFound("issuer"));
          }
          if certs[spec.issuerName].None? {
            return Err(Other("Issuer status not found"));
          }
          var issuer := certs[spec.issuerName].value;
          var keySecret := if issuer.keyExists then issuer.key.secret else None;
          var certSecret := if issuer.certExists then issuer.cert.secret else None;
          var selfSigned := spec.issuerName == n;
          var ready := keySecret.Some? && (selfSigned || certSecret.Some?);
          st := WithCertificateIssuer(spec, st, ready, clock);
          if !ready {
            return Ok(NotReady(st));
          }
          return Ok(Ready(st, SignerRef(keySecret.value, certSecret, selfSigned)));
        case ExternalKind =>
          if spec.issuerName !in externals {
            return Err(NotFound("issuer"));
          }
          if externals[spec.issuerName].None? {
            return Err(Other("Issuer status not found"));
          }
          var issuer := externals[spec.issuerName].value;
          var keySecret := if issuer.keyExists then issuer.key.secret else None;
          var certSecret := if issuer.certExists then issuer.cert.secret else None;
          var ready := keySecret.Some?;
          st := WithExternalIssuer(spec, st, ready, clock);
          if !ready {
            return Ok(NotReady(st));
          }
          return Ok(Ready(st, SignerRef(keySecret.value, certSecret, false)));
        case OtherKind(kind) =>
          return Err(Other("Unsupported issuer kind: " + kind));
      }
    }

    /** The rest of `create_cert`: reads the keys, signs, stores the certificate. `d` passes between
        the readings for the start and the end of the validity period. */
    method SignAndStore(n: Name, base: CertificateStatus, status: CertificateStatus, ref: SignerRef, d: nat)
      returns (r: Result<CertificateStatus, Error>, ghost signedAt: Option<Time>)
      requires n in cfg.certificates
      modifies this`secrets, this`clock
      ensures match Issue(cfg.certificates[n], old(Snapshot()), n, base, status, ref, d)
              case Nothing(e) => r.Err? && secrets == old(secrets) && clock == old(clock) + e
              case NewCert(st, x, e, at) =>
                && r == Ok(st) && signedAt == Some(at)
                && secrets == old(secrets)[CertSecret(n) := x] && clock == old(clock) + e
              case _ => false
    {
      hide WithCert, Trunc, Interval;
      signedAt := None;
      var spec := cfg.certificates[n];
      var signerKey := KeyFromSecret(ref.keySecret);
      if signerKey.Err? {
        return Err(signerKey.error), None;
      }
      if base.key.secret.None? {
        return Err(Other("Key secret not found")), None;
      }
      var ownKey := KeyFromSecret(base.key.secret.value);
      if ownKey.Err? {
        return Err(ownKey.error), None;
      }
      var start := clock;
      clock := clock + d;
      var end := clock + Interval(spec);
      var cert := Cert(ownKey.value, signerKey.value, Trunc(start), Trunc(end));
      var signerCert := cert;
      match ref.certSecret {
        case Some(name) =>
          var c := CertFromSecret(name);
          if c.Err? {
            return Err(c.error), None;
          }
          signerCert := c.value;
        case None =>
          if !ref.selfSigned {
            return Err(Other("Signer cert secret not found")), None;
          }
      }
      secrets := secrets[CertSecret(n) := Secret(None, Some(cert), Some(signerCert))];
      var st := RecordCert(spec, n, status, cert, clock);
      return Ok(st), Some(clock);
    }

    /** The (true, true, false) branch of `reconcile`; `d` passes between its two clock readings. */
    method Revalidate(n: Name, status: CertificateStatus, d: nat) returns (r: Result<CertificateStatus, Error>, delay: Time)
      requires n in cfg.certificates
      modifies this`clock
      ensures clock == old(clock) + d
      ensures match Validated(cfg.certificates[n], status, old(clock), clock)
              case None => r.Err?
              case Some(st) => r == Ok(st) && status.cert.validUntil.Some? && old(clock) + delay == status.cert.validUntil.value
    {
      hide PutBool;
      var now := clock;
      clock := clock + d;
      var until := ValidUntil(status);
      if until.Err? {
        return Err(until.error), 0;
      }
      if until.value - now < 0 {
        return Err(Other("requeue duration out of range")), 0;
      }
      delay := until.value - now;
      var validated := ValidateCert(cfg.certificates[n], status, clock);
      if validated.Err? {
        return Err(validated.error), delay;
      }
      var st := SetAvailabilityConditions(cfg.certificates[n].generation, validated.value, clock);
      return Ok(st), delay;
    }

    /** `create_cert`. */
    method CreateCert(n: Name, status: CertificateStatus, d: nat) returns (r: Result<CertificateStatus, Error>, ghost signedAt: Option<Time>)
      requires n in cfg.certificates
      modifies this`secrets, this`clock
      ensures match IssuingPass(cfg, old(Snapshot()), n, status, d)
              case Nothing(e) => r.Err? && secrets == old(secrets) && clock == old(clock) + e
              case NewStatus(st, e) => r == Ok(st) && signedAt == None && secrets == old(secrets) && clock == old(clock) + e
              case NewCert(st, x, e, at) =>
                && r == Ok(st) && signedAt == Some(at)
                && secrets == old(secrets)[CertSecret(n) := x] && clock == old(clock) + e
              case _ => false
    {
      hide Resolve, Issue;
      signedAt := None;
      var resolved := ResolveIssuerOf(n, status);
      if resolved.Err? {
        return Err(resolved.error), None;
      }
      match resolved.value {
        case NotReady(st) =>
          return Ok(st), None;
        case Ready(st, ref) =>
          r, signedAt := SignAndStore(n, status, st, ref, d);
      }
    }

    /** The working copy of the status, with RenewalRequired surfaced from the current flag. */
    method WorkingCopy(n: Name, status: CertificateStatus) returns (working: Holder<ConditionType>)
      requires n in cfg.certificates
      ensures fresh(working)
      ensures working.conditions == RenewalCondition(status.conditions, status.needsRenewal, cfg.certificates[n].generation, clock)
    {
      hide PutBool;
      working := new Holder();
      working.conditions := status.conditions;
      working.UpsertBool(TypeRenewalRequired, status.needsRenewal,
                         if status.needsRenewal then "RenewalWindow" else "NotInWindow", None, cfg.certificates[n].generation, clock);
    }

    /** The match of `reconcile`: the status to publish. `dropped` is what the working copy holds by then. */
    method NextStatus(n: Name, status: CertificateStatus, d: nat)
        returns (r: Result<CertificateStatus, Error>, delay: Time, ghost signedAt: Option<Time>, ghost dropped: ConditionsField)
      requires n in cfg.certificates && status == StatusOf(Snapshot(), n)
      modifies this`secrets, this`clock, this`nextKey
      ensures StatusMade(old(Snapshot()), n, WholePass(cfg, old(Snapshot()), n, d), Snapshot(), r, signedAt)
      ensures r.Ok? ==>
                if status.keyExists && status.certExists && !status.needsRenewal then
                  status.cert.validUntil.Some? && old(clock) + delay == status.cert.validUntil.value
                else delay == 5 * SECOND
      ensures dropped == Working(cfg.certificates[n], status, old(clock))
    {
      hide Validated, IssuingPass, WithKey, PutBool, RenewalCondition;
      var spec := cfg.certificates[n];
      delay := 5 * SECOND;
      signedAt := None;
      var working := WorkingCopy(n, status);
      if !status.keyExists {
        dropped := working.conditions;
        r := CreateKey(n, status);
      } else if !status.certExists {
        working.UpsertBool(TypeIssuing, true, "Issuing", Some("Issuing certificate"), spec.generation, clock);
        dropped := working.conditions;
        r, signedAt := CreateCert(n, status, d);
        IssuingOutcome(cfg, old(Snapshot()), n, status, d);
      } else if status.needsRenewal {
        working.UpsertBool(TypeIssuing, true, "Renewing", Some("Renewal is in progress"), spec.generation, clock);
        dropped := working.conditions;
        r, signedAt := CreateCert(n, status, d);
        IssuingOutcome(cfg, old(Snapshot()), n, status, d);
      } else {
        dropped := working.conditions;
        r, delay := Revalidate(n, status, d);
      }
    }

    /** `reconcile`: on success the delay until the next pass. The status patched is never the working copy. */
    method Reconcile(n: Name, d: nat) returns (r: Result<Time, Error>, ghost dropped: ConditionsField)
      requires n in cfg.certificates && n in certs
      modifies this`certs, this`secrets, this`clock, this`nextKey, this`log
      ensures Snapshot() == Settle(old(Snapshot()), n, WholePass(cfg, old(Snapshot()), n, d))
      ensures r.Err? <==> WholePass(cfg, old(Snapshot()), n, d).Nothing?
      ensures r.Ok? ==>
                var st := StatusOf(old(Snapshot()), n);
                if st.keyExists && st.certExists && !st.needsRenewal then
                  st.cert.validUntil.Some? && old(clock) + r.value == st.cert.validUntil.value
                else r.value == 5 * SECOND
      ensures dropped == Working(cfg.certificates[n], StatusOf(old(Snapshot()), n), old(clock))
      ensures Flag(dropped, TypeIssuing) == Some(true) && Flag(StatusOf(old(Snapshot()), n).conditions, TypeIssuing) != Some(true)
              ==> StatusOf(Snapshot(), n).conditions != dropped
    {
      ghost var before := Snapshot();
      assert StatusOf(before, n) == certs[n].GetOr(DEFAULT_STATUS);
      hide WholePass, Working, Flag, Settle, StatusOf, StatusMade, Recorded;
      var newStatus, delay;
      ghost var signedAt;
      newStatus, delay, signedAt, dropped := NextStatus(n, certs[n].GetOr(DEFAULT_STATUS), d);
      PatchedDiffers(cfg, before, n, d);
      PatchSettles(before, n, WholePass(cfg, before, n, d), Snapshot(), newStatus, signedAt);
      if newStatus.Err? {
        return Err(newStatus.error), dropped;
      }
      PatchStatus(n, newStatus.value, signedAt);
      return Ok(delay), dropped;
    }

    /** `patch_status`; the log is auxiliary. */
    method PatchStatus(n: Name, st: CertificateStatus, ghost signedAt: Option<Time>)
      modifies this`certs, this`log
      ensures Snapshot() == Recorded(old(Snapshot()), n, st, signedAt)
    {
      certs := certs[n := Some(st)];
      if signedAt.Some? {
        log := log[n := (if n in log then log[n] else []) + [signedAt.value]];
      }
    }

    /** The external controller's `reconcile`. An entry that is missing, or that does not parse, is None. */
    method ReconcileExternal(e: Name) returns (r: Result<(), Error>)
      requires e in cfg.externals && e in externals
      modifies this`externals
      ensures r.Err? <==> cfg.externals[e].secretName !in secrets
      ensures externals ==
              if cfg.externals[e].secretName !in secrets then old(externals)
              else old(externals)[e := Some(Observed(cfg.externals[e], old(externals)[e].GetOr(DEFAULT_EXTERNAL),
                                                     secrets[cfg.externals[e].secretName], clock))]
      ensures r.Err? ==> r.error == NotFound("secret")
      ensures r.Ok? ==> externals[e].Some? && Reports(cfg.externals[e], old(externals)[e].GetOr(DEFAULT_EXTERNAL),
                                                      secrets[cfg.externals[e].secretName], clock, externals[e].value)
    {
      hide PutBool, Reports;
      if cfg.externals[e].secretName in secrets {
        ObservedReports(cfg.externals[e], externals[e].GetOr(DEFAULT_EXTERNAL), secrets[cfg.externals[e].secretName], clock);
      }
      var spec := cfg.externals[e];
      var st := externals[e].GetOr(DEFAULT_EXTERNAL);
      if spec.secretName !in secrets {
        return Err(NotFound("secret"));
      }
      var secret := secrets[spec.secretName];
      match secret.key {
        case Some(key) =>
          st := st.(key := st.key.(name := Some(key)));
          st := st.(key := st.key.(secret := Some(spec.secretName)));
          st := st.(keyExists := true);
        case None =>
          st := st.(keyExists := false);
      }
      match secret.cert {
        case Some(cert) =>
          st := st.(cert := st.cert.(name := Some(cert.subject)));
          st := st.(cert := st.cert.(signerKey := Some(cert.signer)));
          st := st.(cert := st.cert.(issuedAt := Some(cert.notBefore)));
          st := st.(cert := st.cert.(validUntil := Some(cert.notAfter)));
          st := st.(cert := st.cert.(secret := Some(spec.secretName)));
          st := st.(cert := st.cert.(valid := cert.notAfter > clock));
          st := st.(certExists := true);
        case None =>
          st := st.(certExists := false);
          st := st.(cert := st.cert.(valid := false));
      }
      externals := externals[e := Some(WithExternalAvailability(spec.generation, st, clock))];
      return Ok(());
    }
  }
}
