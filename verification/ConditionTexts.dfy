/** The words of the published conditions: status, reason, message, generation and time of each entry that the
    certificate controllers upsert, as a reader of the list finds it. */
module ConditionTexts {
  import opened Wrappers
  import opened Conditions
  import opened CertificateTypes

  /** The entry that a reader finds for one type. */
  function Find<T(==)>(cs: ConditionList<T>, ty: T): Option<Condition<T>> {
    match cs
    case None => None
    case Some(l) => match Position(l, ty) case None => None case Some(p) => Some(l[p])
  }

  /** When the entry of a type last changed its status: at the old time if it had this status already. */
  function Since<T(==)>(was: ConditionList<T>, ty: T, b: bool, now: Time): Time {
    match Find(was, ty)
    case None => now
    case Some(c) => if c.status == (if b then "True" else "False") then c.lastTransitionTime else now
  }

  /** The entry of `ty` reads like this, after a change of the list `was` at `now`. */
  predicate Reads<T(==)>(cs: ConditionList<T>, was: ConditionList<T>, ty: T, b: bool, reason: string, message: string,
                         generation: int, now: Time) {
    Find(cs, ty) == Some(Condition(ty, if b then "True" else "False", reason, message, generation, Since(was, ty, b, now)))
  }

  lemma UpsertFinds<T>(cs: ConditionList<T>, c: Condition<T>, ty: T)
    ensures Find(Upsert(cs, c), ty)
            == if ty != c.type_ then Find(cs, ty)
               else match Find(cs, ty)
                    case None => Some(c)
                    case Some(was) => Some(if was.status == c.status then c.(lastTransitionTime := was.lastTransitionTime) else c)
  {
    var prior := cs.GetOr([]);
    var next := UpsertSeq(prior, c);
    assert forall j :: 0 <= j < |prior| ==> next[j].type_ == prior[j].type_;
    match Position(prior, ty) {
      case Some(p) => PositionIsFirst(next, ty, p);
      case None =>
        if ty == c.type_ {
          PositionIsFirst(next, ty, |prior|);
        } else {
          assert Position(next, ty).None?;
        }
    }
  }

  lemma PutReads<T(!new)>(cs: ConditionList<T>, ty: T, b: bool, reason: string, message: string, generation: int, now: Time)
    ensures var r := PutBool(cs, ty, b, reason, message, generation, now);
            Reads(r, cs, ty, b, reason, message, generation, now) && forall t: T :: t != ty ==> Find(r, t) == Find(cs, t)
  {
    var c := Condition(ty, StatusText(b), reason, message, generation, now);
    forall t: T ensures Find(Upsert(cs, c), t) == if t != ty then Find(cs, t) else Find(Upsert(cs, c), ty) {
      UpsertFinds(cs, c, t);
    }
    UpsertFinds(cs, c, ty);
  }

  /** KeyReady, CertReady and Ready of a Certificate. Ready names what is missing, the key first. */
  lemma AvailabilityReads(generation: int, st: CertificateStatus, now: Time)
    ensures var was, cs := st.conditions, WithAvailability(generation, st, now).conditions;
            var key := st.keyExists && st.key.secret.Some?;
            var cert := st.certExists && st.cert.valid && st.cert.secret.Some?;
            && Reads(cs, was, TypeKeyReady, key, if key then "KeyAvailable" else "KeyMissing", "", generation, now)
            && Reads(cs, was, TypeCertReady, cert, if cert then "CertAvailable" else "CertMissingOrInvalid", "", generation, now)
            && Reads(cs, was, TypeReady, key && cert, if key && cert then "Ready" else "PrerequisitesNotReady",
                     if key && cert then "" else if cert then "Missing prerequisites: Key"
                     else if key then "Missing prerequisites: Cert" else "Missing prerequisites: Key, Cert", generation, now)
            && forall t :: t != TypeKeyReady && t != TypeCertReady && t != TypeReady ==> Find(cs, t) == Find(was, t)
  {
    hide PutBool, Find, MissingMessage;
    var key, cert := KeyReady(st), CertReady(st);
    var c1 := PutBool(st.conditions, TypeKeyReady, key, if key then "KeyAvailable" else "KeyMissing", "", generation, now);
    var c2 := PutBool(c1, TypeCertReady, cert, if cert then "CertAvailable" else "CertMissingOrInvalid", "", generation, now);
    PutReads(st.conditions, TypeKeyReady, key, if key then "KeyAvailable" else "KeyMissing", "", generation, now);
    PutReads(c1, TypeCertReady, cert, if cert then "CertAvailable" else "CertMissingOrInvalid", "", generation, now);
    PutReads(c2, TypeReady, key && cert, if key && cert then "Ready" else "PrerequisitesNotReady", MissingMessage(key, cert), generation, now);
    MissingReads(key, cert);
  }

  lemma MissingReads(key: bool, cert: bool)
    ensures MissingMessage(key, cert) == if key && cert then "" else if cert then "Missing prerequisites: Key"
                                         else if key then "Missing prerequisites: Cert" else "Missing prerequisites: Key, Cert"
  {
    var start := "Missing prerequisites: ";
    assert start + "Key" == "Missing prerequisites: Key" && start + "Cert" == "Missing prerequisites: Cert";
    assert start + "Key" + ", " + "Cert" == "Missing prerequisites: Key, Cert";
  }

  /** RenewalRequired. */
  lemma RenewalReads(was: ConditionsField, needed: bool, generation: int, now: Time)
    ensures var cs := RenewalCondition(was, needed, generation, now);
            && Reads(cs, was, TypeRenewalRequired, needed, if needed then "RenewalWindow" else "NotInWindow", "", generation, now)
            && forall t :: t != TypeRenewalRequired ==> Find(cs, t) == Find(was, t)
  {
    PutReads(was, TypeRenewalRequired, needed, if needed then "RenewalWindow" else "NotInWindow", "", generation, now);
  }

  /** IssuerReady, by the kind of the issuer. */
  lemma IssuerReads(spec: CertificateSpec, st: CertificateStatus, ready: bool, now: Time)
    ensures Reads(WithCertificateIssuer(spec, st, ready, now).conditions, st.conditions, TypeIssuerReady, ready,
                  if ready then "IssuerResolved" else "IssuerNotReady",
                  if ready then "Certificate issuer is ready to sign"
                  else "Certificate issuer key or certificate is not available yet", spec.generation, now)
    ensures Reads(WithExternalIssuer(spec, st, ready, now).conditions, st.conditions, TypeIssuerReady, ready,
                  if ready then "IssuerResolved" else "IssuerMissingKey",
                  if ready then "ExternalIssuer status available"
                  else "ExternalCertificate issuer has no key; cannot sign", spec.generation, now)
  {
    hide PutBool, Find;
    PutReads(st.conditions, TypeIssuerReady, ready, if ready then "IssuerResolved" else "IssuerNotReady",
             if ready then "Certificate issuer is ready to sign" else "Certificate issuer key or certificate is not available yet",
             spec.generation, now);
    PutReads(st.conditions, TypeIssuerReady, ready, if ready then "IssuerResolved" else "IssuerMissingKey",
             if ready then "ExternalIssuer status available" else "ExternalCertificate issuer has no key; cannot sign",
             spec.generation, now);
  }

  /** The three conditions of an ExternalCertificate, which is ready without a key. */
  lemma ExternalReads(generation: int, st: ExternalStatus, now: Time)
    ensures var was, cs := st.conditions, WithExternalAvailability(generation, st, now).conditions;
            var key := st.keyExists && st.key.secret.Some?;
            var cert := st.certExists && st.cert.valid && st.cert.secret.Some?;
            && Reads(cs, was, TypeKeyReady, key, if key then "KeyAvailable" else "KeyMissing", "", generation, now)
            && Reads(cs, was, TypeCertReady, cert, if cert then "CertAvailable" else "CertMissingOrInvalid", "", generation, now)
            && Reads(cs, was, TypeReady, cert, if cert then "Ready" else "PrerequisitesNotReady", "", generation, now)
            && forall t :: t != TypeKeyReady && t != TypeCertReady && t != TypeReady ==> Find(cs, t) == Find(was, t)
  {
    hide PutBool, Find;
    var key, cert := st.keyExists && st.key.secret.Some?, ExternalCertReady(st);
    var c1 := PutBool(st.conditions, TypeKeyReady, key, if key then "KeyAvailable" else "KeyMissing", "", generation, now);
    var c2 := PutBool(c1, TypeCertReady, cert, if cert then "CertAvailable" else "CertMissingOrInvalid", "", generation, now);
    PutReads(st.conditions, TypeKeyReady, key, if key then "KeyAvailable" else "KeyMissing", "", generation, now);
    PutReads(c1, TypeCertReady, cert, if cert then "CertAvailable" else "CertMissingOrInvalid", "", generation, now);
    PutReads(c2, TypeReady, cert, if cert then "Ready" else "PrerequisitesNotReady", "", generation, now);
  }
}
