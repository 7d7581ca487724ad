/** From the references on a pod to the Secrets that are mounted: `resolve_credentials` and
    `validate_resolved_certificate` of src/bin/injector.rs, over the certificate controllers' store. */
module CredentialResolution {
  import opened Wrappers
  import opened CertificateTypes
  import opened CertificateWorld
  import CertificateSafety
  import CertificateTheorems
  import CertificateProvenance
  import ExternalProvenance
  import CredentialRef
  import Injector

  datatype ResolveError =
    | NotFound(ref: CredentialRef.Reference)
    | NoStatus(ref: CredentialRef.Reference)
    | CredentialNotReady(ref: CredentialRef.Reference)
    | NoCertSecret(ref: CredentialRef.Reference)
    | NoPrivateKey(ref: CredentialRef.Reference)

  /** The Secrets a reference leads to. */
  datatype Resolved = Resolved(keySecret: Option<SecretName>, certSecret: SecretName)

  /** `validate_resolved_certificate`. */
  function Validate(ref: CredentialRef.Reference, requireKey: bool, keyExists: bool, keySecret: Option<SecretName>,
                    certExists: bool, certValid: bool, certSecret: Option<SecretName>): (r: Result<Resolved, ResolveError>)
    ensures r.Ok? <==> certExists && certValid && certSecret.Some? && (requireKey ==> keyExists && keySecret.Some?)
    ensures r.Ok? ==> r.value.keySecret == keySecret && Some(r.value.certSecret) == certSecret
    ensures r == Err(CredentialNotReady(ref)) <==> !(certExists && certValid)
    ensures r == Err(NoCertSecret(ref)) <==> certExists && certValid && certSecret.None?
    ensures r == Err(NoPrivateKey(ref)) <==>
              certExists && certValid && certSecret.Some? && requireKey && !(keyExists && keySecret.Some?)
  {
    if !certExists || !certValid then Err(CredentialNotReady(ref))
    else if certSecret.None? then Err(NoCertSecret(ref))
    else if requireKey && (!keyExists || keySecret.None?) then Err(NoPrivateKey(ref))
    else Ok(Resolved(keySecret, certSecret.value))
  }

  /** `resolve_certificate`. */
  function Resolve(w: World, ref: CredentialRef.Reference, requireKey: bool): Result<Resolved, ResolveError> {
    var n := Name(ref.name);
    match ref.kind
    case Certificate =>
      if n !in w.certs then Err(NotFound(ref))
      else if w.certs[n].None? then Err(NoStatus(ref))
      else
        var st := w.certs[n].value;
        Validate(ref, requireKey, st.keyExists, st.key.secret, st.certExists, st.cert.valid, st.cert.secret)
    case ExternalCertificate =>
      if n !in w.externals then Err(NotFound(ref))
      else if w.externals[n].None? then Err(NoStatus(ref))
      else
        var st := w.externals[n].value;
        Validate(ref, requireKey, st.keyExists, st.key.secret, st.certExists, st.cert.valid, st.cert.secret)
  }

  // ---------------------------------------------------------------------------------------
  // The same, told by what is recorded
  // ---------------------------------------------------------------------------------------

  /** The object that a reference names is there, of the kind it names. */
  predicate Exists(w: World, ref: CredentialRef.Reference) {
    if ref.kind.Certificate? then Name(ref.name) in w.certs else Name(ref.name) in w.externals
  }

  predicate HasStatus(w: World, ref: CredentialRef.Reference) {
    && Exists(w, ref)
    && if ref.kind.Certificate? then w.certs[Name(ref.name)].Some? else w.externals[Name(ref.name)].Some?
  }

  /** What the recorded status says of the certificate. */
  function CertOf(w: World, ref: CredentialRef.Reference): CertStatus
    requires HasStatus(w, ref)
  {
    if ref.kind.Certificate? then w.certs[Name(ref.name)].value.cert else w.externals[Name(ref.name)].value.cert
  }

  predicate HasValidCert(w: World, ref: CredentialRef.Reference) {
    && HasStatus(w, ref) && CertOf(w, ref).valid
    && if ref.kind.Certificate? then w.certs[Name(ref.name)].value.certExists else w.externals[Name(ref.name)].value.certExists
  }

  /** The Secret of the key, when the recorded status says that there is a key. */
  function KeySecretOf(w: World, ref: CredentialRef.Reference): Option<SecretName>
    requires HasStatus(w, ref)
  {
    if ref.kind.Certificate? then
      var st := w.certs[Name(ref.name)].value;
      if st.keyExists then st.key.secret else None
    else
      var st := w.externals[Name(ref.name)].value;
      if st.keyExists then st.key.secret else None
  }

  /** A reference that may be mounted, to sign with when `sign`. */
  predicate Usable(w: World, ref: CredentialRef.Reference, sign: bool) {
    && HasValidCert(w, ref)
    && CertOf(w, ref).secret.Some?
    && (sign ==> KeySecretOf(w, ref).Some?)
  }

  /** Why a reference may not, the first reason that applies. */
  predicate RefusedWith(w: World, ref: CredentialRef.Reference, sign: bool, e: ResolveError) {
    if !Exists(w, ref) then e == NotFound(ref)
    else if !HasStatus(w, ref) then e == NoStatus(ref)
    else if !HasValidCert(w, ref) then e == CredentialNotReady(ref)
    else if CertOf(w, ref).secret.None? then e == NoCertSecret(ref)
    else sign && KeySecretOf(w, ref).None? && e == NoPrivateKey(ref)
  }

  lemma ResolveMeans(w: World, ref: CredentialRef.Reference, sign: bool)
    ensures Resolve(w, ref, sign).Ok? <==> Usable(w, ref, sign)
    ensures Usable(w, ref, sign) ==> Some(Resolve(w, ref, sign).value.certSecret) == CertOf(w, ref).secret
    ensures Usable(w, ref, sign) && sign ==> Resolve(w, ref, sign).value.keySecret == KeySecretOf(w, ref)
    ensures !Usable(w, ref, sign) ==> RefusedWith(w, ref, sign, Resolve(w, ref, sign).error)
  {
    match ref.kind {
      case Certificate =>
      case ExternalCertificate =>
    }
  }

  /** The store as each API read finds it: the k-th read sees `views(k)`, whatever happened in between. */
  type Views = nat -> World

  /** Every reference may be mounted in the world of its own read, the first of them being read number `from`. */
  predicate AllUsable(views: Views, from: nat, refs: seq<CredentialRef.Reference>) {
    forall i :: 0 <= i < |refs| ==> Usable(views(from + i), refs[i], false)
  }

  /** `secrets` names, for each reference in order, the certificate Secret recorded at its read. */
  predicate Names(views: Views, from: nat, refs: seq<CredentialRef.Reference>, secrets: seq<string>)
    requires AllUsable(views, from, refs)
  {
    && |secrets| == |refs|
    && forall i :: 0 <= i < |refs| ==> secrets[i] == Render(CertOf(views(from + i), refs[i]).secret.value)
  }

  /** `e` is the reason of the first reference that may not be mounted. */
  ghost predicate FirstRefusal(views: Views, from: nat, refs: seq<CredentialRef.Reference>, e: ResolveError) {
    exists i :: 0 <= i < |refs| && AllUsable(views, from, refs[..i]) && RefusedWith(views(from + i), refs[i], false, e)
                && !Usable(views(from + i), refs[i], false)
  }

  /** One of the two loops of `resolve_credentials`: it stops at the first reference that fails. */
  method ResolveList(views: Views, from: nat, refs: seq<CredentialRef.Reference>) returns (r: Result<seq<string>, ResolveError>)
    ensures r.Ok? <==> AllUsable(views, from, refs)
    ensures r.Ok? ==> Names(views, from, refs, r.value)
    ensures r.Err? ==> FirstRefusal(views, from, refs, r.error)
  {
    hide Resolve, Usable, RefusedWith, CertOf, HasStatus, Render;
    var secrets := [];
    var i := 0;
    while i < |refs|
      invariant i <= |refs| && |secrets| == i && AllUsable(views, from, refs[..i])
      invariant Names(views, from, refs[..i], secrets)
    {
      ResolveMeans(views(from + i), refs[i], false);
      match Resolve(views(from + i), refs[i], false) {
        case Err(e) =>
          return Err(e);
        case Ok(found) =>
          secrets := secrets + [Render(found.certSecret)];
          i := i + 1;
      }
    }
    assert refs[..i] == refs;
    return Ok(secrets);
  }

  /** How many reads come before the trust anchors. */
  function SigningReads(request: CredentialRef.Request): nat {
    if request.signing.Some? then 1 else 0
  }

  /** How many come before the chain. */
  function AnchorReads(request: CredentialRef.Request): nat {
    SigningReads(request) + |request.trustAnchors|
  }

  predicate SigningUsable(views: Views, request: CredentialRef.Request) {
    request.signing.Some? ==> Usable(views(0), request.signing.value, true)
  }

  /** `resolve_credentials` for a parsed request: the signing certificate is read first, then the trust anchors,
      then the chain. */
  method ResolveRequest(views: Views, request: CredentialRef.Request) returns (r: Result<Injector.CredentialMounts, ResolveError>)
    ensures r.Ok? <==> SigningUsable(views, request)
                       && AllUsable(views, SigningReads(request), request.trustAnchors)
                       && AllUsable(views, AnchorReads(request), request.certificateChain)
    ensures r.Ok? ==> r.value.container == request.container && !Injector.KeyMissing(Some(r.value))
    ensures r.Ok? ==> (r.value.signing.Some? <==> request.signing.Some?)
    ensures r.Ok? && request.signing.Some? ==>
              var ref := request.signing.value;
              r.value.signing == Some(Injector.ResolvedCertificate(Some(Render(KeySecretOf(views(0), ref).value)),
                                                                   Render(CertOf(views(0), ref).secret.value)))
    ensures r.Ok? ==> Names(views, SigningReads(request), request.trustAnchors, r.value.trustAnchors)
    ensures r.Ok? ==> Names(views, AnchorReads(request), request.certificateChain, r.value.certificateChain)
    ensures !SigningUsable(views, request) ==> r.Err? && RefusedWith(views(0), request.signing.value, true, r.error)
    ensures SigningUsable(views, request) && !AllUsable(views, SigningReads(request), request.trustAnchors) ==>
              r.Err? && FirstRefusal(views, SigningReads(request), request.trustAnchors, r.error)
    ensures SigningUsable(views, request) && AllUsable(views, SigningReads(request), request.trustAnchors) && r.Err? ==>
              FirstRefusal(views, AnchorReads(request), request.certificateChain, r.error)
  {
    hide Resolve, Render, RefusedWith, FirstRefusal, Names, AllUsable;
    var signing: Option<Injector.ResolvedCertificate> := None;
    if request.signing.Some? {
      ResolveMeans(views(0), request.signing.value, true);
      match Resolve(views(0), request.signing.value, true) {
        case Err(e) =>
          return Err(e);
        case Ok(found) =>
          signing := Some(Injector.ResolvedCertificate(RenderOption(found.keySecret), Render(found.certSecret)));
      }
    }
    var anchors := ResolveList(views, SigningReads(request), request.trustAnchors);
    if anchors.Err? {
      return Err(anchors.error);
    }
    var chain := ResolveList(views, SigningReads(request) + |request.trustAnchors|, request.certificateChain);
    if chain.Err? {
      return Err(chain.error);
    }
    return Ok(Injector.CredentialMounts(request.container, signing, anchors.value, chain.value));
  }

  function RenderOption(s: Option<SecretName>): Option<string> {
    if s.Some? then Some(Render(s.value)) else None
  }

  // ---------------------------------------------------------------------------------------
  // What gets mounted, in every run of the controllers
  // ---------------------------------------------------------------------------------------

  /** Main result: when a Certificate may be mounted to sign with, the two Secrets that get mounted hold, then
      and in every later world, a key and a certificate for that very key. */
  lemma ResolvedSigningPairMatches(cfg: Config, actions: seq<Action>, later: seq<Action>, ref: CredentialRef.Reference)
    requires ValidConfig(cfg) && ref.kind.Certificate?
    requires Usable(Run(cfg, EMPTY_WORLD, actions), ref, true)
    ensures var w0 := Run(cfg, EMPTY_WORLD, actions);
            var w := Run(cfg, w0, later);
            && KeySecretOf(w0, ref) == Some(KeySecret(Name(ref.name)))
            && CertOf(w0, ref).secret == Some(CertSecret(Name(ref.name)))
            && ReadKey(w, KeySecretOf(w0, ref).value).Some?
            && ReadCert(w, CertOf(w0, ref).secret.value).Some?
            && ReadCert(w, CertOf(w0, ref).secret.value).value.subject == ReadKey(w, KeySecretOf(w0, ref).value).value
  {
    hide Run, CertificateSafety.FlagsOk;
    var n := Name(ref.name);
    var w := Run(cfg, EMPTY_WORLD, actions);
    CertificateTheorems.ReachableInv(cfg, actions);
    CertificateSafety.CertsHold(cfg, w, n);
    RunSplit(cfg, EMPTY_WORLD, actions, later);
    CertificateTheorems.RunGrows(cfg, w, later);
    CertificateTheorems.StoredCertificatesMatchKeys(cfg, actions + later, n);
  }

  /** Main result: when an ExternalCertificate may be mounted, then at an earlier step of the run a pass found in
      the very Secret that gets mounted a certificate that had not ended by then. */
  lemma UsableExternalWasValid(cfg: Config, actions: seq<Action>, ref: CredentialRef.Reference, sign: bool)
    requires ref.kind.ExternalCertificate?
    requires Usable(Run(cfg, EMPTY_WORLD, actions), ref, sign)
    ensures var e := Name(ref.name);
            && e in cfg.externals
            && CertOf(Run(cfg, EMPTY_WORLD, actions), ref).secret == Some(cfg.externals[e].secretName)
            && exists t: nat :: t < |actions| && actions[t] == BeginExternal(e)
                 && var w := CertificateProvenance.At(cfg, actions, t);
                    && ReadCert(w, cfg.externals[e].secretName).Some?
                    && w.clock < ReadCert(w, cfg.externals[e].secretName).value.notAfter
                    && (sign ==> ReadKey(w, cfg.externals[e].secretName).Some?)
  {
    hide Run, CertificateProvenance.At;
    ExternalProvenance.PublishedIsReported(cfg, actions, Name(ref.name));
  }
}
