/** A pass that nothing interrupts, as one function, proved to be the run of its own single steps. */
module CertificateProgress {
  import opened Wrappers
  import opened Conditions
  import opened CertificateTypes
  import opened CertificateWorld

  /** What a whole pass writes. */
  datatype Outcome =
    | Nothing(elapsed: nat)
    | NewStatus(st: CertificateStatus, elapsed: nat)
    | NewKey(st: CertificateStatus)
    | NewCert(st: CertificateStatus, secret: Secret, elapsed: nat, signedAt: Time)

  function Settle(w: World, n: Name, o: Outcome): World {
    match o
    case Nothing(e) => w.(clock := w.clock + e, passes := w.passes - {n})
    case NewStatus(st, e) => w.(clock := w.clock + e, certs := w.certs[n := Some(st)], passes := w.passes - {n})
    case NewKey(st) =>
      w.(secrets := w.secrets[KeySecret(n) := Secret(Some(Generated(w.nextKey)), None, None)],
         nextKey := w.nextKey + 1,
         certs := w.certs[n := Some(st)],
         passes := w.passes - {n})
    case NewCert(st, x, e, at) =>
      w.(clock := w.clock + e,
         secrets := w.secrets[CertSecret(n) := x],
         certs := w.certs[n := Some(st)],
         log := w.log[n := Log(w, n) + [at]],
         passes := w.passes - {n})
  }

  /** The signer's certificate that will be stored next to `cert`. */
  function SignerCertFor(w: World, ref: SignerRef, cert: Cert): Option<Cert> {
    match ref.certSecret
    case Some(s) => ReadCert(w, s)
    case None => if ref.selfSigned then Some(cert) else None
  }

  /** Issuance once the issuer is known: reads both keys, signs, reads the signer's certificate. */
  function Issue(spec: CertificateSpec, w: World, n: Name, base: CertificateStatus, st: CertificateStatus,
                 ref: SignerRef, d: nat): Outcome {
    if ReadKey(w, ref.keySecret).None? || base.key.secret.None? || ReadKey(w, base.key.secret.value).None? then Nothing(0)
    else
      var own := ReadKey(w, base.key.secret.value).value;
      var now := w.clock + d;
      var cert := Cert(own, ReadKey(w, ref.keySecret).value, Trunc(w.clock), Trunc(now + Interval(spec)));
      match SignerCertFor(w, ref, cert)
      case None => Nothing(d)
      case Some(c) => NewCert(WithCert(spec, n, st, cert, now), Secret(None, Some(cert), Some(c)), d, now)
  }

  function IssuingPass(cfg: Config, w: World, n: Name, base: CertificateStatus, d: nat): Outcome
    requires n in cfg.certificates
  {
    match Resolve(cfg, w, n, base)
    case Failed => Nothing(0)
    case NotReady(st) => NewStatus(st, 0)
    case Ready(st, ref) => Issue(cfg.certificates[n], w, n, base, st, ref, d)
  }

  /** The whole pass on `n`, without interference. */
  function WholePass(cfg: Config, w: World, n: Name, d: nat): Outcome
    requires n in cfg.certificates
  {
    var spec := cfg.certificates[n];
    var st := StatusOf(w, n);
    if !st.keyExists then
      if KeySecret(n) in w.secrets then Nothing(0)
      else NewKey(WithKey(spec, n, st, Generated(w.nextKey), w.clock))
    else if st.certExists && !st.needsRenewal then
      match Validated(spec, st, w.clock, w.clock + d)
      case None => Nothing(d)
      case Some(st1) => NewStatus(st1, d)
    else IssuingPass(cfg, w, n, st, d)
  }

  // ---------------------------------------------------------------------------------------
  // The whole pass is a run of single steps
  // ---------------------------------------------------------------------------------------

  function PassActions(n: Name, d: nat): seq<Action> {
    [BeginPass(n, d)] + Continues(n, d, 6)
  }

  function Continues(n: Name, d: nat, k: nat): seq<Action> {
    if k == 0 then [] else [ContinuePass(n, d)] + Continues(n, d, k - 1)
  }

  function Drive(cfg: Config, w: World, n: Name, d: nat, k: nat): World
    decreases k
  {
    if k == 0 then w else Drive(cfg, Step(cfg, w, ContinuePass(n, d)), n, d, k - 1)
  }

  lemma {:induction false} DriveIsRun(cfg: Config, w: World, n: Name, d: nat, k: nat)
    ensures Run(cfg, w, Continues(n, d, k)) == Drive(cfg, w, n, d, k)
    decreases k
  {
    hide Step;
    if k > 0 {
      assert Continues(n, d, k)[1..] == Continues(n, d, k - 1);
      DriveIsRun(cfg, Step(cfg, w, ContinuePass(n, d)), n, d, k - 1);
    }
  }

  lemma {:induction false} DriveIdle(cfg: Config, w: World, n: Name, d: nat, k: nat)
    requires n !in w.passes
    ensures Drive(cfg, w, n, d, k) == w
    decreases k
  {
    if k > 0 {
      DriveIdle(cfg, w, n, d, k - 1);
    }
  }

  lemma DriveStep(cfg: Config, w: World, n: Name, d: nat, k: nat)
    requires n in cfg.certificates && n in w.passes && k > 0
    ensures Drive(cfg, w, n, d, k) == Drive(cfg, Apply(w, n, Continue(cfg, w, n, d)), n, d, k - 1)
  {
    hide Continue, Apply;
  }

  lemma DriveFails(cfg: Config, w: World, n: Name, d: nat, k: nat, e: nat)
    requires n in cfg.certificates && n in w.passes && k > 0 && Continue(cfg, w, n, d) == Fail(e)
    ensures Drive(cfg, w, n, d, k) == Settle(w, n, Nothing(e))
  {
    hide Continue, Step;
    DriveStep(cfg, w, n, d, k);
    DriveIdle(cfg, Apply(w, n, Fail(e)), n, d, k - 1);
  }

  lemma DrivePublishing(cfg: Config, w: World, n: Name, d: nat, k: nat)
    requires n in cfg.certificates && n in w.passes && w.passes[n].Publishing? && k >= 1
    ensures Drive(cfg, w, n, d, k) == Apply(w, n, PatchStatus(w.passes[n].st, w.passes[n].recorded))
  {
    hide Resolve, WithCert, Step, Drive, Trunc;
    DriveStep(cfg, w, n, d, k);
    DriveIdle(cfg, Apply(w, n, Continue(cfg, w, n, d)), n, d, k - 1);
  }

  lemma DriveWriting(cfg: Config, w: World, n: Name, d: nat, k: nat)
    requires n in cfg.certificates && n in w.passes && w.passes[n].WritingCert? && k >= 2
    ensures var p := w.passes[n];
            Drive(cfg, w, n, d, k) ==
            Settle(w, n, NewCert(WithCert(cfg.certificates[n], n, p.st, p.cert, w.clock),
                                 Secret(None, Some(p.cert), Some(p.signerCert)), 0, p.signedAt))
  {
    hide Resolve, WithCert, Step, Drive, Trunc;
    DriveStep(cfg, w, n, d, k);
    var p := w.passes[n];
    var next := Publishing(WithCert(cfg.certificates[n], n, p.st, p.cert, w.clock), Some(p.signedAt));
    var w1 := Apply(w, n, ApplyCertSecret(Secret(None, Some(p.cert), Some(p.signerCert)), next));
    DrivePublishing(cfg, w1, n, d, k - 1);
    assert w1.passes - {n} == w.passes - {n};
  }

  lemma DriveSealing(cfg: Config, w: World, n: Name, d: nat, k: nat)
    requires n in cfg.certificates && n in w.passes && w.passes[n].ReadingSignerCert? && k >= 3
    ensures var p := w.passes[n];
            Drive(cfg, w, n, d, k) ==
            match SignerCertFor(w, p.ref, p.cert)
            case None => Settle(w, n, Nothing(0))
            case Some(c) => Settle(w, n, NewCert(WithCert(cfg.certificates[n], n, p.st, p.cert, w.clock),
                                                 Secret(None, Some(p.cert), Some(c)), 0, p.signedAt))
  {
    hide Resolve, WithCert, Step, Drive, Trunc, Settle;
    var p := w.passes[n];
    match SignerCertFor(w, p.ref, p.cert) {
      case None =>
        assert Continue(cfg, w, n, d) == Fail(0);
        DriveFails(cfg, w, n, d, k, 0);
      case Some(c) =>
        var e := Proceed(WritingCert(p.base, p.st, p.cert, c, p.signedAt), 0);
        assert Continue(cfg, w, n, d) == e;
        DriveStep(cfg, w, n, d, k);
        DriveWriting(cfg, Apply(w, n, e), n, d, k - 1);
        SettleAfter(w, n, e, NewCert(WithCert(cfg.certificates[n], n, p.st, p.cert, w.clock), Secret(None, Some(p.cert), Some(c)), 0, p.signedAt));
    }
  }

  /** Time a pass spent before an outcome adds to the outcome's own. */
  function Delayed(o: Outcome, e: nat): Outcome {
    match o
    case Nothing(d) => Nothing(e + d)
    case NewStatus(st, d) => NewStatus(st, e + d)
    case NewKey(_) => o
    case NewCert(st, x, d, at) => NewCert(st, x, e + d, at)
  }

  lemma SettleAfter(w: World, n: Name, e: Effect, o: Outcome)
    requires e.Proceed? && !o.NewKey?
    ensures Settle(Apply(w, n, e), n, o) == Settle(w, n, Delayed(o, e.elapsed))
  {
    assert Apply(w, n, e).passes - {n} == w.passes - {n};
  }

  lemma DriveSigning(cfg: Config, w: World, n: Name, d: nat, k: nat)
    requires n in cfg.certificates && n in w.passes && w.passes[n].ReadingOwnKey? && k >= 4
    requires ReadKey(w, w.passes[n].ref.keySecret) == Some(w.passes[n].signerKey)
    ensures var p := w.passes[n];
            Drive(cfg, w, n, d, k) == Settle(w, n, Issue(cfg.certificates[n], w, n, p.base, p.st, p.ref, d))
  {
    hide Resolve, WithCert, Step, Drive, Trunc, Interval, Settle;
    var p := w.passes[n];
    if p.base.key.secret.None? || ReadKey(w, p.base.key.secret.value).None? {
      assert Continue(cfg, w, n, d) == Fail(0);
      DriveFails(cfg, w, n, d, k, 0);
    } else {
      var own := ReadKey(w, p.base.key.secret.value).value;
      var now := w.clock + d;
      var cert := Cert(own, p.signerKey, Trunc(w.clock), Trunc(now + Interval(cfg.certificates[n])));
      var e := Proceed(ReadingSignerCert(p.base, p.st, p.ref, cert, now), d);
      assert Continue(cfg, w, n, d) == e;
      DriveStep(cfg, w, n, d, k);
      var w1 := Apply(w, n, e);
      DriveSealing(cfg, w1, n, d, k - 1);
      assert SignerCertFor(w1, p.ref, cert) == SignerCertFor(w, p.ref, cert);
      match SignerCertFor(w, p.ref, cert) {
        case None => SettleAfter(w, n, e, Nothing(0));
        case Some(c) =>
          SettleAfter(w, n, e, NewCert(WithCert(cfg.certificates[n], n, p.st, cert, now), Secret(None, Some(cert), Some(c)), 0, now));
      }
    }
  }

  lemma DriveSigner(cfg: Config, w: World, n: Name, d: nat, k: nat)
    requires n in cfg.certificates && n in w.passes && w.passes[n].ReadingSignerKey? && k >= 5
    ensures var p := w.passes[n];
            Drive(cfg, w, n, d, k) == Settle(w, n, Issue(cfg.certificates[n], w, n, p.base, p.st, p.ref, d))
  {
    hide Resolve, WithCert, Step, Drive, Trunc, Interval, Settle, Issue;
    var p := w.passes[n];
    match ReadKey(w, p.ref.keySecret) {
      case None =>
        assert Continue(cfg, w, n, d) == Fail(0);
        DriveFails(cfg, w, n, d, k, 0);
        IssueNeedsSigner(cfg.certificates[n], w, n, p.base, p.st, p.ref, d);
      case Some(key) =>
        var e := Proceed(ReadingOwnKey(p.base, p.st, p.ref, key), 0);
        assert Continue(cfg, w, n, d) == e;
        DriveStep(cfg, w, n, d, k);
        DriveSigning(cfg, Apply(w, n, e), n, d, k - 1);
        IssueAfter(cfg.certificates[n], w, n, e, p.base, p.st, p.ref, d);
    }
  }

  lemma IssueNeedsSigner(spec: CertificateSpec, w: World, n: Name, base: CertificateStatus, st: CertificateStatus, ref: SignerRef, d: nat)
    ensures ReadKey(w, ref.keySecret).None? ==> Issue(spec, w, n, base, st, ref, d) == Nothing(0)
  {
  }

  /** An issuance depends on the store only, so moving the pass on first makes no difference. */
  lemma IssueAfter(spec: CertificateSpec, w: World, n: Name, e: Effect, base: CertificateStatus, st: CertificateStatus,
                   ref: SignerRef, d: nat)
    requires e.Proceed? && e.elapsed == 0
    ensures Settle(Apply(w, n, e), n, Issue(spec, Apply(w, n, e), n, base, st, ref, d))
            == Settle(w, n, Issue(spec, w, n, base, st, ref, d))
  {
    hide WithCert, Trunc, Interval, Settle;
    var o := Issue(spec, w, n, base, st, ref, d);
    var w1 := Apply(w, n, e);
    assert forall s :: ReadKey(w1, s) == ReadKey(w, s) && ReadCert(w1, s) == ReadCert(w, s);
    assert Issue(spec, w1, n, base, st, ref, d) == o;
    SettleAfter(w, n, e, o);
  }

  lemma DriveResolving(cfg: Config, w: World, n: Name, d: nat, k: nat)
    requires n in cfg.certificates && n in w.passes && w.passes[n].Resolving? && k >= 6
    ensures Drive(cfg, w, n, d, k) == Settle(w, n, IssuingPass(cfg, w, n, w.passes[n].base, d))
  {
    hide Resolve, Step, Drive, Issue, Trunc, Interval, WithCert;
    var base := w.passes[n].base;
    match Resolve(cfg, w, n, base) {
      case Failed => DriveFails(cfg, w, n, d, k, 0);
      case NotReady(st) =>
        var e := Proceed(Publishing(st, None), 0);
        DriveStep(cfg, w, n, d, k);
        DrivePublishing(cfg, Apply(w, n, e), n, d, k - 1);
        assert Apply(w, n, e).passes - {n} == w.passes - {n};
      case Ready(st, ref) => DriveReady(cfg, w, n, st, ref, d, k);
    }
  }

  lemma DriveReady(cfg: Config, w: World, n: Name, st: CertificateStatus, ref: SignerRef, d: nat, k: nat)
    requires n in cfg.certificates && n in w.passes && w.passes[n].Resolving? && k >= 6
    requires Resolve(cfg, w, n, w.passes[n].base) == Ready(st, ref)
    ensures Drive(cfg, w, n, d, k) == Settle(w, n, IssuingPass(cfg, w, n, w.passes[n].base, d))
  {
    hide Resolve, Step, Drive, Issue, Settle;
    var base := w.passes[n].base;
    var e := Proceed(ReadingSignerKey(base, st, ref), 0);
    DriveStep(cfg, w, n, d, k);
    DriveSigner(cfg, Apply(w, n, e), n, d, k - 1);
    IssueAfter(cfg.certificates[n], w, n, e, base, st, ref, d);
  }

  lemma IssuingPassIsDrive(cfg: Config, w: World, n: Name, d: nat)
    requires n in cfg.certificates && n in w.certs && Begin(cfg, w, n, d) == Proceed(Resolving(StatusOf(w, n)), 0)
    ensures Drive(cfg, Apply(w, n, Begin(cfg, w, n, d)), n, d, 6) == Settle(w, n, IssuingPass(cfg, w, n, StatusOf(w, n), d))
  {
    hide Resolve, Drive, Issue, Begin, Settle;
    var e := Begin(cfg, w, n, d);
    var base := StatusOf(w, n);
    DriveResolving(cfg, Apply(w, n, e), n, d, 6);
    ResolveAfter(cfg, w, n, e);
    assert Resolve(cfg, Apply(w, n, e), n, base) == Resolve(cfg, w, n, base);
    match Resolve(cfg, w, n, base) {
      case Failed => SettleAfter(w, n, e, Nothing(0));
      case NotReady(st) => SettleAfter(w, n, e, NewStatus(st, 0));
      case Ready(st, ref) => IssueAfter(cfg.certificates[n], w, n, e, base, st, ref, d);
    }
  }

  lemma StatusSettled(w: World, n: Name, st: CertificateStatus, e: nat)
    ensures Apply(Apply(w, n, Proceed(Publishing(st, None), e)), n, PatchStatus(st, None)) == Settle(w, n, NewStatus(st, e))
  {
    assert w.passes[n := Publishing(st, None)] - {n} == w.passes - {n};
  }

  lemma KeySettled(w: World, n: Name, st: CertificateStatus)
    ensures Apply(Apply(w, n, CreateKeySecret(Publishing(st, None))), n, PatchStatus(st, None)) == Settle(w, n, NewKey(st))
  {
    assert w.passes[n := Publishing(st, None)] - {n} == w.passes - {n};
  }

  lemma FailureSettled(w: World, n: Name, e: nat)
    ensures Apply(w, n, Fail(e)) == Settle(w, n, Nothing(e))
  {
  }

  lemma WholePassIsDrive(cfg: Config, w: World, n: Name, d: nat)
    requires n in cfg.certificates && n in w.certs
    ensures Drive(cfg, Apply(w, n, Begin(cfg, w, n, d)), n, d, 6) == Settle(w, n, WholePass(cfg, w, n, d))
  {
    hide Resolve, Drive, Issue, Validated, WithKey, Continue, Settle, IssuingPass, Apply;
    var st := StatusOf(w, n);
    var spec := cfg.certificates[n];
    var e := Begin(cfg, w, n, d);
    var w1 := Apply(w, n, e);
    if !st.keyExists {
      if KeySecret(n) in w.secrets {
        BeginLeaves(w, n, e);
        DriveIdle(cfg, w1, n, d, 6);
        FailureSettled(w, n, 0);
      } else {
        BeginLeaves(w, n, e);
        DrivePublishing(cfg, w1, n, d, 6);
        KeySettled(w, n, e.next.st);
      }
    } else if st.certExists && !st.needsRenewal {
      match Validated(spec, st, w.clock, w.clock + d) {
        case None =>
          BeginLeaves(w, n, e);
          DriveIdle(cfg, w1, n, d, 6);
          FailureSettled(w, n, d);
        case Some(st1) =>
          BeginLeaves(w, n, e);
          DrivePublishing(cfg, w1, n, d, 6);
          StatusSettled(w, n, st1, d);
      }
    } else {
      IssuingPassIsDrive(cfg, w, n, d);
    }
  }

  lemma BeginLeaves(w: World, n: Name, e: Effect)
    ensures var w1 := Apply(w, n, e);
            && (e.Fail? ==> n !in w1.passes)
            && (e.Proceed? || e.CreateKeySecret? ==> n in w1.passes && w1.passes[n] == e.next)
  {
  }

  /** The atomic pass refines the interleaved one: it is the run of its own steps in a row. */
  lemma WholePassIsRun(cfg: Config, w: World, n: Name, d: nat)
    requires n in cfg.certificates && n in w.certs && n !in w.passes
    ensures Run(cfg, w, PassActions(n, d)) == Settle(w, n, WholePass(cfg, w, n, d))
  {
    hide Begin, Drive, WholePass, Settle, Continue, Apply;
    assert PassActions(n, d)[1..] == Continues(n, d, 6);
    assert Step(cfg, w, BeginPass(n, d)) == Apply(w, n, Begin(cfg, w, n, d));
    DriveIsRun(cfg, Apply(w, n, Begin(cfg, w, n, d)), n, d, 6);
    WholePassIsDrive(cfg, w, n, d);
  }

  lemma ResolveAfter(cfg: Config, w: World, n: Name, e: Effect)
    requires n in cfg.certificates && e.Proceed? && e.elapsed == 0
    ensures forall base :: Resolve(cfg, Apply(w, n, e), n, base) == Resolve(cfg, w, n, base)
  {
    hide WithCertificateIssuer, WithExternalIssuer;
  }
}
