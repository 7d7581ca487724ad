/** How often one Certificate can be issued: the distance between recorded issuances. */
module CertificateTiming {
  import opened Wrappers
  import opened Conditions
  import opened CertificateTypes
  import opened CertificateWorld
  import opened CertificateSafety
  import opened CertificateTheorems

  /** The least time between two recorded issuances: dates lose less than a second to formatting. */
  function Gap(spec: CertificateSpec): int {
    Interval(spec) - Before(spec).GetOr(0) - SECOND
  }

  function Last(h: seq<Time>): Time
    requires h != []
  {
    h[|h| - 1]
  }

  predicate Spaced(h: seq<Time>, gap: int) {
    forall i :: 0 <= i < |h| - 1 ==> h[i] + gap <= h[i + 1]
  }

  /** Renewal of a certificate valid until `until` may have been flagged by now. */
  predicate WindowOpen(spec: CertificateSpec, until: Option<Time>, now: Time) {
    until.Some? && Before(spec).Some? && until.value - Before(spec).value <= now
  }

  predicate TimeOk(cfg: Config, w: World, n: Name)
    requires n in cfg.certificates
  {
    var spec := cfg.certificates[n];
    var st := StatusOf(w, n);
    var h := Log(w, n);
    && (st.certExists <==> h != [])
    && (h != [] ==> st.cert.validUntil == Some(Trunc(Last(h) + Interval(spec))))
    && (st.needsRenewal ==> WindowOpen(spec, st.cert.validUntil, w.clock))
    && Spaced(h, Gap(spec))
  }

  /** A signature made at `at` keeps its distance from the last recorded one. */
  predicate SignedTimed(cfg: Config, w: World, n: Name, until: Time, at: Time)
    requires n in cfg.certificates
  {
    && at <= w.clock
    && until == Trunc(at + Interval(cfg.certificates[n]))
    && (Log(w, n) != [] ==> Last(Log(w, n)) + Gap(cfg.certificates[n]) <= at)
  }

  predicate PassTimed(cfg: Config, w: World, n: Name, p: Pass)
    requires n in cfg.certificates
  {
    match p
    case ReadingSignerCert(_, _, _, cert, at) => SignedTimed(cfg, w, n, cert.notAfter, at)
    case WritingCert(_, _, cert, _, at) => SignedTimed(cfg, w, n, cert.notAfter, at)
    case Publishing(st, Some(at)) =>
      && st.certExists && !st.needsRenewal && st.cert.validUntil.Some?
      && SignedTimed(cfg, w, n, st.cert.validUntil.value, at)
    case Publishing(st, None) =>
      && st.certExists == StatusOf(w, n).certExists
      && st.cert.validUntil == StatusOf(w, n).cert.validUntil
      && (st.needsRenewal ==> WindowOpen(cfg.certificates[n], st.cert.validUntil, w.clock))
    case _ => true
  }

  ghost predicate Timed(cfg: Config, w: World) {
    && (forall n :: n in cfg.certificates ==> TimeOk(cfg, w, n))
    && (forall n :: n in w.passes && n in cfg.certificates ==> PassTimed(cfg, w, n, w.passes[n]))
  }

  predicate EffectTimed(cfg: Config, w: World, n: Name, e: Effect)
    requires n in cfg.certificates
  {
    match e
    case Proceed(p, d) => PassTimed(cfg, w.(clock := w.clock + d), n, p)
    case Fail(_) => true
    case CreateKeySecret(p) => PassTimed(cfg, w, n, p)
    case ApplyCertSecret(_, p) => PassTimed(cfg, w, n, p)
    case PatchStatus(st, at) => PassTimed(cfg, w, n, Publishing(st, at))
  }

  lemma BeginTimed(cfg: Config, w: World, n: Name, d: nat)
    requires n in w.certs && CertOk(cfg, w, n) && TimeOk(cfg, w, n)
    ensures EffectTimed(cfg, w, n, Begin(cfg, w, n, d))
  {
    hide PutBool, FlagsOk, Trunc, Interval, Before, Spaced;
  }

  lemma ResolvingTimed(cfg: Config, w: World, n: Name, d: nat)
    requires n in w.passes && PassOk(cfg, w, n, w.passes[n]) && w.passes[n].Resolving?
    requires TimeOk(cfg, w, n)
    ensures EffectTimed(cfg, w, n, Continue(cfg, w, n, d))
  {
    hide PutBool, FlagsOk, Interval, Spaced, RefOk, Trunc, Before;
    var base := w.passes[n].base;
    match Resolve(cfg, w, n, base) {
      case Ready(st, ref) =>
      case NotReady(st) =>
      case Failed =>
    }
  }

  lemma SigningTimed(cfg: Config, w: World, n: Name, d: nat)
    requires n in w.passes && PassOk(cfg, w, n, w.passes[n])
    requires w.passes[n].ReadingSignerKey? || w.passes[n].ReadingOwnKey?
    requires TimeOk(cfg, w, n) && PassTimed(cfg, w, n, w.passes[n])
    ensures EffectTimed(cfg, w, n, Continue(cfg, w, n, d))
  {
    hide PutBool, FlagsOk, Interval, Spaced, RefOk, IssuerOk, SealOk, SignerOk;
    if Log(w, n) != [] && StatusOf(w, n).needsRenewal {
      RenewalIsLate(cfg, w, n);
    }
  }

  lemma WritingTimed(cfg: Config, w: World, n: Name, d: nat)
    requires n in w.passes && PassOk(cfg, w, n, w.passes[n])
    requires w.passes[n].ReadingSignerCert? || w.passes[n].WritingCert? || w.passes[n].Publishing?
    requires PassTimed(cfg, w, n, w.passes[n])
    ensures EffectTimed(cfg, w, n, Continue(cfg, w, n, d))
  {
    hide PutBool, FlagsOk, Interval, Trunc, Before, RefOk, IssuerOk, SealOk, SignerOk;
  }

  lemma ContinueTimed(cfg: Config, w: World, n: Name, d: nat)
    requires n in w.passes && PassOk(cfg, w, n, w.passes[n])
    requires TimeOk(cfg, w, n) && PassTimed(cfg, w, n, w.passes[n])
    ensures EffectTimed(cfg, w, n, Continue(cfg, w, n, d))
  {
    hide Continue, EffectTimed, TimeOk, PassTimed, RefOk, IssuerOk, SealOk, SignerOk, StatusOk;
    match w.passes[n] {
      case Resolving(_) => ResolvingTimed(cfg, w, n, d);
      case ReadingSignerKey(_, _, _) => SigningTimed(cfg, w, n, d);
      case ReadingOwnKey(_, _, _, _) => SigningTimed(cfg, w, n, d);
      case _ => WritingTimed(cfg, w, n, d);
    }
  }

  /** A Certificate that may be issued again was last issued at least the gap ago. */
  lemma RenewalIsLate(cfg: Config, w: World, n: Name)
    requires n in cfg.certificates && TimeOk(cfg, w, n) && Log(w, n) != [] && StatusOf(w, n).needsRenewal
    ensures Last(Log(w, n)) + Gap(cfg.certificates[n]) <= w.clock
  {
  }

  // ---------------------------------------------------------------------------------------
  // Every step keeps the timing
  // ---------------------------------------------------------------------------------------

  lemma TimeStable(cfg: Config, w: World, w': World, n: Name)
    requires n in cfg.certificates && w.clock <= w'.clock
    requires StatusOf(w', n) == StatusOf(w, n) && Log(w', n) == Log(w, n)
    ensures TimeOk(cfg, w, n) ==> TimeOk(cfg, w', n)
  {
  }

  lemma PassTimeStable(cfg: Config, w: World, w': World, n: Name, p: Pass)
    requires n in cfg.certificates && w.clock <= w'.clock
    requires StatusOf(w', n) == StatusOf(w, n) && Log(w', n) == Log(w, n)
    ensures PassTimed(cfg, w, n, p) ==> PassTimed(cfg, w', n, p)
  {
    hide Trunc, Interval, Before;
  }

  lemma RecordedTime(cfg: Config, w: World, n: Name, st: CertificateStatus, at: Option<Time>)
    requires n in cfg.certificates && n in w.certs && TimeOk(cfg, w, n)
    requires PassTimed(cfg, w, n, Publishing(st, at))
    ensures TimeOk(cfg, Apply(w, n, PatchStatus(st, at)), n)
  {
    hide Trunc, Interval, Before;
  }

  lemma ApplyTimed(cfg: Config, w: World, n: Name, e: Effect)
    requires n in cfg.certificates && n in w.certs && Timed(cfg, w) && EffectTimed(cfg, w, n, e)
    ensures Timed(cfg, Apply(w, n, e))
  {
    hide TimeOk, PassTimed;
    var w' := Apply(w, n, e);
    forall m | m in cfg.certificates ensures TimeOk(cfg, w', m) {
      if m == n && e.PatchStatus? {
        RecordedTime(cfg, w, n, e.st, e.recorded);
      } else {
        TimeStable(cfg, w, w', m);
      }
    }
    forall m | m in w'.passes && m in cfg.certificates ensures PassTimed(cfg, w', m, w'.passes[m]) {
      if m == n {
        match e {
          case Proceed(p, d) => PassTimeStable(cfg, w.(clock := w.clock + d), w', n, p);
          case CreateKeySecret(p) => PassTimeStable(cfg, w, w', n, p);
          case ApplyCertSecret(_, p) => PassTimeStable(cfg, w, w', n, p);
          case _ =>
        }
      } else {
        PassTimeStable(cfg, w, w', m, w.passes[m]);
      }
    }
  }

  lemma OtherStepTimed(cfg: Config, w: World, a: Action)
    requires Timed(cfg, w) && !a.BeginPass? && !a.ContinuePass?
    ensures Timed(cfg, Step(cfg, w, a))
  {
    hide TimeOk, PassTimed, Observed;
    var w' := Step(cfg, w, a);
    assert w.clock <= w'.clock && w'.log == w.log;
    assert forall m :: StatusOf(w', m) == StatusOf(w, m);
    forall m | m in cfg.certificates ensures TimeOk(cfg, w', m) {
      TimeStable(cfg, w, w', m);
    }
    forall m | m in w'.passes && m in cfg.certificates ensures PassTimed(cfg, w', m, w'.passes[m]) {
      PassTimeStable(cfg, w, w', m, w.passes[m]);
    }
  }

  lemma StepTimed(cfg: Config, w: World, a: Action)
    requires ValidConfig(cfg) && Inv(cfg, w) && Timed(cfg, w)
    ensures Timed(cfg, Step(cfg, w, a))
  {
    hide Begin, Continue, Apply, EffectTimed, CertsOk, SecretsOk, PassesOk, KeysDistinct, ExternalsOk, TimeOk, PassTimed, StatusOk, RefOk, IssuerOk;
    match a {
      case BeginPass(n, d) =>
        if n in cfg.certificates && n in w.certs && n !in w.passes {
          CertsHold(cfg, w, n);
          BeginTimed(cfg, w, n, d);
          ApplyTimed(cfg, w, n, Begin(cfg, w, n, d));
        }
      case ContinuePass(n, d) =>
        if n in cfg.certificates && n in w.passes {
          PassesHold(cfg, w, n);
          ContinueTimed(cfg, w, n, d);
          ApplyTimed(cfg, w, n, Continue(cfg, w, n, d));
        }
      case _ => OtherStepTimed(cfg, w, a);
    }
  }

  lemma {:induction false} RunTimed(cfg: Config, w: World, actions: seq<Action>)
    requires ValidConfig(cfg) && Inv(cfg, w) && Timed(cfg, w)
    ensures Timed(cfg, Run(cfg, w, actions))
    decreases |actions|
  {
    hide Step, Inv, Timed;
    if actions != [] {
      StepInv(cfg, w, actions[0]);
      StepTimed(cfg, w, actions[0]);
      RunTimed(cfg, Step(cfg, w, actions[0]), actions[1..]);
    }
  }

  /** `k` gaps fit between an issuance and the k-th one after it. */
  lemma {:induction false} SpacedSpan(h: seq<Time>, gap: int, i: nat, k: nat)
    requires Spaced(h, gap) && i + k < |h|
    ensures h[i] + k * gap <= h[i + k]
    decreases k
  {
    if k > 0 {
      SpacedSpan(h, gap, i, k - 1);
      assert k * gap == (k - 1) * gap + gap;
    }
  }

  /** Main result: over any run, recorded issuances of one Certificate are at least the gap apart, so
      any N of them in a row span at least (N - 1) gaps. */
  lemma IssuancesAreSpaced(cfg: Config, actions: seq<Action>, n: Name, i: nat, k: nat)
    requires ValidConfig(cfg) && n in cfg.certificates
    requires i + k < |Log(Run(cfg, EMPTY_WORLD, actions), n)|
    ensures var h := Log(Run(cfg, EMPTY_WORLD, actions), n);
            k * Gap(cfg.certificates[n]) <= h[i + k] - h[i]
  {
    hide Run;
    EmptyInv(cfg);
    assert Timed(cfg, EMPTY_WORLD);
    RunTimed(cfg, EMPTY_WORLD, actions);
    assert TimeOk(cfg, Run(cfg, EMPTY_WORLD, actions), n);
    SpacedSpan(Log(Run(cfg, EMPTY_WORLD, actions), n), Gap(cfg.certificates[n]), i, k);
  }
}
