/** What the published status of an ExternalCertificate says, in terms of the Secret that a pass found and of
    the time at which it looked, in every run. */
module ExternalProvenance {
  import opened Wrappers
  import opened Conditions
  import opened CertificateTypes
  import opened CertificateWorld
  import opened CertificateSafety
  import opened CertificateTheorems
  import opened CertificateProvenance

  /** `st` reports the Secret as it is at `now`; `was` is the status before. */
  predicate Reports(spec: ExternalSpec, was: ExternalStatus, secret: Secret, now: Time, st: ExternalStatus) {
    var valid := secret.cert.Some? && secret.cert.value.notAfter > now;
    && (st.keyExists <==> secret.key.Some?)
    && (st.certExists <==> secret.cert.Some?)
    && (st.cert.valid <==> valid)
    && Flag(st.conditions, TypeKeyReady) == Some(secret.key.Some?)
    && Flag(st.conditions, TypeCertReady) == Some(valid)
    && Flag(st.conditions, TypeReady) == Some(valid)
    && (forall t :: t != TypeKeyReady && t != TypeCertReady && t != TypeReady ==> Flag(st.conditions, t) == Flag(was.conditions, t))
    && st.key == (if secret.key.Some? then KeyStatus(secret.key, Some(spec.secretName)) else was.key)
    && (match secret.cert
        case Some(c) =>
          && st.cert.name == Some(c.subject) && st.cert.signerKey == Some(c.signer)
          && st.cert.issuedAt == Some(c.notBefore) && st.cert.validUntil == Some(c.notAfter)
          && st.cert.secret == Some(spec.secretName)
        case None => st.cert == was.cert.(valid := false))
  }

  lemma ObservedReports(spec: ExternalSpec, was: ExternalStatus, secret: Secret, now: Time)
    ensures Reports(spec, was, secret, now, Observed(spec, was, secret, now))
  {
    hide PutBool, Flag;
  }

  function StatusBefore(cfg: Config, actions: seq<Action>, e: Name, t: nat): ExternalStatus
    requires t <= |actions| && e in At(cfg, actions, t).externals
  {
    At(cfg, actions, t).externals[e].GetOr(DEFAULT_EXTERNAL)
  }

  /** Step `t` looked at the Secret of `e`, and `st` is its report. */
  predicate LookedAt(cfg: Config, actions: seq<Action>, e: Name, t: nat, st: ExternalStatus) {
    && t < |actions| && actions[t] == BeginExternal(e) && e in cfg.externals
    && var w := At(cfg, actions, t);
       && e in w.externals && cfg.externals[e].secretName in w.secrets
       && Reports(cfg.externals[e], StatusBefore(cfg, actions, e, t), w.secrets[cfg.externals[e].secretName], w.clock, st)
  }

  ghost predicate Witnessed(cfg: Config, actions: seq<Action>, e: Name, st: ExternalStatus) {
    exists t: nat :: LookedAt(cfg, actions, e, t, st)
  }

  ghost predicate AllWitnessed(cfg: Config, actions: seq<Action>, e: Name) {
    var w := Run(cfg, EMPTY_WORLD, actions);
    && (e in w.externals && w.externals[e].Some? ==> Witnessed(cfg, actions, e, w.externals[e].value))
    && (e in w.externalPasses ==> Witnessed(cfg, actions, e, w.externalPasses[e]))
  }

  lemma WitnessKept(cfg: Config, actions: seq<Action>, a: Action, e: Name, st: ExternalStatus)
    requires Witnessed(cfg, actions, e, st)
    ensures Witnessed(cfg, actions + [a], e, st)
  {
    hide At, Reports;
    var t: nat :| LookedAt(cfg, actions, e, t, st);
    AtPrefix(cfg, actions, a, t);
    assert LookedAt(cfg, actions + [a], e, t, st);
  }

  lemma NewlyWitnessed(cfg: Config, actions: seq<Action>, e: Name)
    requires var w := Run(cfg, EMPTY_WORLD, actions);
             e in cfg.externals && e in w.externals && cfg.externals[e].secretName in w.secrets
    ensures var w := Run(cfg, EMPTY_WORLD, actions);
            Witnessed(cfg, actions + [BeginExternal(e)], e,
                      Observed(cfg.externals[e], w.externals[e].GetOr(DEFAULT_EXTERNAL), w.secrets[cfg.externals[e].secretName], w.clock))
  {
    hide Run, Observed, Reports, At;
    var w := Run(cfg, EMPTY_WORLD, actions);
    var a := BeginExternal(e);
    AtEnd(cfg, actions);
    AtPrefix(cfg, actions, a, |actions|);
    var secret := w.secrets[cfg.externals[e].secretName];
    var was := w.externals[e].GetOr(DEFAULT_EXTERNAL);
    ObservedReports(cfg.externals[e], was, secret, w.clock);
    assert LookedAt(cfg, actions + [a], e, |actions|, Observed(cfg.externals[e], was, secret, w.clock));
  }

  lemma ApplyLeavesExternals(w: World, n: Name, e: Effect)
    ensures var w' := Apply(w, n, e); w'.externals == w.externals && w'.externalPasses == w.externalPasses && w.clock <= w'.clock
  {
  }

  /** Only the two external steps touch what is published or about to be. */
  lemma OthersLeaveExternals(cfg: Config, w: World, a: Action)
    requires !a.CreateExternal? && !a.BeginExternal? && !a.PublishExternal?
    ensures var w' := Step(cfg, w, a); w'.externals == w.externals && w'.externalPasses == w.externalPasses && w.clock <= w'.clock
  {
    hide Observed, Begin, Continue, Apply;
    match a {
      case BeginPass(n, d) => if n in cfg.certificates && n in w.certs && n !in w.passes { ApplyLeavesExternals(w, n, Begin(cfg, w, n, d)); }
      case ContinuePass(n, d) => if n in cfg.certificates && n in w.passes { ApplyLeavesExternals(w, n, Continue(cfg, w, n, d)); }
      case _ =>
    }
  }

  /** Which steps change what is published or about to be. */
  lemma ExternalStep(cfg: Config, w: World, a: Action, e: Name)
    ensures var w' := Step(cfg, w, a);
            && (e in w'.externals && w'.externals[e].Some? ==>
                  || (e in w.externals && w'.externals[e] == w.externals[e])
                  || (e in w.externalPasses && w'.externals[e] == Some(w.externalPasses[e])))
            && (e in w'.externalPasses ==>
                  || (e in w.externalPasses && w'.externalPasses[e] == w.externalPasses[e])
                  || (a == BeginExternal(e) && e in cfg.externals && e in w.externals && cfg.externals[e].secretName in w.secrets
                      && w'.externalPasses[e] == Observed(cfg.externals[e], w.externals[e].GetOr(DEFAULT_EXTERNAL),
                                                          w.secrets[cfg.externals[e].secretName], w.clock)))
  {
    hide Observed, Begin, Continue, Apply;
    if !a.CreateExternal? && !a.BeginExternal? && !a.PublishExternal? {
      OthersLeaveExternals(cfg, w, a);
      hide Step;
    }
  }

  lemma {:induction false} RunWitnessed(cfg: Config, actions: seq<Action>, e: Name)
    ensures AllWitnessed(cfg, actions, e)
    decreases |actions|
  {
    hide Run, Step, Witnessed, Observed;
    if actions == [] {
      assert AllWitnessed(cfg, [], e) by { NothingWitnessed(cfg, e); }
    } else {
      var before := actions[..|actions| - 1];
      var a := actions[|actions| - 1];
      assert actions == before + [a];
      var w := Run(cfg, EMPTY_WORLD, before);
      RunWitnessed(cfg, before, e);
      RunSnoc(cfg, EMPTY_WORLD, before, a);
      ExternalStep(cfg, w, a, e);
      if e in w.externals && w.externals[e].Some? { WitnessKept(cfg, before, a, e, w.externals[e].value); }
      if e in w.externalPasses { WitnessKept(cfg, before, a, e, w.externalPasses[e]); }
      if e in cfg.externals && e in w.externals && cfg.externals[e].secretName in w.secrets && a == BeginExternal(e) {
        NewlyWitnessed(cfg, before, e);
      }
    }
  }

  lemma NothingWitnessed(cfg: Config, e: Name)
    ensures AllWitnessed(cfg, [], e)
  {
  }

  /** Main result: whatever an ExternalCertificate publishes in any run is the report of one step of that run:
      valid if and only if the Secret then held a certificate that had not ended by then. */
  lemma PublishedIsReported(cfg: Config, actions: seq<Action>, e: Name)
    ensures var w := Run(cfg, EMPTY_WORLD, actions);
            e in w.externals && w.externals[e].Some? ==>
              && e in cfg.externals
              && exists t: nat :: t < |actions| && actions[t] == BeginExternal(e)
                   && e in At(cfg, actions, t).externals && cfg.externals[e].secretName in At(cfg, actions, t).secrets
                   && Reports(cfg.externals[e], StatusBefore(cfg, actions, e, t),
                              At(cfg, actions, t).secrets[cfg.externals[e].secretName], At(cfg, actions, t).clock, w.externals[e].value)
  {
    hide Run, Reports, At, StatusBefore;
    RunWitnessed(cfg, actions, e);
    var w := Run(cfg, EMPTY_WORLD, actions);
    if e in w.externals && w.externals[e].Some? {
      var t: nat :| LookedAt(cfg, actions, e, t, w.externals[e].value);
    }
  }

  // ---------------------------------------------------------------------------------------
  // Validity is as of the last pass
  // ---------------------------------------------------------------------------------------

  predicate Quiet(actions: seq<Action>, e: Name) {
    forall a :: a in actions ==> a != PublishExternal(e)
  }

  lemma QuietStep(cfg: Config, w: World, a: Action, e: Name)
    requires e in w.externals && w.externals[e].Some? && a != PublishExternal(e)
    ensures var w' := Step(cfg, w, a); e in w'.externals && w'.externals[e] == w.externals[e] && w.clock <= w'.clock
  {
    hide Observed, Begin, Continue, Apply;
    if !a.CreateExternal? && !a.BeginExternal? && !a.PublishExternal? {
      OthersLeaveExternals(cfg, w, a);
      hide Step;
    }
  }

  /** No pass is scheduled for the end of the certificate, so until a pass publishes again the status stays as
      it is: it goes on saying valid, however long ago the certificate has ended. */
  lemma {:induction false} ValidityStays(cfg: Config, w: World, actions: seq<Action>, e: Name)
    requires e in w.externals && w.externals[e].Some? && Quiet(actions, e)
    ensures var w' := Run(cfg, w, actions); e in w'.externals && w'.externals[e] == w.externals[e] && w.clock <= w'.clock
    decreases |actions|
  {
    hide Step;
    if actions != [] {
      assert actions[0] in actions;
      QuietStep(cfg, w, actions[0], e);
      assert forall a :: a in actions[1..] ==> a in actions;
      ValidityStays(cfg, Step(cfg, w, actions[0]), actions[1..], e);
    }
  }

  function LookAndWait(e: Name, s: SecretName, x: Secret, d: nat): seq<Action> {
    [CreateExternal(e)] + ([WriteSecret(s, x)] + ([BeginExternal(e)] + ([PublishExternal(e)] + [Tick(d)])))
  }

  lemma RunFirst(cfg: Config, w: World, a: Action, rest: seq<Action>)
    ensures Run(cfg, w, [a] + rest) == Run(cfg, Step(cfg, w, a), rest)
  {
    hide Step;
    assert ([a] + rest)[1..] == rest;
  }

  lemma LookAndWaitEnds(cfg: Config, e: Name, x: Secret, d: nat)
    requires e in cfg.externals && cfg.externals[e].secretName in cfg.userSecrets
    ensures var s := cfg.externals[e].secretName;
            var st := Observed(cfg.externals[e], DEFAULT_EXTERNAL, x, 0);
            var w := Run(cfg, EMPTY_WORLD, LookAndWait(e, s, x, d));
            && w.secrets == map[s := x] && w.externals == map[e := Some(st)] && w.clock == d
  {
    hide Run, Observed;
    var s := cfg.externals[e].secretName;
    var st := Observed(cfg.externals[e], DEFAULT_EXTERNAL, x, 0);
    var w1 := EMPTY_WORLD.(externals := map[e := None]);
    var w2 := w1.(secrets := map[s := x]);
    var w3 := w2.(externalPasses := map[e := st]);
    var w4 := w3.(externals := map[e := Some(st)], externalPasses := w3.externalPasses - {e});
    RunFirst(cfg, EMPTY_WORLD, CreateExternal(e), [WriteSecret(s, x)] + ([BeginExternal(e)] + ([PublishExternal(e)] + [Tick(d)])));
    RunFirst(cfg, w1, WriteSecret(s, x), [BeginExternal(e)] + ([PublishExternal(e)] + [Tick(d)]));
    RunFirst(cfg, w2, BeginExternal(e), [PublishExternal(e)] + [Tick(d)]);
    RunFirst(cfg, w3, PublishExternal(e), [Tick(d)]);
    assert Step(cfg, EMPTY_WORLD, CreateExternal(e)) == w1 && Step(cfg, w1, WriteSecret(s, x)) == w2;
    assert Step(cfg, w2, BeginExternal(e)) == w3;
    assert Step(cfg, w3, PublishExternal(e)) == w4;
    TickOnly(cfg, w4, d);
  }

  lemma TickOnly(cfg: Config, w: World, d: nat)
    ensures Run(cfg, w, [Tick(d)]) == w.(clock := w.clock + d)
  {
    assert [Tick(d)][1..] == [];
  }

  /** Five steps from nothing end with an ExternalCertificate published as valid after its end. */
  lemma StaleReachable(cfg: Config, e: Name, c: Cert, d: nat)
    requires e in cfg.externals && cfg.externals[e].secretName in cfg.userSecrets && 0 < c.notAfter <= d
    ensures var s := cfg.externals[e].secretName;
            var w := Run(cfg, EMPTY_WORLD, LookAndWait(e, s, Secret(None, Some(c), None), d));
            && s in w.secrets && w.secrets[s].cert == Some(c) && c.notAfter <= w.clock
            && e in w.externals && w.externals[e].Some? && w.externals[e].value.cert.valid
            && Flag(w.externals[e].value.conditions, TypeReady) == Some(true)
  {
    hide Run, Observed, Flag;
    LookAndWaitEnds(cfg, e, Secret(None, Some(c), None), d);
    ObservedReports(cfg.externals[e], DEFAULT_EXTERNAL, Secret(None, Some(c), None), 0);
  }
}
