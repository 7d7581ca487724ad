/** Where the signer's certificate comes from when the issuer is an ExternalCertificate, whose Secret holds
    whatever users write: exactly when it certifies the key that signed, and how it can fail to. */
module CertificateProvenance {
  import opened Wrappers
  import opened Conditions
  import opened CertificateTypes
  import opened CertificateWorld
  import opened CertificateSafety
  import opened CertificateTheorems

  /** The issuer that the spec of `n` names is an ExternalCertificate. */
  predicate ExternallyIssued(cfg: Config, n: Name) {
    n in cfg.certificates && cfg.certificates[n].issuerKind.ExternalKind? && cfg.certificates[n].issuerName in cfg.externals
  }

  /** The Secret in which that issuer's key and certificate are looked up. */
  function IssuerSecret(cfg: Config, n: Name): SecretName
    requires ExternallyIssued(cfg, n)
  {
    cfg.externals[cfg.certificates[n].issuerName].secretName
  }

  /** The world before step `t` of a run from nothing. */
  function At(cfg: Config, actions: seq<Action>, t: nat): World
    requires t <= |actions|
  {
    Run(cfg, EMPTY_WORLD, actions[..t])
  }

  /** Step `t` is the one in which the pass on `n` reads its signer's key, and `k` is what it finds. */
  predicate ReadsKey(cfg: Config, actions: seq<Action>, n: Name, t: nat, k: Key)
    requires ExternallyIssued(cfg, n)
  {
    && t < |actions| && actions[t].ContinuePass? && actions[t].n == n
    && n in At(cfg, actions, t).passes && At(cfg, actions, t).passes[n].ReadingSignerKey?
    && ReadKey(At(cfg, actions, t), IssuerSecret(cfg, n)) == Some(k)
  }

  /** Step `t` is the one in which the pass on `n` reads its signer's certificate, and finds `c`. */
  predicate ReadsCert(cfg: Config, actions: seq<Action>, n: Name, t: nat, c: Cert)
    requires ExternallyIssued(cfg, n)
  {
    && t < |actions| && actions[t].ContinuePass? && actions[t].n == n
    && n in At(cfg, actions, t).passes && At(cfg, actions, t).passes[n].ReadingSignerCert?
    && ReadCert(At(cfg, actions, t), IssuerSecret(cfg, n)) == Some(c)
  }

  /** A pass on `n` is in flight from after step `i` up to step `j`. */
  predicate InFlight(cfg: Config, actions: seq<Action>, n: Name, i: nat, j: nat)
    requires j <= |actions|
  {
    forall t :: i < t <= j ==> n in At(cfg, actions, t).passes
  }

  /** One and the same pass read the key `k` in step `i` and the certificate `c` in the later step `j`. */
  predicate ReadsBoth(cfg: Config, actions: seq<Action>, n: Name, i: nat, j: nat, k: Key, c: Cert)
    requires ExternallyIssued(cfg, n)
  {
    i < j < |actions| && ReadsKey(cfg, actions, n, i, k) && ReadsCert(cfg, actions, n, j, c) && InFlight(cfg, actions, n, i, j)
  }

  ghost predicate KeyTraced(cfg: Config, actions: seq<Action>, n: Name, k: Key)
    requires ExternallyIssued(cfg, n)
  {
    exists i: nat :: ReadsKey(cfg, actions, n, i, k) && InFlight(cfg, actions, n, i, |actions|)
  }

  ghost predicate BothTraced(cfg: Config, actions: seq<Action>, n: Name, k: Key, c: Cert)
    requires ExternallyIssued(cfg, n)
  {
    exists i: nat, j: nat :: ReadsBoth(cfg, actions, n, i, j, k, c)
  }

  ghost predicate PassTraced(cfg: Config, actions: seq<Action>, n: Name, p: Pass)
    requires ExternallyIssued(cfg, n)
  {
    match p
    case ReadingOwnKey(_, _, _, k) => KeyTraced(cfg, actions, n, k)
    case ReadingSignerCert(_, _, _, cert, _) => KeyTraced(cfg, actions, n, cert.signer)
    case WritingCert(_, _, cert, signerCert, _) => BothTraced(cfg, actions, n, cert.signer, signerCert)
    case _ => true
  }

  /** Whatever is signed, sealed or stored for `n` after the run came from reads within the run. */
  ghost predicate Traced(cfg: Config, actions: seq<Action>, n: Name)
    requires ExternallyIssued(cfg, n)
  {
    var w := Run(cfg, EMPTY_WORLD, actions);
    && (n in w.passes ==> PassTraced(cfg, actions, n, w.passes[n]))
    && (CertSecret(n) in w.secrets ==>
          && w.secrets[CertSecret(n)].cert.Some? && w.secrets[CertSecret(n)].signerCert.Some?
          && BothTraced(cfg, actions, n, w.secrets[CertSecret(n)].cert.value.signer, w.secrets[CertSecret(n)].signerCert.value))
  }

  // ---------------------------------------------------------------------------------------
  // One more step
  // ---------------------------------------------------------------------------------------

  lemma AtPrefix(cfg: Config, actions: seq<Action>, a: Action, t: nat)
    requires t <= |actions|
    ensures At(cfg, actions + [a], t) == At(cfg, actions, t)
  {
    assert (actions + [a])[..t] == actions[..t];
  }

  lemma AtEnd(cfg: Config, actions: seq<Action>)
    ensures At(cfg, actions, |actions|) == Run(cfg, EMPTY_WORLD, actions)
  {
    assert actions[..|actions|] == actions;
  }

  lemma RunSnoc(cfg: Config, w: World, actions: seq<Action>, a: Action)
    ensures Run(cfg, w, actions + [a]) == Step(cfg, Run(cfg, w, actions), a)
  {
    hide Step;
    RunSplit(cfg, w, actions, [a]);
    assert [a][1..] == [];
  }

  lemma BothKept(cfg: Config, actions: seq<Action>, a: Action, n: Name, k: Key, c: Cert)
    requires ExternallyIssued(cfg, n) && BothTraced(cfg, actions, n, k, c)
    ensures BothTraced(cfg, actions + [a], n, k, c)
  {
    hide At, ReadKey, ReadCert;
    var i: nat, j: nat :| ReadsBoth(cfg, actions, n, i, j, k, c);
    forall t: nat | t <= |actions| ensures At(cfg, actions + [a], t) == At(cfg, actions, t) { AtPrefix(cfg, actions, a, t); }
    assert ReadsBoth(cfg, actions + [a], n, i, j, k, c);
  }

  lemma KeyKept(cfg: Config, actions: seq<Action>, a: Action, n: Name, k: Key)
    requires ExternallyIssued(cfg, n) && KeyTraced(cfg, actions, n, k)
    requires n in Step(cfg, Run(cfg, EMPTY_WORLD, actions), a).passes
    ensures KeyTraced(cfg, actions + [a], n, k)
  {
    hide At, ReadKey, Step, Run;
    var i: nat :| ReadsKey(cfg, actions, n, i, k) && InFlight(cfg, actions, n, i, |actions|);
    var more := actions + [a];
    forall t: nat | t <= |actions| ensures At(cfg, more, t) == At(cfg, actions, t) { AtPrefix(cfg, actions, a, t); }
    AtEnd(cfg, more);
    RunSnoc(cfg, EMPTY_WORLD, actions, a);
    assert ReadsKey(cfg, more, n, i, k);
    assert InFlight(cfg, more, n, i, |more|);
  }

  /** Steps that are not of the pass on `n` leave it and its certificate Secret alone. */
  lemma ElsewhereKept(cfg: Config, w: World, a: Action, n: Name)
    requires ValidConfig(cfg) && n in cfg.certificates
    requires !(a.BeginPass? && a.n == n) && !(a.ContinuePass? && a.n == n) && a != Crash(n)
    ensures var w' := Step(cfg, w, a);
            && (n in w'.passes <==> n in w.passes) && (n in w.passes ==> w'.passes[n] == w.passes[n])
            && (CertSecret(n) in w'.secrets <==> CertSecret(n) in w.secrets)
            && (CertSecret(n) in w.secrets ==> w'.secrets[CertSecret(n)] == w.secrets[CertSecret(n)])
  {
    hide Begin, Continue, Apply;
    match a {
      case BeginPass(m, d) => if m in cfg.certificates && m in w.certs && m !in w.passes { OtherKept(w, m, Begin(cfg, w, m, d), n); }
      case ContinuePass(m, d) => if m in cfg.certificates && m in w.passes { OtherKept(w, m, Continue(cfg, w, m, d), n); }
      case WriteSecret(s, x) => UserWriteKept(cfg, w, s, x, n);
      case DeleteSecret(s) => UserDeleteKept(cfg, w, s, n);
      case Crash(m) =>
      case _ => OtherPassesKept(cfg, w, a);
    }
  }

  lemma UserWriteKept(cfg: Config, w: World, s: SecretName, x: Secret, n: Name)
    requires ValidConfig(cfg) && n in cfg.certificates
    ensures var w' := Step(cfg, w, WriteSecret(s, x));
            && w'.passes == w.passes
            && (CertSecret(n) in w'.secrets <==> CertSecret(n) in w.secrets)
            && (CertSecret(n) in w.secrets ==> w'.secrets[CertSecret(n)] == w.secrets[CertSecret(n)])
  {
  }

  lemma UserDeleteKept(cfg: Config, w: World, s: SecretName, n: Name)
    requires ValidConfig(cfg) && n in cfg.certificates
    ensures var w' := Step(cfg, w, DeleteSecret(s));
            && w'.passes == w.passes
            && (CertSecret(n) in w'.secrets <==> CertSecret(n) in w.secrets)
            && (CertSecret(n) in w.secrets ==> w'.secrets[CertSecret(n)] == w.secrets[CertSecret(n)])
  {
  }

  lemma OtherPassesKept(cfg: Config, w: World, a: Action)
    requires !a.BeginPass? && !a.ContinuePass? && !a.WriteSecret? && !a.DeleteSecret? && !a.Crash?
    ensures Step(cfg, w, a).passes == w.passes && Step(cfg, w, a).secrets == w.secrets
  {
    hide Observed;
  }

  lemma OtherKept(w: World, m: Name, e: Effect, n: Name)
    requires m != n
    ensures var w' := Apply(w, m, e);
            && (n in w'.passes <==> n in w.passes) && (n in w.passes ==> w'.passes[n] == w.passes[n])
            && (CertSecret(n) in w'.secrets <==> CertSecret(n) in w.secrets)
            && (CertSecret(n) in w.secrets ==> w'.secrets[CertSecret(n)] == w.secrets[CertSecret(n)])
  {
  }

  /** What the pass on `n` does next, as far as it matters here. */
  lemma OwnEffect(cfg: Config, w: World, n: Name, e: Effect)
    ensures var w' := Apply(w, n, e);
            && (e.Proceed? || e.CreateKeySecret? || e.ApplyCertSecret? ==> n in w'.passes && w'.passes[n] == e.next)
            && (e.Fail? || e.PatchStatus? ==> n !in w'.passes)
            && (CertSecret(n) in w'.secrets <==> e.ApplyCertSecret? || CertSecret(n) in w.secrets)
            && (CertSecret(n) in w'.secrets ==>
                  w'.secrets[CertSecret(n)] == if e.ApplyCertSecret? then e.secret else w.secrets[CertSecret(n)])
  {
  }

  lemma StoredKept(cfg: Config, actions: seq<Action>, a: Action, n: Name)
    requires ExternallyIssued(cfg, n) && Traced(cfg, actions, n)
    requires var w := Run(cfg, EMPTY_WORLD, actions);
             var w' := Run(cfg, EMPTY_WORLD, actions + [a]);
             && (CertSecret(n) in w'.secrets ==> CertSecret(n) in w.secrets && w'.secrets[CertSecret(n)] == w.secrets[CertSecret(n)])
             && (n in w'.passes ==> PassTraced(cfg, actions + [a], n, w'.passes[n]))
    ensures Traced(cfg, actions + [a], n)
  {
    hide Run, BothTraced, PassTraced;
    var w := Run(cfg, EMPTY_WORLD, actions);
    if CertSecret(n) in w.secrets {
      BothKept(cfg, actions, a, n, w.secrets[CertSecret(n)].cert.value.signer, w.secrets[CertSecret(n)].signerCert.value);
    }
  }

  lemma PassKept(cfg: Config, actions: seq<Action>, a: Action, n: Name, p: Pass)
    requires ExternallyIssued(cfg, n) && PassTraced(cfg, actions, n, p)
    requires n in Step(cfg, Run(cfg, EMPTY_WORLD, actions), a).passes
    ensures PassTraced(cfg, actions + [a], n, p)
  {
    hide Run, Step, BothTraced, KeyTraced;
    match p {
      case ReadingOwnKey(_, _, _, k) => KeyKept(cfg, actions, a, n, k);
      case ReadingSignerCert(_, _, _, cert, _) => KeyKept(cfg, actions, a, n, cert.signer);
      case WritingCert(_, _, cert, signerCert, _) => BothKept(cfg, actions, a, n, cert.signer, signerCert);
      case _ =>
    }
  }

  /** Reading the key begins a trace. */
  lemma KeyReadNow(cfg: Config, actions: seq<Action>, n: Name, d: nat, k: Key)
    requires ExternallyIssued(cfg, n)
    requires var w := Run(cfg, EMPTY_WORLD, actions);
             && n in w.passes && w.passes[n].ReadingSignerKey? && ReadKey(w, IssuerSecret(cfg, n)) == Some(k)
             && n in Step(cfg, w, ContinuePass(n, d)).passes
    ensures KeyTraced(cfg, actions + [ContinuePass(n, d)], n, k)
  {
    hide Run, Step, ReadKey, At;
    var a := ContinuePass(n, d);
    var more := actions + [a];
    AtPrefix(cfg, actions, a, |actions|);
    AtEnd(cfg, actions);
    AtEnd(cfg, more);
    RunSnoc(cfg, EMPTY_WORLD, actions, a);
    assert ReadsKey(cfg, more, n, |actions|, k);
    assert InFlight(cfg, more, n, |actions|, |more|);
  }

  /** Reading the certificate completes it. */
  lemma CertReadNow(cfg: Config, actions: seq<Action>, n: Name, d: nat, k: Key, c: Cert)
    requires ExternallyIssued(cfg, n) && KeyTraced(cfg, actions, n, k)
    requires var w := Run(cfg, EMPTY_WORLD, actions);
             n in w.passes && w.passes[n].ReadingSignerCert? && ReadCert(w, IssuerSecret(cfg, n)) == Some(c)
    ensures BothTraced(cfg, actions + [ContinuePass(n, d)], n, k, c)
  {
    hide Run, ReadKey, ReadCert, At;
    var a := ContinuePass(n, d);
    var more := actions + [a];
    var i: nat :| ReadsKey(cfg, actions, n, i, k) && InFlight(cfg, actions, n, i, |actions|);
    forall t: nat | t <= |actions| ensures At(cfg, more, t) == At(cfg, actions, t) { AtPrefix(cfg, actions, a, t); }
    AtEnd(cfg, actions);
    assert ReadsKey(cfg, more, n, i, k);
    assert ReadsCert(cfg, more, n, |actions|, c);
    assert ReadsBoth(cfg, more, n, i, |actions|, k, c);
  }

  lemma ReadingTraced(cfg: Config, actions: seq<Action>, n: Name, d: nat)
    requires ValidConfig(cfg) && ExternallyIssued(cfg, n)
    requires var w := Run(cfg, EMPTY_WORLD, actions);
             && n in w.passes && PassOk(cfg, w, n, w.passes[n]) && PassTraced(cfg, actions, n, w.passes[n])
             && !w.passes[n].WritingCert?
    ensures var w := Run(cfg, EMPTY_WORLD, actions);
            var w' := Step(cfg, w, ContinuePass(n, d));
            n in w'.passes ==> PassTraced(cfg, actions + [ContinuePass(n, d)], n, w'.passes[n])
  {
    hide Run, KeyTraced, BothTraced, BaseOk, Resolve, Trunc, Interval, ReadKey, ReadCert, StatusOk, SignerOk, SealOk, Apply;
    var w := Run(cfg, EMPTY_WORLD, actions);
    OwnEffect(cfg, w, n, Continue(cfg, w, n, d));
    match w.passes[n] {
      case ReadingSignerKey(base, st, ref) =>
        if ReadKey(w, ref.keySecret).Some? { KeyReadNow(cfg, actions, n, d, ReadKey(w, ref.keySecret).value); }
      case ReadingOwnKey(base, st, ref, k) =>
        if Continue(cfg, w, n, d).Proceed? { KeyKept(cfg, actions, ContinuePass(n, d), n, k); }
      case ReadingSignerCert(base, st, ref, cert, at) =>
        if ref.certSecret.Some? && ReadCert(w, ref.certSecret.value).Some? {
          CertReadNow(cfg, actions, n, d, cert.signer, ReadCert(w, ref.certSecret.value).value);
        }
      case _ =>
    }
  }

  lemma OwnStepTraced(cfg: Config, actions: seq<Action>, n: Name, d: nat)
    requires ValidConfig(cfg) && ExternallyIssued(cfg, n) && Traced(cfg, actions, n)
    requires var w := Run(cfg, EMPTY_WORLD, actions); Inv(cfg, w) && n in w.passes
    ensures Traced(cfg, actions + [ContinuePass(n, d)], n)
  {
    hide Run, PassTraced, BothTraced, PassOk, CertsOk, SecretsOk, ExternalsOk, KeysDistinct, Apply, At, ReadsBoth;
    var w := Run(cfg, EMPTY_WORLD, actions);
    var a := ContinuePass(n, d);
    RunSnoc(cfg, EMPTY_WORLD, actions, a);
    OwnEffect(cfg, w, n, Continue(cfg, w, n, d));
    if w.passes[n].WritingCert? {
      WritingTraced(cfg, actions, n, d);
    } else {
      ReadingTraced(cfg, actions, n, d);
      NoStore(cfg, w, n, d);
      StoredKept(cfg, actions, a, n);
    }
  }

  lemma NoStore(cfg: Config, w: World, n: Name, d: nat)
    requires n in cfg.certificates && n in w.passes && !w.passes[n].WritingCert?
    ensures !Continue(cfg, w, n, d).ApplyCertSecret?
  {
    hide Resolve, ReadKey, ReadCert;
  }

  lemma WritingTraced(cfg: Config, actions: seq<Action>, n: Name, d: nat)
    requires ValidConfig(cfg) && ExternallyIssued(cfg, n) && Traced(cfg, actions, n)
    requires var w := Run(cfg, EMPTY_WORLD, actions); n in w.passes && w.passes[n].WritingCert?
    ensures Traced(cfg, actions + [ContinuePass(n, d)], n)
  {
    hide Run, BothTraced, Apply, WithCert;
    var w := Run(cfg, EMPTY_WORLD, actions);
    var p := w.passes[n];
    RunSnoc(cfg, EMPTY_WORLD, actions, ContinuePass(n, d));
    OwnEffect(cfg, w, n, Continue(cfg, w, n, d));
    BothKept(cfg, actions, ContinuePass(n, d), n, p.cert.signer, p.signerCert);
  }

  lemma BeginTraced(cfg: Config, actions: seq<Action>, n: Name, d: nat)
    requires ValidConfig(cfg) && ExternallyIssued(cfg, n) && Traced(cfg, actions, n)
    requires n !in Run(cfg, EMPTY_WORLD, actions).passes && n in Run(cfg, EMPTY_WORLD, actions).certs
    ensures Traced(cfg, actions + [BeginPass(n, d)], n)
  {
    hide Run, BothTraced, KeyTraced, Validated, WithKey, Apply;
    var w := Run(cfg, EMPTY_WORLD, actions);
    RunSnoc(cfg, EMPTY_WORLD, actions, BeginPass(n, d));
    OwnEffect(cfg, w, n, Begin(cfg, w, n, d));
    StoredKept(cfg, actions, BeginPass(n, d), n);
  }

  lemma OtherStepTraced(cfg: Config, actions: seq<Action>, a: Action, n: Name)
    requires ValidConfig(cfg) && ExternallyIssued(cfg, n) && Traced(cfg, actions, n)
    requires !(a.BeginPass? && a.n == n) && !(a.ContinuePass? && a.n == n) && a != Crash(n)
    ensures Traced(cfg, actions + [a], n)
  {
    hide Run, Step, BothTraced, PassTraced;
    var w := Run(cfg, EMPTY_WORLD, actions);
    RunSnoc(cfg, EMPTY_WORLD, actions, a);
    ElsewhereKept(cfg, w, a, n);
    if n in w.passes { PassKept(cfg, actions, a, n, w.passes[n]); }
    StoredKept(cfg, actions, a, n);
  }

  lemma IdleTraced(cfg: Config, actions: seq<Action>, a: Action, n: Name)
    requires ValidConfig(cfg) && ExternallyIssued(cfg, n) && Traced(cfg, actions, n)
    requires var w := Run(cfg, EMPTY_WORLD, actions); Step(cfg, w, a) == w || a == Crash(n)
    ensures Traced(cfg, actions + [a], n)
  {
    hide Run, BothTraced, PassTraced;
    var w := Run(cfg, EMPTY_WORLD, actions);
    RunSnoc(cfg, EMPTY_WORLD, actions, a);
    if Step(cfg, w, a) == w && n in w.passes { PassKept(cfg, actions, a, n, w.passes[n]); }
    StoredKept(cfg, actions, a, n);
  }

  lemma {:induction false} RunTraced(cfg: Config, actions: seq<Action>, n: Name)
    requires ValidConfig(cfg) && ExternallyIssued(cfg, n)
    ensures Traced(cfg, actions, n)
    decreases |actions|
  {
    hide Run, Traced, Inv, ExternallyIssued, Begin, Continue, Apply;
    if actions == [] {
      NothingTraced(cfg, n);
    } else {
      var before := actions[..|actions| - 1];
      var a := actions[|actions| - 1];
      assert actions == before + [a];
      var w := Run(cfg, EMPTY_WORLD, before);
      RunTraced(cfg, before, n);
      ReachableInv(cfg, before);
      if a.ContinuePass? && a.n == n {
        if n in w.passes && n in cfg.certificates { OwnStepTraced(cfg, before, n, a.d); } else { IdleTraced(cfg, before, a, n); }
      } else if a.BeginPass? && a.n == n {
        if n in cfg.certificates && n in w.certs && n !in w.passes { BeginTraced(cfg, before, n, a.d); } else { IdleTraced(cfg, before, a, n); }
      } else if a == Crash(n) {
        IdleTraced(cfg, before, a, n);
      } else {
        OtherStepTraced(cfg, before, a, n);
      }
    }
  }

  lemma NothingTraced(cfg: Config, n: Name)
    requires ExternallyIssued(cfg, n)
    ensures Traced(cfg, [], n)
  {
  }

  // ---------------------------------------------------------------------------------------
  // Main results
  // ---------------------------------------------------------------------------------------

  /** Main result: when the issuer is an ExternalCertificate, the stored signer.cert certifies the key that
      signed if and only if the key that the pass found in the issuer's Secret at its first read is the key
      of the certificate that it found there at its second. */
  lemma ExternalSealIff(cfg: Config, actions: seq<Action>, n: Name)
    requires ValidConfig(cfg) && ExternallyIssued(cfg, n)
    requires CertSecret(n) in Run(cfg, EMPTY_WORLD, actions).secrets
    ensures var x := Run(cfg, EMPTY_WORLD, actions).secrets[CertSecret(n)];
            && x.cert.Some? && x.signerCert.Some?
            && exists i: nat, j: nat, k: Key, c: Cert :: ReadsBoth(cfg, actions, n, i, j, k, c)
                 && x.cert.value.signer == k && x.signerCert.value == c
                 && (x.signerCert.value.subject == x.cert.value.signer <==> c.subject == k)
  {
    hide Run, ReadsBoth;
    RunTraced(cfg, actions, n);
    var x := Run(cfg, EMPTY_WORLD, actions).secrets[CertSecret(n)];
    assert BothTraced(cfg, actions, n, x.cert.value.signer, x.signerCert.value);
  }

  /** Users write into the Secret `s` nothing but one key and certificates for it. */
  predicate OneKeyWritten(actions: seq<Action>, s: SecretName, k: Key) {
    forall a :: a in actions && a.WriteSecret? && a.s == s ==>
      (a.secret.key.Some? ==> a.secret.key.value == k) && (a.secret.cert.Some? ==> a.secret.cert.value.subject == k)
  }

  predicate OneKeyHeld(w: World, s: SecretName, k: Key) {
    (ReadKey(w, s).Some? ==> ReadKey(w, s) == Some(k)) && (ReadCert(w, s).Some? ==> ReadCert(w, s).value.subject == k)
  }

  lemma OneKeyStep(cfg: Config, w: World, a: Action, s: SecretName, k: Key)
    requires ValidConfig(cfg) && s in cfg.userSecrets && OneKeyHeld(w, s, k) && OneKeyWritten([a], s, k)
    ensures OneKeyHeld(Step(cfg, w, a), s, k)
  {
    hide Begin, Continue, Observed;
    assert a in [a];
    match a {
      case BeginPass(m, d) => if m in cfg.certificates && m in w.certs && m !in w.passes { UserSecretKept(cfg, w, m, Begin(cfg, w, m, d), s); }
      case ContinuePass(m, d) => if m in cfg.certificates && m in w.passes { UserSecretKept(cfg, w, m, Continue(cfg, w, m, d), s); }
      case _ =>
    }
  }

  lemma UserSecretKept(cfg: Config, w: World, m: Name, e: Effect, s: SecretName)
    requires ValidConfig(cfg) && m in cfg.certificates && s in cfg.userSecrets
    ensures ReadKey(Apply(w, m, e), s) == ReadKey(w, s) && ReadCert(Apply(w, m, e), s) == ReadCert(w, s)
  {
  }

  lemma {:induction false} OneKeyRun(cfg: Config, w: World, actions: seq<Action>, s: SecretName, k: Key)
    requires ValidConfig(cfg) && s in cfg.userSecrets && OneKeyHeld(w, s, k) && OneKeyWritten(actions, s, k)
    ensures OneKeyHeld(Run(cfg, w, actions), s, k)
    decreases |actions|
  {
    hide Step, OneKeyHeld;
    if actions != [] {
      OneKeyStep(cfg, w, actions[0], s, k);
      OneKeyRun(cfg, Step(cfg, w, actions[0]), actions[1..], s, k);
    }
  }

  lemma NothingHeld(s: SecretName, k: Key)
    ensures OneKeyHeld(EMPTY_WORLD, s, k)
  {
  }

  /** What a caller can check: if users never write anything but one key and certificates for it into the
      issuer's Secret, whatever else happens when, then the stored signer.cert certifies the key that signed. */
  lemma MatchingWritesSeal(cfg: Config, actions: seq<Action>, n: Name, k: Key)
    requires ValidConfig(cfg) && ExternallyIssued(cfg, n) && OneKeyWritten(actions, IssuerSecret(cfg, n), k)
    requires CertSecret(n) in Run(cfg, EMPTY_WORLD, actions).secrets
    ensures var x := Run(cfg, EMPTY_WORLD, actions).secrets[CertSecret(n)];
            x.cert.Some? && x.signerCert.Some? && x.cert.value.signer == k && x.signerCert.value.subject == k
  {
    hide Run, ReadKey, ReadCert;
    RunTraced(cfg, actions, n);
    var s := IssuerSecret(cfg, n);
    var x := Run(cfg, EMPTY_WORLD, actions).secrets[CertSecret(n)];
    var i: nat, j: nat :| ReadsBoth(cfg, actions, n, i, j, x.cert.value.signer, x.signerCert.value);
    if s in cfg.userSecrets {
      NothingHeld(s, k);
      OneKeyRun(cfg, EMPTY_WORLD, actions[..i], s, k);
      OneKeyRun(cfg, EMPTY_WORLD, actions[..j], s, k);
    } else {
      OperatorSecretIsOneSided(cfg, actions[..i], s);
      OperatorSecretIsOneSided(cfg, actions[..j], s);
    }
  }

  /** An ExternalCertificate on one of the operator's own Secrets finds a key or a certificate there, never both. */
  lemma OperatorSecretIsOneSided(cfg: Config, actions: seq<Action>, s: SecretName)
    requires ValidConfig(cfg) && s !in cfg.userSecrets
    ensures var w := Run(cfg, EMPTY_WORLD, actions);
            (ReadKey(w, s).Some? ==> s.KeySecret?) && (ReadCert(w, s).Some? ==> s.CertSecret?)
  {
    hide Run, CertsOk, PassesOk, ExternalsOk, KeysDistinct;
    ReachableInv(cfg, actions);
    var w := Run(cfg, EMPTY_WORLD, actions);
    if s in w.secrets { assert SecretOk(cfg, w, s); }
  }

  // ---------------------------------------------------------------------------------------
  // How it fails
  // ---------------------------------------------------------------------------------------

  /** The user's Secret is imported, then `n` gets its key. */
  function Setup(cfg: Config, n: Name, first: Secret): seq<Action>
    requires ExternallyIssued(cfg, n)
  {
    var e := cfg.certificates[n].issuerName;
    [CreateExternal(e), WriteSecret(IssuerSecret(cfg, n), first), BeginExternal(e), PublishExternal(e),
     CreateCertificate(n), BeginPass(n, 0), ContinuePass(n, 0)]
  }

  /** The issuing pass, with the user writing the Secret again between its two reads. */
  function Issuance(cfg: Config, n: Name, second: Secret): seq<Action>
    requires ExternallyIssued(cfg, n)
  {
    [BeginPass(n, 0), ContinuePass(n, 0), ContinuePass(n, 0), WriteSecret(IssuerSecret(cfg, n), second),
     ContinuePass(n, 0), ContinuePass(n, 0), ContinuePass(n, 0)]
  }

  lemma Seven(cfg: Config, w: World, a: Action, b: Action, c: Action, d: Action, e: Action, f: Action, g: Action)
    ensures Run(cfg, w, [a, b, c, d, e, f, g])
            == Step(cfg, Step(cfg, Step(cfg, Step(cfg, Step(cfg, Step(cfg, Step(cfg, w, a), b), c), d), e), f), g)
  {
    hide Step;
    var w3 := Step(cfg, Step(cfg, Step(cfg, w, a), b), c);
    assert Run(cfg, w, [a, b, c]) == w3 by { Three(cfg, w, a, b, c); }
    assert Run(cfg, w3, [d, e, f]) == Step(cfg, Step(cfg, Step(cfg, w3, d), e), f) by { Three(cfg, w3, d, e, f); }
    RunSplit(cfg, w, [a, b, c], [d, e, f]);
    RunSnoc(cfg, w, [a, b, c] + [d, e, f], g);
    assert [a, b, c] + [d, e, f] + [g] == [a, b, c, d, e, f, g];
  }

  lemma Three(cfg: Config, w: World, a: Action, b: Action, c: Action)
    ensures Run(cfg, w, [a, b, c]) == Step(cfg, Step(cfg, Step(cfg, w, a), b), c)
  {
    hide Step;
    RunSnoc(cfg, w, [], a);
    RunSnoc(cfg, w, [a], b);
    RunSnoc(cfg, w, [a] + [b], c);
    assert [] + [a] == [a] && [a] + [b] + [c] == [a, b, c];
  }

  /** What the setup leaves: the issuer is published with the Secret's key and certificate, `n` has a key. */
  predicate Prepared(cfg: Config, w: World, n: Name, first: Secret)
    requires ExternallyIssued(cfg, n)
  {
    var e := cfg.certificates[n].issuerName;
    var s := IssuerSecret(cfg, n);
    && s in w.secrets && w.secrets[s] == first
    && e in w.externals && w.externals[e].Some?
    && w.externals[e].value.keyExists && w.externals[e].value.key.secret == Some(s)
    && w.externals[e].value.certExists && w.externals[e].value.cert.secret == Some(s)
    && n in w.certs && n !in w.passes
    && StatusOf(w, n).keyExists && !StatusOf(w, n).certExists && StatusOf(w, n).key.secret == Some(KeySecret(n))
    && ReadKey(w, KeySecret(n)).Some?
  }

  lemma Imports(cfg: Config, n: Name, first: Secret, w: World)
    requires ExternallyIssued(cfg, n) && IssuerSecret(cfg, n) in cfg.userSecrets && first.key.Some? && first.cert.Some?
    requires var e := cfg.certificates[n].issuerName;
             w == Step(cfg, Step(cfg, Step(cfg, Step(cfg, EMPTY_WORLD, CreateExternal(e)),
                                               WriteSecret(IssuerSecret(cfg, n), first)), BeginExternal(e)), PublishExternal(e))
    ensures var e := cfg.certificates[n].issuerName;
            var s := IssuerSecret(cfg, n);
            && w.secrets == map[s := first] && w.certs == map[] && w.passes == map[]
            && e in w.externals && w.externals[e].Some?
            && w.externals[e].value.keyExists && w.externals[e].value.key.secret == Some(s)
            && w.externals[e].value.certExists && w.externals[e].value.cert.secret == Some(s)
  {
    hide PutBool;
    var e := cfg.certificates[n].issuerName;
    var w1 := Step(cfg, EMPTY_WORLD, CreateExternal(e));
    var w2 := Step(cfg, w1, WriteSecret(IssuerSecret(cfg, n), first));
    assert w2.externals == map[e := None] && w2.secrets == map[IssuerSecret(cfg, n) := first];
    var w3 := Step(cfg, w2, BeginExternal(e));
    assert e in w3.externalPasses;
  }

  lemma GetsKey(cfg: Config, n: Name, first: Secret, w: World)
    requires ValidConfig(cfg) && ExternallyIssued(cfg, n)
    requires var e := cfg.certificates[n].issuerName;
             var s := IssuerSecret(cfg, n);
             && s in cfg.userSecrets
             && w.secrets == map[s := first] && w.certs == map[] && w.passes == map[]
             && e in w.externals && w.externals[e].Some?
             && w.externals[e].value.keyExists && w.externals[e].value.key.secret == Some(s)
             && w.externals[e].value.certExists && w.externals[e].value.cert.secret == Some(s)
    ensures Prepared(cfg, Step(cfg, Step(cfg, Step(cfg, w, CreateCertificate(n)), BeginPass(n, 0)), ContinuePass(n, 0)), n, first)
  {
    hide PutBool;
    var w1 := Step(cfg, w, CreateCertificate(n));
    var w2 := Step(cfg, w1, BeginPass(n, 0));
    assert n in w2.passes && w2.passes[n].Publishing? && ReadKey(w2, KeySecret(n)).Some?;
  }

  /** The issuing pass as far as it reads the signer's key. */
  lemma ReadsFirst(cfg: Config, n: Name, first: Secret, w: World)
    requires ValidConfig(cfg) && ExternallyIssued(cfg, n) && Prepared(cfg, w, n, first) && first.key.Some?
    ensures var s := IssuerSecret(cfg, n);
            var w3 := Step(cfg, Step(cfg, Step(cfg, w, BeginPass(n, 0)), ContinuePass(n, 0)), ContinuePass(n, 0));
            && n in w3.passes && w3.passes[n].ReadingOwnKey? && w3.passes[n].signerKey == first.key.value
            && w3.passes[n].ref == SignerRef(s, Some(s), false) && w3.passes[n].base.key.secret == Some(KeySecret(n))
            && ReadKey(w3, KeySecret(n)).Some?
  {
    hide PutBool, WithExternalIssuer;
    var s := IssuerSecret(cfg, n);
    var w1 := Step(cfg, w, BeginPass(n, 0));
    assert w1.passes[n] == Resolving(StatusOf(w, n));
    var w2 := Step(cfg, w1, ContinuePass(n, 0));
    assert w2.passes[n].ReadingSignerKey? && w2.passes[n].ref == SignerRef(s, Some(s), false) && w2.secrets == w.secrets;
  }

  /** The user writes the Secret again, and the pass signs. */
  lemma SignsAfterWrite(cfg: Config, n: Name, second: Secret, w: World)
    requires ValidConfig(cfg) && n in cfg.certificates && n in w.passes && w.passes[n].ReadingOwnKey?
    requires w.passes[n].base.key.secret == Some(KeySecret(n)) && ReadKey(w, KeySecret(n)).Some?
    requires w.passes[n].ref.certSecret.Some? && w.passes[n].ref.certSecret.value in cfg.userSecrets
    ensures var s := w.passes[n].ref.certSecret.value;
            var w' := Step(cfg, Step(cfg, w, WriteSecret(s, second)), ContinuePass(n, 0));
            && n in w'.passes && w'.passes[n].ReadingSignerCert? && w'.passes[n].cert.signer == w.passes[n].signerKey
            && w'.passes[n].ref.certSecret == Some(s) && s in w'.secrets && w'.secrets[s] == second
  {
    hide Trunc, Interval;
    var w4 := Step(cfg, w, WriteSecret(w.passes[n].ref.certSecret.value, second));
    assert w4.passes == w.passes && ReadKey(w4, KeySecret(n)) == ReadKey(w, KeySecret(n));
  }

  lemma SealsWithSecond(cfg: Config, n: Name, second: Secret, w: World)
    requires n in cfg.certificates && n in w.passes && w.passes[n].ReadingSignerCert? && w.passes[n].ref.certSecret.Some?
    requires var s := w.passes[n].ref.certSecret.value; s in w.secrets && w.secrets[s] == second && second.cert.Some?
    ensures var w' := Step(cfg, Step(cfg, w, ContinuePass(n, 0)), ContinuePass(n, 0));
            && CertSecret(n) in w'.secrets
            && w'.secrets[CertSecret(n)] == Secret(None, Some(w.passes[n].cert), second.cert)
  {
    hide WithCert;
  }

  /** For any contents that the user writes first and second: the pass signs with the first key and stores
      the second certificate as signer.cert. */
  lemma ReadsApart(cfg: Config, n: Name, first: Secret, second: Secret)
    requires ValidConfig(cfg) && ExternallyIssued(cfg, n) && IssuerSecret(cfg, n) in cfg.userSecrets
    requires first.key.Some? && first.cert.Some? && second.cert.Some?
    ensures var w := Run(cfg, EMPTY_WORLD, Setup(cfg, n, first) + Issuance(cfg, n, second));
            && CertSecret(n) in w.secrets && w.secrets[CertSecret(n)].cert.Some?
            && w.secrets[CertSecret(n)].cert.value.signer == first.key.value
            && w.secrets[CertSecret(n)].signerCert == second.cert
  {
    hide Step, Run, Prepared;
    var e, s := cfg.certificates[n].issuerName, IssuerSecret(cfg, n);
    var k, c := BeginPass(n, 0), ContinuePass(n, 0);
    Seven(cfg, EMPTY_WORLD, CreateExternal(e), WriteSecret(s, first), BeginExternal(e), PublishExternal(e), CreateCertificate(n), k, c);
    var w4 := Step(cfg, Step(cfg, Step(cfg, Step(cfg, EMPTY_WORLD, CreateExternal(e)), WriteSecret(s, first)), BeginExternal(e)), PublishExternal(e));
    Imports(cfg, n, first, w4);
    GetsKey(cfg, n, first, w4);
    var w7 := Run(cfg, EMPTY_WORLD, Setup(cfg, n, first));
    RunSplit(cfg, EMPTY_WORLD, Setup(cfg, n, first), Issuance(cfg, n, second));
    Seven(cfg, w7, k, c, c, WriteSecret(s, second), c, c, c);
    ReadsFirst(cfg, n, first, w7);
    SignsAfterWrite(cfg, n, second, Step(cfg, Step(cfg, Step(cfg, w7, k), c), c));
    SealsWithSecond(cfg, n, second, Step(cfg, Step(cfg, Step(cfg, Step(cfg, Step(cfg, w7, k), c), c), WriteSecret(s, second)), c));
  }

  /** Failing input 1: a Secret whose key and certificate are not for each other. */
  lemma MismatchedSecretFails(cfg: Config, n: Name, secret: Secret)
    requires ValidConfig(cfg) && ExternallyIssued(cfg, n) && IssuerSecret(cfg, n) in cfg.userSecrets
    requires secret.key.Some? && secret.cert.Some? && secret.cert.value.subject != secret.key.value
    ensures var x := Run(cfg, EMPTY_WORLD, Setup(cfg, n, secret) + Issuance(cfg, n, secret)).secrets;
            CertSecret(n) in x && x[CertSecret(n)].cert.Some? && x[CertSecret(n)].signerCert.Some?
            && x[CertSecret(n)].signerCert.value.subject != x[CertSecret(n)].cert.value.signer
  {
    ReadsApart(cfg, n, secret, secret);
  }

  /** Failing input 2: a Secret that is rotated from one matching pair to another between the two reads. */
  lemma RotationFails(cfg: Config, n: Name, first: Secret, second: Secret)
    requires ValidConfig(cfg) && ExternallyIssued(cfg, n) && IssuerSecret(cfg, n) in cfg.userSecrets
    requires first.key.Some? && first.cert.Some? && first.cert.value.subject == first.key.value
    requires second.key.Some? && second.cert.Some? && second.cert.value.subject == second.key.value
    requires first.key != second.key
    ensures var x := Run(cfg, EMPTY_WORLD, Setup(cfg, n, first) + Issuance(cfg, n, second)).secrets;
            CertSecret(n) in x && x[CertSecret(n)].cert.Some? && x[CertSecret(n)].signerCert.Some?
            && x[CertSecret(n)].signerCert.value.subject != x[CertSecret(n)].cert.value.signer
  {
    ReadsApart(cfg, n, first, second);
  }
}
