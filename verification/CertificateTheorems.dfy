/** What the invariant says about every run of the certificate controllers. */
module CertificateTheorems {
  import opened Wrappers
  import opened Conditions
  import opened CertificateTypes
  import opened CertificateWorld
  import opened CertificateSafety

  lemma EmptyInv(cfg: Config)
    ensures Inv(cfg, EMPTY_WORLD)
  {
  }

  lemma ReachableInv(cfg: Config, actions: seq<Action>)
    requires ValidConfig(cfg)
    ensures Inv(cfg, Run(cfg, EMPTY_WORLD, actions))
  {
    EmptyInv(cfg);
    RunInv(cfg, EMPTY_WORLD, actions);
  }

  // ---------------------------------------------------------------------------------------
  // Crash consistency of the stored keys and certificates
  // ---------------------------------------------------------------------------------------

  /** In every reachable world, whatever passes were cut short, a stored ndn.cert certifies the
      Certificate's own key; and if its issuer is a Certificate, it was signed by that issuer's key and
      the stored signer.cert certifies that key. */
  lemma StoredCertificatesMatchKeys(cfg: Config, actions: seq<Action>, n: Name)
    requires ValidConfig(cfg) && n in cfg.certificates
    ensures var w := Run(cfg, EMPTY_WORLD, actions);
            CertSecret(n) in w.secrets ==>
              var x := w.secrets[CertSecret(n)];
              && KeySecret(n) in w.secrets
              && x.cert.Some? && w.secrets[KeySecret(n)].key == Some(x.cert.value.subject)
              && x.signerCert.Some?
              && (cfg.certificates[n].issuerKind.CertificateKind? ==>
                    && KeyOf(w, cfg.certificates[n].issuerName) == Some(x.cert.value.signer)
                    && x.signerCert.value.subject == x.cert.value.signer)
  {
    hide Run, StatusOk;
    var w := Run(cfg, EMPTY_WORLD, actions);
    ReachableInv(cfg, actions);
    if CertSecret(n) in w.secrets {
      assert SecretOk(cfg, w, CertSecret(n));
    }
  }

  /** A status never claims a key or certificate that is not stored. */
  lemma RecordedMeansStored(cfg: Config, actions: seq<Action>, n: Name)
    requires ValidConfig(cfg)
    ensures var w := Run(cfg, EMPTY_WORLD, actions);
            n in w.certs ==>
              && (StatusOf(w, n).keyExists ==> KeySecret(n) in w.secrets && w.secrets[KeySecret(n)].key == StatusOf(w, n).key.name)
              && (StatusOf(w, n).certExists ==> CertSecret(n) in w.secrets)
  {
    hide Run, FlagsOk;
    var w := Run(cfg, EMPTY_WORLD, actions);
    ReachableInv(cfg, actions);
    if n in w.certs {
      assert CertOk(cfg, w, n);
    }
  }

  lemma {:induction false} RunGrows(cfg: Config, w: World, actions: seq<Action>)
    requires ValidConfig(cfg) && Inv(cfg, w)
    ensures Grows(cfg, w, Run(cfg, w, actions))
    decreases |actions|
  {
    hide Step, Inv, ValidConfig;
    if actions != [] {
      StepInv(cfg, w, actions[0]);
      RunGrows(cfg, Step(cfg, w, actions[0]), actions[1..]);
    }
  }

  /** A key Secret is written at most once: the first one written is the one every later world holds,
      and no two Certificates share a key. */
  lemma KeysWrittenOnce(cfg: Config, actions: seq<Action>, later: seq<Action>, m: Name, n: Name)
    requires ValidConfig(cfg) && m in cfg.certificates && n in cfg.certificates
    ensures var w := Run(cfg, EMPTY_WORLD, actions);
            var w' := Run(cfg, w, later);
            && (KeySecret(n) in w.secrets ==> KeySecret(n) in w'.secrets && w'.secrets[KeySecret(n)] == w.secrets[KeySecret(n)])
            && (m != n && KeySecret(m) in w.secrets && KeySecret(n) in w.secrets
                ==> w.secrets[KeySecret(m)].key != w.secrets[KeySecret(n)].key)
  {
    hide Run, StatusOk, PassesOk;
    var w := Run(cfg, EMPTY_WORLD, actions);
    var w' := Run(cfg, w, later);
    ReachableInv(cfg, actions);
    RunInv(cfg, w, later);
    RunGrows(cfg, w, later);
    if KeySecret(n) in w.secrets {
      assert SecretOk(cfg, w, KeySecret(n)) && KeyOf(w', n) == KeyOf(w, n) && SecretOk(cfg, w', KeySecret(n));
      if KeySecret(m) in w.secrets {
        assert SecretOk(cfg, w, KeySecret(m));
      }
    }
  }

  /** What a self-signed Certificate stores as signer.cert: its own new certificate the first time,
      and on renewal the certificate that was stored until then. */
  lemma SelfSignedSignerCert(cfg: Config, actions: seq<Action>, n: Name, d: nat)
    requires ValidConfig(cfg) && n in cfg.certificates && SelfSigned(cfg, n)
    requires n in Run(cfg, EMPTY_WORLD, actions).passes && Run(cfg, EMPTY_WORLD, actions).passes[n].WritingCert?
    ensures var w := Run(cfg, EMPTY_WORLD, actions);
            var x := Step(cfg, w, ContinuePass(n, d)).secrets[CertSecret(n)];
            && x.cert == Some(w.passes[n].cert)
            && x.signerCert == if StatusOf(w, n).certExists then ReadCert(w, CertSecret(n)) else x.cert
  {
    hide Run, PassOk, CertOk, Continue, CertsOk, SecretsOk, PassesOk, KeysDistinct, ExternalsOk;
    var w := Run(cfg, EMPTY_WORLD, actions);
    ReachableInv(cfg, actions);
    PassesHold(cfg, w, n);
    SelfSignedWrite(cfg, w, n, d);
  }

  lemma SelfSignedWrite(cfg: Config, w: World, n: Name, d: nat)
    requires n in cfg.certificates && SelfSigned(cfg, n) && n in w.passes && w.passes[n].WritingCert?
    requires PassOk(cfg, w, n, w.passes[n])
    ensures var e := Continue(cfg, w, n, d);
            && e.ApplyCertSecret? && e.secret.cert == Some(w.passes[n].cert)
            && e.secret.signerCert == if StatusOf(w, n).certExists then ReadCert(w, CertSecret(n)) else e.secret.cert
  {
    hide StatusOk, WithCert, IssuerOk;
  }

  // ---------------------------------------------------------------------------------------
  // Issuer chains
  // ---------------------------------------------------------------------------------------

  /** The certificate of `n` is stored, and following issuers for at most `k` links, all of them
      recorded as issued, ends at a self-signed Certificate or an ExternalCertificate. */
  predicate Chain(cfg: Config, w: World, n: Name, k: nat)
    decreases k
  {
    && n in cfg.certificates && n in w.certs
    && CertSecret(n) in w.secrets
    && var m := cfg.certificates[n].issuerName;
       match cfg.certificates[n].issuerKind
       case CertificateKind => m == n || (k > 0 && StatusOf(w, m).certExists && Chain(cfg, w, m, k - 1))
       case ExternalKind => m in w.externals
       case OtherKind(_) => false
  }

  ghost predicate AllChained(cfg: Config, w: World) {
    forall n :: n in cfg.certificates && CertSecret(n) in w.secrets ==> exists k: nat :: Chain(cfg, w, n, k)
  }

  lemma {:induction false} ChainGrows(cfg: Config, w: World, w': World, n: Name, k: nat)
    requires Grows(cfg, w, w') && Chain(cfg, w, n, k)
    ensures Chain(cfg, w', n, k)
    decreases k
  {
    var m := cfg.certificates[n].issuerName;
    if cfg.certificates[n].issuerKind.CertificateKind? && m != n {
      ChainGrows(cfg, w, w', m, k - 1);
    }
  }

  lemma AppliedCert(cfg: Config, w: World, i: Name, e: Effect, n: Name)
    requires EffectOk(cfg, w, i, e) && n in cfg.certificates
    requires CertSecret(n) in Apply(w, i, e).secrets && CertSecret(n) !in w.secrets
    ensures n in w.certs && IssuerOk(cfg, w, n)
  {
    hide FlagsOk, PassOk, StatusOk, IssuerOk;
  }

  /** A certificate Secret appears only through a write whose issuer was already able to sign. */
  lemma NewCertHasIssuer(cfg: Config, w: World, a: Action, n: Name)
    requires ValidConfig(cfg) && Inv(cfg, w) && n in cfg.certificates
    requires CertSecret(n) in Step(cfg, w, a).secrets && CertSecret(n) !in w.secrets
    ensures n in w.certs && IssuerOk(cfg, w, n)
  {
    hide Begin, Continue, Apply, IssuerOk, EffectOk, CertsOk, SecretsOk, PassesOk, KeysDistinct, ExternalsOk;
    match a {
      case BeginPass(i, d) =>
        CertsHold(cfg, w, i);
        BeginOk(cfg, w, i, d);
        AppliedCert(cfg, w, i, Begin(cfg, w, i, d), n);
      case ContinuePass(i, d) =>
        ContinueOk(cfg, w, i, d);
        AppliedCert(cfg, w, i, Continue(cfg, w, i, d), n);
      case _ =>
    }
  }

  lemma StepChained(cfg: Config, w: World, a: Action)
    requires ValidConfig(cfg) && Inv(cfg, w) && AllChained(cfg, w)
    ensures AllChained(cfg, Step(cfg, w, a))
  {
    hide Step, StatusOk, PassesOk, SecretsOk, KeysDistinct, ExternalsOk;
    var w' := Step(cfg, w, a);
    StepInv(cfg, w, a);
    forall n | n in cfg.certificates && CertSecret(n) in w'.secrets
      ensures exists k: nat :: Chain(cfg, w', n, k)
    {
      if CertSecret(n) in w.secrets {
        var k: nat :| Chain(cfg, w, n, k);
        ChainGrows(cfg, w, w', n, k);
      } else {
        NewCertHasIssuer(cfg, w, a, n);
        var m := cfg.certificates[n].issuerName;
        if cfg.certificates[n].issuerKind.CertificateKind? && m != n {
          assert CertOk(cfg, w, m);
          var k: nat :| Chain(cfg, w, m, k);
          ChainGrows(cfg, w, w', m, k);
          assert Chain(cfg, w', n, k + 1);
        } else {
          assert Chain(cfg, w', n, 0);
        }
      }
    }
  }

  lemma {:induction false} RunChained(cfg: Config, w: World, actions: seq<Action>)
    requires ValidConfig(cfg) && Inv(cfg, w) && AllChained(cfg, w)
    ensures AllChained(cfg, Run(cfg, w, actions))
    decreases |actions|
  {
    hide Step, Inv, AllChained;
    if actions != [] {
      StepInv(cfg, w, actions[0]);
      StepChained(cfg, w, actions[0]);
      RunChained(cfg, Step(cfg, w, actions[0]), actions[1..]);
    }
  }

  /** Main result: every certificate stored in any run has a finite chain of issued issuers. */
  lemma IssuedHasChain(cfg: Config, actions: seq<Action>, n: Name)
    requires ValidConfig(cfg) && n in cfg.certificates
    ensures var w := Run(cfg, EMPTY_WORLD, actions);
            CertSecret(n) in w.secrets ==> exists k: nat :: Chain(cfg, w, n, k)
  {
    hide Run;
    EmptyInv(cfg);
    RunChained(cfg, EMPTY_WORLD, actions);
  }

  /** The Certificate reached from `n` after `i` issuer links between Certificates. */
  function Ancestor(cfg: Config, n: Name, i: nat): Option<Name> {
    if i == 0 then (if n in cfg.certificates then Some(n) else None)
    else
      match Ancestor(cfg, n, i - 1)
      case None => None
      case Some(a) =>
        if a in cfg.certificates && cfg.certificates[a].issuerKind.CertificateKind? && cfg.certificates[a].issuerName in cfg.certificates
        then Some(cfg.certificates[a].issuerName) else None
  }

  /** The issuer links from `n` run into a cycle of at least two Certificates. */
  ghost predicate LeadsIntoCycle(cfg: Config, n: Name) {
    exists i: nat, j: nat :: i < j && OnCycle(cfg, n, i, j)
  }

  predicate OnCycle(cfg: Config, n: Name, i: nat, j: nat) {
    && Ancestor(cfg, n, i).Some? && Ancestor(cfg, n, j) == Ancestor(cfg, n, i)
    && Ancestor(cfg, n, i + 1) != Ancestor(cfg, n, i)
  }

  /** A self-signed Certificate is where the links stop moving. */
  lemma {:induction false} FixedFrom(cfg: Config, n: Name, i: nat, j: nat)
    requires i <= j && Ancestor(cfg, n, i).Some? && Ancestor(cfg, n, i + 1) == Ancestor(cfg, n, i)
    ensures Ancestor(cfg, n, j) == Ancestor(cfg, n, i)
    decreases j
  {
    if i < j {
      FixedFrom(cfg, n, i, j - 1);
    }
  }

  lemma {:induction false} SomeBefore(cfg: Config, n: Name, i: nat, j: nat)
    requires i <= j && Ancestor(cfg, n, j).Some?
    ensures Ancestor(cfg, n, i).Some?
    decreases j
  {
    if i < j {
      SomeBefore(cfg, n, i, j - 1);
    }
  }

  /** As long as the links move, a chain loses one link of length at each of them. */
  lemma {:induction false} ChainShrinks(cfg: Config, w: World, n: Name, k: nat, i: nat)
    requires Chain(cfg, w, n, k)
    requires Ancestor(cfg, n, i).Some?
    requires forall t: nat :: t < i ==> Ancestor(cfg, n, t + 1) != Ancestor(cfg, n, t)
    ensures i <= k && Chain(cfg, w, Ancestor(cfg, n, i).value, k - i)
    decreases i
  {
    if i > 0 {
      ChainShrinks(cfg, w, n, k, i - 1);
      assert Ancestor(cfg, n, (i - 1) + 1) != Ancestor(cfg, n, i - 1);
    }
  }

  lemma {:induction false} AncestorRepeats(cfg: Config, n: Name, i: nat, j: nat, t: nat)
    requires Ancestor(cfg, n, i) == Ancestor(cfg, n, j)
    ensures Ancestor(cfg, n, i + t) == Ancestor(cfg, n, j + t)
    decreases t
  {
    if t > 0 {
      AncestorRepeats(cfg, n, i, j, t - 1);
    }
  }

  /** On a cycle the links keep moving for ever. */
  lemma CycleMoves(cfg: Config, n: Name, i: nat, j: nat, t: nat)
    requires i < j && OnCycle(cfg, n, i, j)
    ensures Ancestor(cfg, n, t).Some? && Ancestor(cfg, n, t + 1) != Ancestor(cfg, n, t)
    decreases t
  {
    if t >= j {
      CycleMoves(cfg, n, i, j, t - (j - i));
      AncestorRepeats(cfg, n, i, j, t - j);
      AncestorRepeats(cfg, n, i, j, t - j + 1);
      assert Ancestor(cfg, n, t) == Ancestor(cfg, n, t - (j - i));
      assert Ancestor(cfg, n, t + 1) == Ancestor(cfg, n, t - (j - i) + 1);
    } else {
      SomeBefore(cfg, n, t, j);
      if Ancestor(cfg, n, t + 1) == Ancestor(cfg, n, t) {
        FixedFrom(cfg, n, t, if t <= i then i else j);
      }
    }
  }

  lemma ChainExcludesCycle(cfg: Config, w: World, n: Name, k: nat)
    requires Chain(cfg, w, n, k)
    ensures !LeadsIntoCycle(cfg, n)
  {
    if LeadsIntoCycle(cfg, n) {
      var i: nat, j: nat :| i < j && OnCycle(cfg, n, i, j);
      forall t: nat ensures Ancestor(cfg, n, t).Some? && Ancestor(cfg, n, t + 1) != Ancestor(cfg, n, t) {
        CycleMoves(cfg, n, i, j, t);
      }
      ChainShrinks(cfg, w, n, k, k + 1);
    }
  }

  /** Main result: no Certificate on an issuer cycle of length two or more, and none whose issuers
      lead into one, is ever issued. */
  lemma CyclesNeverIssued(cfg: Config, actions: seq<Action>, n: Name)
    requires ValidConfig(cfg) && n in cfg.certificates && LeadsIntoCycle(cfg, n)
    ensures CertSecret(n) !in Run(cfg, EMPTY_WORLD, actions).secrets
  {
    hide Run;
    var w := Run(cfg, EMPTY_WORLD, actions);
    IssuedHasChain(cfg, actions, n);
    if CertSecret(n) in w.secrets {
      var k: nat :| Chain(cfg, w, n, k);
      ChainExcludesCycle(cfg, w, n, k);
    }
  }

  // ---------------------------------------------------------------------------------------
  // Published conditions
  // ---------------------------------------------------------------------------------------

  /** In every reachable world the conditions agree with the flags they summarise, for Certificates
      and for ExternalCertificates, and no published status ever says Issuing is True. */
  lemma PublishedConditionsAgree(cfg: Config, actions: seq<Action>, n: Name)
    requires ValidConfig(cfg)
    ensures var w := Run(cfg, EMPTY_WORLD, actions);
            var st := StatusOf(w, n);
            && (Flag(st.conditions, TypeReady).Some? ==>
                  (Flag(st.conditions, TypeReady).value <==>
                     st.keyExists && st.key.secret.Some? && st.certExists && st.cert.secret.Some? && st.cert.valid))
            && (Flag(st.conditions, TypeRenewalRequired).Some? ==>
                  (Flag(st.conditions, TypeRenewalRequired).value <==> st.needsRenewal))
            && Flag(st.conditions, TypeIssuing) != Some(true)
            && (n in w.externals && w.externals[n].Some? ==>
                  Flag(w.externals[n].value.conditions, TypeReady) == Flag(w.externals[n].value.conditions, TypeCertReady))
  {
    hide Run;
    var w := Run(cfg, EMPTY_WORLD, actions);
    ReachableInv(cfg, actions);
    if n in w.certs {
      assert CertOk(cfg, w, n);
    }
  }

  /** The working copy says Issuing is True whenever the pass sets out to issue, so no status that is
      published in any run, by that pass or another, ever carries it. */
  lemma WorkingIsNeverPublished(cfg: Config, actions: seq<Action>, n: Name, spec: CertificateSpec, st: CertificateStatus, now: Time)
    requires ValidConfig(cfg) && st.keyExists && (st.certExists ==> st.needsRenewal)
    ensures Flag(Working(spec, st, now), TypeIssuing) == Some(true)
    ensures StatusOf(Run(cfg, EMPTY_WORLD, actions), n).conditions != Working(spec, st, now)
  {
    hide Run;
    PublishedConditionsAgree(cfg, actions, n);
  }

  // ---------------------------------------------------------------------------------------
  // Two absorbing states
  // ---------------------------------------------------------------------------------------

  /** A key Secret was created but the status that records it never was. */
  predicate Orphaned(w: World, n: Name) {
    n in w.certs && n !in w.passes && KeySecret(n) in w.secrets && !StatusOf(w, n).keyExists
  }

  /** A pass on a Certificate without a recorded key fails exactly when its key Secret is orphaned,
      and then it changes nothing. */
  lemma OrphanedPassFails(cfg: Config, w: World, n: Name, d: nat)
    requires n in cfg.certificates && n in w.certs && n !in w.passes && !StatusOf(w, n).keyExists
    ensures Begin(cfg, w, n, d).Fail? <==> Orphaned(w, n)
    ensures Orphaned(w, n) ==> Step(cfg, w, BeginPass(n, d)) == w
  {
    assert w.passes - {n} == w.passes;
  }

  /** The certificate has expired and no pass flagged its renewal before it did; or no pass ever can, because
      the time to renew before is out of range. */
  predicate Lost(cfg: Config, w: World, n: Name) {
    var st := StatusOf(w, n);
    && n in cfg.certificates && n in w.certs && n !in w.passes
    && st.keyExists && st.certExists && !st.needsRenewal
    && st.cert.validUntil.Some? && (st.cert.validUntil.value < w.clock || Before(cfg.certificates[n]).None?)
  }

  lemma LostPassFails(cfg: Config, w: World, n: Name, d: nat)
    requires Lost(cfg, w, n)
    ensures Begin(cfg, w, n, d) == Fail(d)
  {
  }

  /** Nothing of what concerns `n` has changed but the time, and no pass on it has started. */
  predicate Unmoved(w: World, w': World, n: Name) {
    && n in w.certs && n in w'.certs && w'.certs[n] == w.certs[n] && w.clock <= w'.clock && Log(w', n) == Log(w, n)
    && (n in w'.passes ==> n in w.passes)
    && (KeySecret(n) in w.secrets ==> KeySecret(n) in w'.secrets)
    && ReadKey(w', KeySecret(n)) == ReadKey(w, KeySecret(n))
    && ReadCert(w', CertSecret(n)) == ReadCert(w, CertSecret(n))
  }

  lemma AbsorbingStep(cfg: Config, w: World, a: Action, n: Name)
    requires ValidConfig(cfg) && n in cfg.certificates && (Orphaned(w, n) || Lost(cfg, w, n))
    ensures var w' := Step(cfg, w, a);
            Unmoved(w, w', n) && (Orphaned(w, n) ==> Orphaned(w', n)) && (Lost(cfg, w, n) ==> Lost(cfg, w', n))
  {
    var w' := Step(cfg, w, a);
    assert Unmoved(w, w', n) by {
      hide ReadKey, ReadCert, Apply;
      if a.BeginPass? && a.n == n {
        if Lost(cfg, w, n) { LostPassFails(cfg, w, n, a.d); FailedOnly(w, n, a.d); } else { OrphanedPassFails(cfg, w, n, a.d); }
      } else {
        StepElsewhere(cfg, w, a, n);
      }
    }
    hide Step, ReadKey, ReadCert;
  }

  lemma FailedOnly(w: World, n: Name, d: nat)
    requires n in w.certs
    ensures Unmoved(w, Apply(w, n, Fail(d)), n)
  {
  }

  lemma StepElsewhere(cfg: Config, w: World, a: Action, n: Name)
    requires ValidConfig(cfg) && n in cfg.certificates && n in w.certs && n !in w.passes
    requires a.BeginPass? ==> a.n != n
    ensures Unmoved(w, Step(cfg, w, a), n)
  {
    hide Begin, Continue, Apply, Unmoved;
    match a {
      case BeginPass(m, d) =>
        if m in cfg.certificates && m in w.certs && m !in w.passes { ApplyElsewhere(cfg, w, m, Begin(cfg, w, m, d), n); }
        else { SameSecretsUnmoved(w, w, n); }
      case ContinuePass(m, d) =>
        if m in cfg.certificates && m in w.passes { ApplyElsewhere(cfg, w, m, Continue(cfg, w, m, d), n); }
        else { SameSecretsUnmoved(w, w, n); }
      case _ => OtherElsewhere(cfg, w, a, n);
    }
  }

  lemma OtherElsewhere(cfg: Config, w: World, a: Action, n: Name)
    requires ValidConfig(cfg) && n in cfg.certificates && n in w.certs && n !in w.passes
    requires !a.BeginPass? && !a.ContinuePass?
    ensures Unmoved(w, Step(cfg, w, a), n)
  {
    hide Unmoved;
    if a.WriteSecret? || a.DeleteSecret? {
      UserSecretUnmoved(cfg, w, a, n);
    } else {
      OtherParts(cfg, w, a, n);
      hide Step;
      SameSecretsUnmoved(w, Step(cfg, w, a), n);
    }
  }

  /** What steps leave alone that are neither of passes on Certificates nor of Secrets. */
  lemma OtherParts(cfg: Config, w: World, a: Action, n: Name)
    requires !a.BeginPass? && !a.ContinuePass? && !a.WriteSecret? && !a.DeleteSecret?
    ensures var w' := Step(cfg, w, a);
            && w'.secrets == w.secrets && w'.log == w.log && w'.nextKey == w.nextKey && w.clock <= w'.clock
            && (n in w'.passes ==> n in w.passes && w'.passes[n] == w.passes[n])
            && (n in w.certs ==> n in w'.certs && w'.certs[n] == w.certs[n])
  {
    hide Observed;
  }

  lemma UserSecretUnmoved(cfg: Config, w: World, a: Action, n: Name)
    requires ValidConfig(cfg) && n in cfg.certificates && n in w.certs && (a.WriteSecret? || a.DeleteSecret?)
    ensures Unmoved(w, Step(cfg, w, a), n)
  {
    if a.s in cfg.userSecrets {
      assert a.s != KeySecret(n) && a.s != CertSecret(n);
      if a.WriteSecret? { OtherSecretUnmoved(w, w.secrets[a.s := a.secret], n); } else { OtherSecretUnmoved(w, w.secrets - {a.s}, n); }
    }
  }

  lemma OtherSecretUnmoved(w: World, secrets: map<SecretName, Secret>, n: Name)
    requires n in w.certs
    requires forall s :: s == KeySecret(n) || s == CertSecret(n) ==>
               (s in secrets <==> s in w.secrets) && (s in secrets ==> secrets[s] == w.secrets[s])
    ensures Unmoved(w, w.(secrets := secrets), n)
  {
  }

  lemma SameSecretsUnmoved(w: World, w': World, n: Name)
    requires n in w.certs && n in w'.certs && w'.certs[n] == w.certs[n] && w.clock <= w'.clock
    requires w'.secrets == w.secrets && n !in w'.passes && w'.log == w.log
    ensures Unmoved(w, w', n)
  {
  }

  lemma ApplyElsewhere(cfg: Config, w: World, m: Name, e: Effect, n: Name)
    requires m != n && n in w.certs
    ensures Unmoved(w, Apply(w, m, e), n) && (n in w.passes ==> n in Apply(w, m, e).passes)
  {
  }

  /** Main result: both states absorb every run. The orphaned Certificate is never issued and the
      lost one is never reissued, whatever happens around them. */
  lemma {:induction false} AbsorbingRun(cfg: Config, w: World, actions: seq<Action>, n: Name)
    requires ValidConfig(cfg) && n in cfg.certificates && (Orphaned(w, n) || Lost(cfg, w, n))
    ensures var w' := Run(cfg, w, actions);
            && (Orphaned(w, n) ==> Orphaned(w', n)) && (Lost(cfg, w, n) ==> Lost(cfg, w', n))
            && w'.certs[n] == w.certs[n] && Log(w', n) == Log(w, n)
            && ReadKey(w', KeySecret(n)) == ReadKey(w, KeySecret(n))
            && ReadCert(w', CertSecret(n)) == ReadCert(w, CertSecret(n))
    decreases |actions|
  {
    hide Step, ReadKey, ReadCert;
    if actions != [] {
      AbsorbingStep(cfg, w, actions[0], n);
      AbsorbingRun(cfg, Step(cfg, w, actions[0]), actions[1..], n);
    }
  }

  /** A crash between the two writes of a key-creating pass leaves an orphan. */
  lemma CrashOrphans(cfg: Config, w: World, n: Name, d: nat)
    requires n in cfg.certificates && n in w.certs && n !in w.passes && !StatusOf(w, n).keyExists && KeySecret(n) !in w.secrets
    ensures Orphaned(Step(cfg, Step(cfg, w, BeginPass(n, d)), Crash(n)), n)
  {
  }

  /** Three steps from nothing reach it, for any Certificate. */
  lemma OrphanReachable(cfg: Config, n: Name)
    requires ValidConfig(cfg) && n in cfg.certificates
    ensures Orphaned(Run(cfg, EMPTY_WORLD, [CreateCertificate(n), BeginPass(n, 0), Crash(n)]), n)
  {
    var actions := [CreateCertificate(n), BeginPass(n, 0), Crash(n)];
    var w := Step(cfg, EMPTY_WORLD, actions[0]);
    CrashOrphans(cfg, w, n, 0);
    hide Step;
    assert actions[1..] == [BeginPass(n, 0), Crash(n)] && actions[1..][1..] == [Crash(n)];
    var w2 := Step(cfg, w, BeginPass(n, 0));
    assert Run(cfg, w2, [Crash(n)]) == Run(cfg, Step(cfg, w2, Crash(n)), [Crash(n)][1..]);
    assert Run(cfg, w, actions[1..]) == Run(cfg, w2, [Crash(n)]);
    assert Run(cfg, EMPTY_WORLD, actions) == Run(cfg, w, actions[1..]);
  }

  lemma OrphanNeedsStop(cfg: Config, w: World, i: Name, e: Effect, n: Name)
    requires ValidConfig(cfg) && CertsOk(cfg, w) && EffectOk(cfg, w, i, e)
    requires !Orphaned(w, n) && Orphaned(Apply(w, i, e), n)
    ensures i == n && e.Fail? && !StatusOf(w, n).keyExists
  {
    hide FlagsOk, IssuerOk, RefOk, SealOk, SignerOk;
    if i != n && n in w.certs {
      ApplyElsewhere(cfg, w, i, e, n);
    }
  }

  /** And nothing else does: an orphan only ever comes from a crash after the key Secret was created
      and before the status that records it was patched. */
  lemma OrphanOnlyFromCrash(cfg: Config, w: World, a: Action, n: Name)
    requires ValidConfig(cfg) && Inv(cfg, w)
    requires n in w.certs && !Orphaned(w, n) && Orphaned(Step(cfg, w, a), n)
    ensures a == Crash(n) && n in w.passes && w.passes[n].Publishing? && w.passes[n].st.keyExists && !StatusOf(w, n).keyExists
  {
    hide Begin, Continue, Apply, EffectOk, CertsOk, SecretsOk, PassesOk, KeysDistinct, ExternalsOk, FlagsOk, IssuerOk, RefOk, Observed;
    CertsHold(cfg, w, n);
    match a {
      case BeginPass(i, d) =>
        CertsHold(cfg, w, i);
        BeginOk(cfg, w, i, d);
        OrphanNeedsStop(cfg, w, i, Begin(cfg, w, i, d), n);
        OrphanedPassFails(cfg, w, n, d);
      case ContinuePass(i, d) =>
        ContinueOk(cfg, w, i, d);
        OrphanNeedsStop(cfg, w, i, Continue(cfg, w, i, d), n);
        PassesHold(cfg, w, n);
        PublishingNeverFails(cfg, w, n, d);
      case Crash(i) =>
        if n in w.passes { PassesHold(cfg, w, n); }
      case _ =>
    }
  }

  lemma PublishingNeverFails(cfg: Config, w: World, n: Name, d: nat)
    requires n in cfg.certificates && n in w.passes && PassOk(cfg, w, n, w.passes[n]) && !StatusOf(w, n).keyExists
    ensures w.passes[n].Publishing? && !Continue(cfg, w, n, d).Fail?
  {
    hide FlagsOk, IssuerOk, RefOk, SealOk, SignerOk, Resolve, WithCert;
  }

  // ---------------------------------------------------------------------------------------
  // Validation and the wake-up it schedules
  // ---------------------------------------------------------------------------------------

  /** A pass that finds a certificate not yet flagged for renewal, begun at the current clock and
      validating `d` later: what it publishes, exactly, and when it fails. */
  lemma ValidatingPass(cfg: Config, w: World, n: Name, d: nat)
    requires n in w.certs && CertOk(cfg, w, n)
    requires StatusOf(w, n).keyExists && StatusOf(w, n).certExists && !StatusOf(w, n).needsRenewal
    ensures var st := StatusOf(w, n);
            var e := Begin(cfg, w, n, d);
            var until := st.cert.validUntil.value;
            var before := Before(cfg.certificates[n]);
            && (e.Fail? <==> until < w.clock || before.None?)
            && (!e.Fail? ==>
                  && e.Proceed? && e.next.Publishing? && e.next.recorded.None?
                  && (e.next.st.cert.valid <==> until > w.clock + d)
                  && (e.next.st.needsRenewal <==> until - before.value <= w.clock + d)
                  && e.next.st == st.(cert := st.cert.(valid := e.next.st.cert.valid),
                                      needsRenewal := e.next.st.needsRenewal, conditions := e.next.st.conditions))
  {
  }
}
