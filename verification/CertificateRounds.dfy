/** Rounds of uninterrupted passes issue every certificate whose issuers end at a root, unless a
    key on the way was orphaned by an earlier crash. */
module CertificateRounds {
  import opened Wrappers
  import opened Conditions
  import opened CertificateTypes
  import opened CertificateWorld
  import opened CertificateSafety
  import opened CertificateTheorems
  import opened CertificateProgress

  /** One uninterrupted pass on `n`, some time after what came before it. */
  datatype Visit = Visit(n: Name, wait: nat, d: nat)

  function VisitActions(v: Visit): seq<Action> {
    [Tick(v.wait)] + PassActions(v.n, v.d)
  }

  function Actions(visits: seq<Visit>): seq<Action> {
    if visits == [] then [] else VisitActions(visits[0]) + Actions(visits[1..])
  }

  /** A round passes over every Certificate at least once, in any order. */
  ghost predicate Covers(cfg: Config, visits: seq<Visit>) {
    && (forall i :: 0 <= i < |visits| ==> visits[i].n in cfg.certificates)
    && (forall n :: n in cfg.certificates ==> exists i :: 0 <= i < |visits| && visits[i].n == n)
  }

  /** Every Certificate exists and no pass is in flight. */
  ghost predicate Settled(cfg: Config, w: World) {
    && Inv(cfg, w)
    && w.passes == map[]
    && (forall n :: n in cfg.certificates ==> n in w.certs)
  }

  /** An ExternalCertificate that is published as able to sign, and whose Secret is there. */
  predicate ExternalReady(cfg: Config, w: World, e: Name) {
    && e in cfg.externals && e in w.externals && w.externals[e].Some?
    && var st := w.externals[e].value;
       var s := cfg.externals[e].secretName;
       && st.keyExists && st.key.secret == Some(s) && st.certExists && st.cert.secret == Some(s)
       && s in cfg.userSecrets && ReadKey(w, s).Some? && ReadCert(w, s).Some?
  }

  /** The issuer of `n` can sign for it now. */
  predicate CanBeSigned(cfg: Config, w: World, n: Name)
    requires n in cfg.certificates
  {
    var m := cfg.certificates[n].issuerName;
    match cfg.certificates[n].issuerKind
    case CertificateKind => m == n || (m in cfg.certificates && StatusOf(w, m).certExists)
    case ExternalKind => ExternalReady(cfg, w, m)
    case OtherKind(_) => false
  }

  /** What one whole pass leaves alone. */
  ghost predicate Apart(cfg: Config, w: World, w': World, n: Name) {
    && w'.passes == w.passes && w'.externals == w.externals
    && (forall m :: m in w.certs <==> m in w'.certs)
    && (forall m :: m != n ==> StatusOf(w', m) == StatusOf(w, m))
    && (forall m :: m != n ==> (KeySecret(m) in w'.secrets <==> KeySecret(m) in w.secrets))
    && (forall s :: s in cfg.userSecrets ==> ReadKey(w', s) == ReadKey(w, s) && ReadCert(w', s) == ReadCert(w, s))
  }

  lemma SettleApart(cfg: Config, w: World, n: Name, o: Outcome)
    requires ValidConfig(cfg) && n in cfg.certificates && n in w.certs && w.passes == map[]
    ensures Apart(cfg, w, Settle(w, n, o), n)
  {
    assert w.passes - {n} == w.passes;
  }

  lemma PassMakesKey(cfg: Config, w: World, n: Name, d: nat)
    requires n in cfg.certificates && !StatusOf(w, n).keyExists && KeySecret(n) !in w.secrets
    ensures StatusOf(Settle(w, n, WholePass(cfg, w, n, d)), n).keyExists
  {
    hide Validated, IssuingPass, PutBool;
  }

  /** A pass with a key and a ready issuer issues, or reissues, the certificate. */
  lemma PassIssues(cfg: Config, w: World, n: Name, d: nat)
    requires ValidConfig(cfg) && Inv(cfg, w) && n in cfg.certificates
    requires forall m :: m in cfg.certificates ==> m in w.certs
    requires StatusOf(w, n).keyExists && (StatusOf(w, n).certExists ==> StatusOf(w, n).needsRenewal)
    requires CanBeSigned(cfg, w, n)
    ensures var o := WholePass(cfg, w, n, d);
            o.NewCert? && o.st.certExists && !o.st.needsRenewal && o.st.cert.valid && o.secret.cert.Some?
  {
    hide WithCert, Issue, PutBool, ExternalsOk, PassesOk, SecretsOk, KeysDistinct, FlagsOk, WithCertificateIssuer, WithExternalIssuer;
    var base := StatusOf(w, n);
    var m := cfg.certificates[n].issuerName;
    CertsHold(cfg, w, n);
    if cfg.certificates[n].issuerKind.CertificateKind? {
      CertsHold(cfg, w, m);
      StoredCert(cfg, w, m);
      assert w.certs[m].Some?;
    }
    match Resolve(cfg, w, n, base) {
      case Ready(st, ref) => IssueSucceeds(cfg, w, n, base, st, ref, d);
    }
  }

  lemma IssueSucceeds(cfg: Config, w: World, n: Name, base: CertificateStatus, st: CertificateStatus, ref: SignerRef, d: nat)
    requires n in cfg.certificates && KeyOf(w, n).Some? && base.key.secret == Some(KeySecret(n))
    requires ReadKey(w, ref.keySecret).Some?
    requires if ref.certSecret.Some? then ReadCert(w, ref.certSecret.value).Some? else ref.selfSigned
    ensures var o := Issue(cfg.certificates[n], w, n, base, st, ref, d);
            o.NewCert? && o.st.certExists && !o.st.needsRenewal && o.st.cert.valid && o.secret.cert.Some?
  {
    hide PutBool, Trunc, Interval;
  }

  lemma StoredCert(cfg: Config, w: World, m: Name)
    requires ValidConfig(cfg) && SecretsOk(cfg, w) && m in cfg.certificates
    ensures CertSecret(m) in w.secrets ==> ReadCert(w, CertSecret(m)).Some?
  {
    if CertSecret(m) in w.secrets {
      assert SecretOk(cfg, w, CertSecret(m));
    }
  }

  // ---------------------------------------------------------------------------------------
  // One visit
  // ---------------------------------------------------------------------------------------

  function After(cfg: Config, w: World, v: Visit): World {
    Run(cfg, w, VisitActions(v))
  }

  lemma VisitIsPass(cfg: Config, w: World, v: Visit)
    requires v.n in cfg.certificates && v.n in w.certs && v.n !in w.passes
    ensures var w1 := w.(clock := w.clock + v.wait);
            After(cfg, w, v) == Settle(w1, v.n, WholePass(cfg, w1, v.n, v.d))
  {
    hide WholePass, Settle;
    assert VisitActions(v)[1..] == PassActions(v.n, v.d);
    WholePassIsRun(cfg, w.(clock := w.clock + v.wait), v.n, v.d);
  }

  /** No key of `n` is stored without being recorded. */
  predicate Sound(w: World, n: Name) {
    StatusOf(w, n).keyExists || KeySecret(n) !in w.secrets
  }

  lemma VisitKeeps(cfg: Config, w: World, v: Visit)
    requires ValidConfig(cfg) && Settled(cfg, w) && v.n in cfg.certificates
    ensures var w' := After(cfg, w, v);
            Settled(cfg, w') && Grows(cfg, w, w') && Apart(cfg, w, w', v.n)
  {
    hide WholePass, Settle, Inv, Grows, Run;
    RunInv(cfg, w, VisitActions(v));
    RunGrows(cfg, w, VisitActions(v));
    VisitIsPass(cfg, w, v);
    var w1 := w.(clock := w.clock + v.wait);
    SettleApart(cfg, w1, v.n, WholePass(cfg, w1, v.n, v.d));
  }

  lemma VisitMakesKey(cfg: Config, w: World, v: Visit)
    requires ValidConfig(cfg) && Settled(cfg, w) && v.n in cfg.certificates && Sound(w, v.n)
    ensures StatusOf(After(cfg, w, v), v.n).keyExists
  {
    hide WholePass, Settle, Inv, After, Grows, Apart;
    if StatusOf(w, v.n).keyExists {
      VisitKeeps(cfg, w, v);
      CertStays(cfg, w, After(cfg, w, v), v.n);
    } else {
      VisitIsPass(cfg, w, v);
      PassMakesKey(cfg, w.(clock := w.clock + v.wait), v.n, v.d);
    }
  }

  lemma TickInv(cfg: Config, w: World, d: nat)
    requires ValidConfig(cfg) && Inv(cfg, w)
    ensures Inv(cfg, w.(clock := w.clock + d)) && CertsOk(cfg, w.(clock := w.clock + d))
  {
    hide CertsOk, PassesOk, SecretsOk, KeysDistinct, ExternalsOk;
    StepInv(cfg, w, Tick(d));
  }

  lemma VisitIssues(cfg: Config, w: World, v: Visit)
    requires ValidConfig(cfg) && Settled(cfg, w) && v.n in cfg.certificates
    requires StatusOf(w, v.n).keyExists && CanBeSigned(cfg, w, v.n)
    ensures StatusOf(After(cfg, w, v), v.n).certExists
  {
    hide WholePass, Inv, After, Grows, Apart, CanBeSigned, Settle;
    var n := v.n;
    if StatusOf(w, n).certExists {
      VisitKeeps(cfg, w, v);
      CertStays(cfg, w, After(cfg, w, v), n);
    } else {
      FirstVisit(cfg, w, v);
    }
  }

  lemma FirstVisit(cfg: Config, w: World, v: Visit)
    requires ValidConfig(cfg) && Settled(cfg, w) && v.n in cfg.certificates
    requires StatusOf(w, v.n).keyExists && !StatusOf(w, v.n).certExists && CanBeSigned(cfg, w, v.n)
    ensures StatusOf(After(cfg, w, v), v.n).certExists
  {
    hide WholePass, Inv, After, CanBeSigned, Settle;
    var w1 := w.(clock := w.clock + v.wait);
    VisitIsPass(cfg, w, v);
    TickInv(cfg, w, v.wait);
    TickSigns(cfg, w, v.n, v.wait);
    PassIssues(cfg, w1, v.n, v.d);
    hide StatusOf;
    SettledCert(w1, v.n, WholePass(cfg, w1, v.n, v.d));
  }

  lemma TickSigns(cfg: Config, w: World, n: Name, d: nat)
    requires n in cfg.certificates && CanBeSigned(cfg, w, n)
    ensures CanBeSigned(cfg, w.(clock := w.clock + d), n)
  {
  }

  lemma SettledCert(w: World, n: Name, o: Outcome)
    requires o.NewCert? && o.st.certExists
    ensures StatusOf(Settle(w, n, o), n).certExists
  {
  }

  lemma CertStays(cfg: Config, w: World, w': World, n: Name)
    requires Grows(cfg, w, w') && n in w.certs
    ensures StatusOf(w, n).certExists ==> StatusOf(w', n).certExists
    ensures StatusOf(w, n).keyExists ==> StatusOf(w', n).keyExists
  {
  }

  lemma SignableStays(cfg: Config, w: World, w': World, n: Name, m: Name)
    requires n in cfg.certificates && Grows(cfg, w, w') && Apart(cfg, w, w', m) && CanBeSigned(cfg, w, n)
    requires forall i :: i in cfg.certificates ==> i in w.certs
    ensures CanBeSigned(cfg, w', n)
  {
  }

  // ---------------------------------------------------------------------------------------
  // Rounds
  // ---------------------------------------------------------------------------------------

  lemma {:induction false} VisitsKeep(cfg: Config, w: World, visits: seq<Visit>)
    requires ValidConfig(cfg) && Settled(cfg, w)
    requires forall i :: 0 <= i < |visits| ==> visits[i].n in cfg.certificates
    ensures var w' := Run(cfg, w, Actions(visits));
            && Settled(cfg, w') && Grows(cfg, w, w')
            && (forall n :: n in cfg.certificates && Sound(w, n) ==> Sound(w', n))
            && (forall n :: n in cfg.certificates && CanBeSigned(cfg, w, n) ==> CanBeSigned(cfg, w', n))
    decreases |visits|
  {
    hide Inv, Grows, Apart, CanBeSigned;
    if visits == [] {
      StoreKept(cfg, w, w);
    } else {
      var v := visits[0];
      var w1 := After(cfg, w, v);
      RunSplit(cfg, w, VisitActions(v), Actions(visits[1..]));
      VisitKeeps(cfg, w, v);
      VisitsKeep(cfg, w1, visits[1..]);
      GrowsTransitive(cfg, w, w1, Run(cfg, w, Actions(visits)));
      forall n | n in cfg.certificates && Sound(w, n) ensures Sound(w1, n) {
        if n == v.n { VisitMakesKey(cfg, w, v); } else { SoundStays(cfg, w, w1, n, v.n); }
      }
      forall n | n in cfg.certificates && CanBeSigned(cfg, w, n) ensures CanBeSigned(cfg, w1, n) {
        SignableStays(cfg, w, w1, n, v.n);
      }
    }
  }

  lemma SoundStays(cfg: Config, w: World, w': World, n: Name, m: Name)
    requires Apart(cfg, w, w', m) && n != m && Sound(w, n)
    ensures Sound(w', n)
  {
  }

  lemma GrowsTransitive(cfg: Config, a: World, b: World, c: World)
    requires Grows(cfg, a, b) && Grows(cfg, b, c)
    ensures Grows(cfg, a, c)
  {
  }

  /** One round gives every sound Certificate its key, and its certificate if it had its key and its
      issuer could sign when the round began. */
  lemma {:induction false} RoundWorks(cfg: Config, w: World, visits: seq<Visit>, n: Name)
    requires ValidConfig(cfg) && Settled(cfg, w) && n in cfg.certificates && Sound(w, n)
    requires forall i :: 0 <= i < |visits| ==> visits[i].n in cfg.certificates
    requires exists i :: 0 <= i < |visits| && visits[i].n == n
    ensures var w' := Run(cfg, w, Actions(visits));
            && StatusOf(w', n).keyExists
            && (StatusOf(w, n).keyExists && CanBeSigned(cfg, w, n) ==> StatusOf(w', n).certExists)
    decreases |visits|
  {
    hide Inv, Grows, Apart, CanBeSigned;
    var v := visits[0];
    var w1 := After(cfg, w, v);
    var w' := Run(cfg, w, Actions(visits));
    RunSplit(cfg, w, VisitActions(v), Actions(visits[1..]));
    VisitKeeps(cfg, w, v);
    if v.n == n {
      VisitMakesKey(cfg, w, v);
      if StatusOf(w, n).keyExists && CanBeSigned(cfg, w, n) {
        VisitIssues(cfg, w, v);
      }
      VisitsKeep(cfg, w1, visits[1..]);
      CertStays(cfg, w1, w', n);
    } else {
      SoundStays(cfg, w, w1, n, v.n);
      if CanBeSigned(cfg, w, n) { SignableStays(cfg, w, w1, n, v.n); }
      CertStays(cfg, w, w1, n);
      RoundWorks(cfg, w1, visits[1..], n);
    }
  }

  function Rounds(rounds: seq<seq<Visit>>): seq<Action> {
    if rounds == [] then [] else Rounds(rounds[..|rounds| - 1]) + Actions(rounds[|rounds| - 1])
  }

  /** The issuers of `n` end, within `k` links between Certificates, at one that signs itself or at
      an ExternalCertificate that is ready. */
  predicate Rooted(cfg: Config, w: World, n: Name, k: nat)
    decreases k
  {
    && n in cfg.certificates
    && var m := cfg.certificates[n].issuerName;
       match cfg.certificates[n].issuerKind
       case CertificateKind => m == n || (k > 0 && Rooted(cfg, w, m, k - 1))
       case ExternalKind => ExternalReady(cfg, w, m)
       case OtherKind(_) => false
  }

  /** No key is orphaned from `n` up to the root. */
  predicate CleanTo(cfg: Config, w: World, n: Name, k: nat)
    decreases k
  {
    && Sound(w, n)
    && (k > 0 && n in cfg.certificates && cfg.certificates[n].issuerKind.CertificateKind? ==>
          (cfg.certificates[n].issuerName == n || CleanTo(cfg, w, cfg.certificates[n].issuerName, k - 1)))
  }

  ghost predicate AllRounds(cfg: Config, rounds: seq<seq<Visit>>) {
    forall i :: 0 <= i < |rounds| ==> Covers(cfg, rounds[i])
  }

  lemma {:induction false} RoundsKeep(cfg: Config, w: World, rounds: seq<seq<Visit>>)
    requires ValidConfig(cfg) && Settled(cfg, w) && AllRounds(cfg, rounds)
    ensures var w' := Run(cfg, w, Rounds(rounds));
            && Settled(cfg, w') && Grows(cfg, w, w')
            && (forall n :: n in cfg.certificates && Sound(w, n) ==> Sound(w', n))
            && (forall n :: n in cfg.certificates && CanBeSigned(cfg, w, n) ==> CanBeSigned(cfg, w', n))
    decreases |rounds|
  {
    hide Inv, Grows, Apart, CanBeSigned, Sound, Settled;
    if rounds == [] {
      StoreKept(cfg, w, w);
    } else {
      var before := rounds[..|rounds| - 1];
      RunSplit(cfg, w, Rounds(before), Actions(rounds[|rounds| - 1]));
      RoundsKeep(cfg, w, before);
      assert Covers(cfg, rounds[|rounds| - 1]);
      VisitsKeep(cfg, Run(cfg, w, Rounds(before)), rounds[|rounds| - 1]);
      GrowsTransitive(cfg, w, Run(cfg, w, Rounds(before)), Run(cfg, w, Rounds(rounds)));
    }
  }

  /** Main result, first half: k + 2 rounds, in any order within each, are enough. */
  lemma {:induction false} RoundsIssue(cfg: Config, w: World, rounds: seq<seq<Visit>>, n: Name, k: nat)
    requires ValidConfig(cfg) && Settled(cfg, w) && AllRounds(cfg, rounds)
    requires Rooted(cfg, w, n, k) && CleanTo(cfg, w, n, k)
    ensures |rounds| >= 1 ==> StatusOf(Run(cfg, w, Rounds(rounds)), n).keyExists
    ensures |rounds| >= k + 2 ==> StatusOf(Run(cfg, w, Rounds(rounds)), n).certExists
    decreases k, |rounds|
  {
    hide Inv, Grows, Apart, Settled, ExternalReady, Run, CanBeSigned;
    if |rounds| >= 1 {
      var before := rounds[..|rounds| - 1];
      var last := rounds[|rounds| - 1];
      var w1 := Run(cfg, w, Rounds(before));
      RunSplit(cfg, w, Rounds(before), Actions(last));
      RoundsKeep(cfg, w, before);
      assert Covers(cfg, last);
      RoundsIssue(cfg, w, before, n, k);
      if |rounds| >= k + 2 {
        var m := cfg.certificates[n].issuerName;
        if cfg.certificates[n].issuerKind.CertificateKind? && m != n {
          RoundsIssue(cfg, w, before, m, k - 1);
        }
        RootSigns(cfg, w, w1, n, k);
      }
      RoundWorks(cfg, w1, last, n);
    }
  }

  /** The issuer of a rooted Certificate can sign once it is issued itself; a root can to begin with. */
  lemma RootSigns(cfg: Config, w: World, w1: World, n: Name, k: nat)
    requires Rooted(cfg, w, n, k) && (CanBeSigned(cfg, w, n) ==> CanBeSigned(cfg, w1, n))
    requires Settled(cfg, w1)
    requires var m := cfg.certificates[n].issuerName;
             cfg.certificates[n].issuerKind.CertificateKind? && m != n ==> StatusOf(w1, m).keyExists && StatusOf(w1, m).certExists
    ensures CanBeSigned(cfg, w1, n)
  {
    hide Inv, ExternalReady;
  }

  /** A chain of issued certificates has no orphaned key, in this world or an earlier one. */
  lemma {:induction false} ChainIsClean(cfg: Config, w: World, w': World, n: Name, j: nat, k: nat)
    requires Inv(cfg, w') && Chain(cfg, w', n, j) && StatusOf(w', n).certExists
    requires forall m :: m in cfg.certificates && !Sound(w, m) ==> !StatusOf(w', m).keyExists
    ensures CleanTo(cfg, w, n, k)
    decreases j, k
  {
    hide SecretsOk, PassesOk, KeysDistinct, ExternalsOk, Sound, FlagsOk;
    assert CertOk(cfg, w', n);
    var m := cfg.certificates[n].issuerName;
    if k > 0 && cfg.certificates[n].issuerKind.CertificateKind? && m != n {
      ChainIsClean(cfg, w, w', m, j - 1, k - 1);
    }
  }

  /** Main result: after k + 2 rounds or more a Certificate whose issuers end at a root within k links
      is issued if and only if no key on the way was orphaned to begin with. */
  lemma RoundsIssueExactly(cfg: Config, w: World, rounds: seq<seq<Visit>>, n: Name, k: nat)
    requires ValidConfig(cfg) && Settled(cfg, w) && AllChained(cfg, w) && AllRounds(cfg, rounds)
    requires Rooted(cfg, w, n, k) && |rounds| >= k + 2
    ensures StatusOf(Run(cfg, w, Rounds(rounds)), n).certExists <==> CleanTo(cfg, w, n, k)
  {
    hide SecretsOk, PassesOk, KeysDistinct, ExternalsOk, FlagsOk, Grows, Run, Rooted, CleanTo, AllRounds;
    var w' := Run(cfg, w, Rounds(rounds));
    if CleanTo(cfg, w, n, k) {
      RoundsIssue(cfg, w, rounds, n, k);
    }
    if StatusOf(w', n).certExists {
      RunChained(cfg, w, Rounds(rounds));
      RunInv(cfg, w, Rounds(rounds));
      RootedCertificate(cfg, w, n, k);
      RunKeeps(cfg, w, Rounds(rounds), n);
      CertsHold(cfg, w', n);
      var j: nat :| Chain(cfg, w', n, j);
      forall m | m in cfg.certificates && !Sound(w, m) ensures !StatusOf(w', m).keyExists {
        AbsorbingRun(cfg, w, Rounds(rounds), m);
      }
      ChainIsClean(cfg, w, w', n, j, k);
    }
  }

  lemma RootedCertificate(cfg: Config, w: World, n: Name, k: nat)
    requires Rooted(cfg, w, n, k)
    ensures n in cfg.certificates
  {
  }

  lemma RunKeeps(cfg: Config, w: World, actions: seq<Action>, n: Name)
    requires ValidConfig(cfg) && Inv(cfg, w) && n in w.certs
    ensures n in Run(cfg, w, actions).certs
  {
    hide Inv;
    RunGrows(cfg, w, actions);
  }
}
