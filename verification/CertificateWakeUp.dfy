/** The controller left to its own wake-ups: a pass that validates a certificate sleeps until it expires, so
    whether the certificate is ever renewed hangs on the first validation and on one instant. */
module CertificateWakeUp {
  import opened Wrappers
  import opened Conditions
  import opened CertificateTypes
  import opened CertificateWorld
  import opened CertificateSafety
  import opened CertificateTheorems
  import opened CertificateProgress
  import opened CertificateRounds

  /** The certificate of `n` is issued and not flagged for renewal, and no pass on it is in flight. */
  predicate Issued(cfg: Config, w: World, n: Name) {
    var st := StatusOf(w, n);
    && n in cfg.certificates && n in w.certs && n !in w.passes
    && st.keyExists && st.certExists && !st.needsRenewal && st.cert.validUntil.Some?
  }

  function Expiry(w: World, n: Name): Time
    requires StatusOf(w, n).cert.validUntil.Some?
  {
    StatusOf(w, n).cert.validUntil.value
  }

  /** A pass that begins at `start` and validates `d` later does so before expiry and in the renewal window. */
  predicate InWindow(spec: CertificateSpec, until: Time, start: Time, d: nat) {
    Before(spec).Some? && start <= until && until - Before(spec).value <= start + d
  }

  /** When a pass asks to be run again, as an absolute time; None when it fails. */
  function WakeUp(cfg: Config, w: World, n: Name, d: nat): Option<Time>
    requires n in cfg.certificates
  {
    var st := StatusOf(w, n);
    if Begin(cfg, w, n, d).Fail? then None
    else if st.keyExists && st.certExists && !st.needsRenewal && st.cert.validUntil.Some? then st.cert.validUntil
    else Some(w.clock + 5 * SECOND)
  }

  // ---------------------------------------------------------------------------------------
  // Between the passes on one Certificate
  // ---------------------------------------------------------------------------------------

  /** Anything but the start of a pass on `n`. */
  predicate Elsewhere(actions: seq<Action>, n: Name) {
    forall a :: a in actions && a.BeginPass? ==> a.n != n
  }

  lemma {:induction false} IdleRun(cfg: Config, w: World, actions: seq<Action>, n: Name)
    requires ValidConfig(cfg) && n in cfg.certificates && n in w.certs && n !in w.passes && Elsewhere(actions, n)
    ensures var w' := Run(cfg, w, actions);
            && n in w'.certs && w'.certs[n] == w.certs[n] && n !in w'.passes
            && Log(w', n) == Log(w, n) && w.clock <= w'.clock
    decreases |actions|
  {
    hide Step, ReadKey, ReadCert;
    if actions != [] {
      StepElsewhere(cfg, w, actions[0], n);
      IdleRun(cfg, Step(cfg, w, actions[0]), actions[1..], n);
    }
  }

  /** What holds of every Certificate wherever a run has got to. */
  ghost predicate Sane(cfg: Config, w: World) {
    Inv(cfg, w) && forall m :: m in cfg.certificates ==> m in w.certs
  }

  lemma SaneRun(cfg: Config, w: World, actions: seq<Action>)
    requires ValidConfig(cfg) && Sane(cfg, w)
    ensures Sane(cfg, Run(cfg, w, actions))
  {
    hide Inv, Run;
    RunInv(cfg, w, actions);
    RunGrows(cfg, w, actions);
  }

  /** The world in which the pass of a visit begins. */
  function Start(w: World, v: Visit): World {
    w.(clock := w.clock + v.wait)
  }

  lemma StartIsTick(cfg: Config, w: World, v: Visit)
    requires ValidConfig(cfg) && Sane(cfg, w)
    ensures Sane(cfg, Start(w, v))
  {
    hide Inv;
    TickInv(cfg, w, v.wait);
  }

  // ---------------------------------------------------------------------------------------
  // One pass
  // ---------------------------------------------------------------------------------------

  lemma ValidatedShape(spec: CertificateSpec, st: CertificateStatus, start: Time, now: Time)
    requires st.cert.validUntil.Some?
    ensures Validated(spec, st, start, now).None? <==> st.cert.validUntil.value < start || Before(spec).None?
    ensures Validated(spec, st, start, now).Some? ==>
              var st' := Validated(spec, st, start, now).value;
              && st'.cert.validUntil == st.cert.validUntil && st'.keyExists == st.keyExists && st'.certExists == st.certExists
              && (st'.needsRenewal <==> st.cert.validUntil.value - Before(spec).value <= now)
  {
    hide PutBool, RenewalCondition, MissingMessage;
  }

  lemma SettleShape(w: World, n: Name, o: Outcome)
    requires n in w.certs && (o.Nothing? || o.NewStatus?)
    ensures var w' := Settle(w, n, o);
            && n in w'.certs && n !in w'.passes && Log(w', n) == Log(w, n) && w'.clock == w.clock + o.elapsed
            && StatusOf(w', n) == if o.NewStatus? then o.st else StatusOf(w, n)
  {
  }

  /** A pass on an issued certificate flags renewal exactly in the window; it changes nothing when it comes too
      late, and otherwise leaves the certificate issued with the same expiry. */
  lemma ValidatingVisit(cfg: Config, w: World, v: Visit)
    requires ValidConfig(cfg) && Issued(cfg, w, v.n)
    ensures var n := v.n;
            var w' := After(cfg, w, v);
            var spec := cfg.certificates[n];
            && n in w'.certs && n !in w'.passes && Log(w', n) == Log(w, n) && Start(w, v).clock + v.d == w'.clock
            && StatusOf(w', n).cert.validUntil == StatusOf(w, n).cert.validUntil
            && StatusOf(w', n).keyExists && StatusOf(w', n).certExists
            && (StatusOf(w', n).needsRenewal <==> InWindow(spec, Expiry(w, n), Start(w, v).clock, v.d))
            && (Start(w, v).clock > Expiry(w, n) || Before(spec).None? ==> Lost(cfg, w', n))
  {
    hide Validated, Settle, After, Log;
    var n := v.n;
    var w1 := Start(w, v);
    FlagKept(w, v);
    VisitIsPass(cfg, w, v);
    ValidatedShape(cfg.certificates[n], StatusOf(w, n), w1.clock, w1.clock + v.d);
    SettleShape(w1, n, WholePass(cfg, w1, n, v.d));
  }

  /** A pass on a certificate flagged for renewal, with an issuer that is ready, records an issuance. */
  lemma RenewingVisit(cfg: Config, w: World, v: Visit)
    requires ValidConfig(cfg) && Sane(cfg, w) && v.n in cfg.certificates && v.n !in w.passes
    requires StatusOf(w, v.n).keyExists && StatusOf(w, v.n).needsRenewal && CanBeSigned(cfg, w, v.n)
    ensures |Log(After(cfg, w, v), v.n)| == |Log(w, v.n)| + 1
  {
    hide WholePass, CanBeSigned, Inv, After, StatusOf;
    VisitIsPass(cfg, w, v);
    StartIsTick(cfg, w, v);
    TickSigns(cfg, w, v.n, v.wait);
    FlagKept(w, v);
    PassIssues(cfg, Start(w, v), v.n, v.d);
    IssuedLog(Start(w, v), v.n, WholePass(cfg, Start(w, v), v.n, v.d));
  }

  lemma FlagKept(w: World, v: Visit)
    ensures StatusOf(Start(w, v), v.n) == StatusOf(w, v.n) && Log(Start(w, v), v.n) == Log(w, v.n)
  {
  }

  lemma IssuedLog(w: World, n: Name, o: Outcome)
    requires o.NewCert?
    ensures |Log(Settle(w, n, o), n)| == |Log(w, n)| + 1
  {
  }

  // ---------------------------------------------------------------------------------------
  // Recorded issuances stay recorded
  // ---------------------------------------------------------------------------------------

  lemma LogStep(cfg: Config, w: World, a: Action, n: Name)
    ensures |Log(w, n)| <= |Log(Step(cfg, w, a), n)|
  {
    hide Begin, Continue, Observed;
  }

  lemma {:induction false} LogRun(cfg: Config, w: World, actions: seq<Action>, n: Name)
    ensures |Log(w, n)| <= |Log(Run(cfg, w, actions), n)|
    decreases |actions|
  {
    hide Step, Log;
    if actions != [] {
      LogStep(cfg, w, actions[0], n);
      LogRun(cfg, Step(cfg, w, actions[0]), actions[1..], n);
    }
  }

  // ---------------------------------------------------------------------------------------
  // Main result
  // ---------------------------------------------------------------------------------------

  /** Three passes on `n`, with anything that is not a pass on `n` before and between them: other objects' passes
      in any interleaving, crashes, writes by users. */
  datatype Life = Life(before: seq<Action>, first: Visit, between: seq<Action>, second: Visit, later: seq<Action>, third: Visit)

  predicate IsLife(life: Life, n: Name) {
    && life.first.n == n && life.second.n == n && life.third.n == n
    && Elsewhere(life.before, n) && Elsewhere(life.between, n) && Elsewhere(life.later, n)
  }

  function FirstAt(cfg: Config, w: World, life: Life): World {
    Run(cfg, w, life.before)
  }

  function SecondAt(cfg: Config, w: World, life: Life): World {
    Run(cfg, After(cfg, FirstAt(cfg, w, life), life.first), life.between)
  }

  function ThirdAt(cfg: Config, w: World, life: Life): World {
    Run(cfg, After(cfg, SecondAt(cfg, w, life), life.second), life.later)
  }

  function EndOf(cfg: Config, w: World, life: Life): World {
    After(cfg, ThirdAt(cfg, w, life), life.third)
  }

  /** The second pass starts no earlier than the first one asked for. */
  predicate OnSchedule(cfg: Config, w: World, life: Life)
    requires life.first.n in cfg.certificates
  {
    var due := WakeUp(cfg, Start(FirstAt(cfg, w, life), life.first), life.first.n, life.first.d);
    due.Some? ==> due.value <= Start(SecondAt(cfg, w, life), life.second).clock
  }

  /** The first validation falls in the window, or the wake-up at expiry is served at that very instant. */
  predicate CaughtInTime(cfg: Config, w: World, life: Life)
    requires Issued(cfg, w, life.first.n)
  {
    var spec, until := cfg.certificates[life.first.n], Expiry(w, life.first.n);
    var first := Start(FirstAt(cfg, w, life), life.first).clock;
    || InWindow(spec, until, first, life.first.d)
    || (first <= until && Before(spec).Some? && Start(SecondAt(cfg, w, life), life.second).clock == until)
  }

  lemma IdleIssued(cfg: Config, w: World, actions: seq<Action>, n: Name)
    requires ValidConfig(cfg) && Issued(cfg, w, n) && Elsewhere(actions, n)
    ensures var w' := Run(cfg, w, actions);
            Issued(cfg, w', n) && Expiry(w', n) == Expiry(w, n) && Log(w', n) == Log(w, n) && w.clock <= w'.clock
  {
    hide Run;
    IdleRun(cfg, w, actions, n);
  }

  lemma DueIsExpiry(cfg: Config, w: World, v: Visit)
    requires Issued(cfg, w, v.n) && Start(w, v).clock <= Expiry(w, v.n) && Before(cfg.certificates[v.n]).Some?
    ensures WakeUp(cfg, Start(w, v), v.n, v.d) == Some(Expiry(w, v.n))
  {
    hide PutBool, WithAvailability;
  }

  /** A visit leaves no pass behind. */
  lemma VisitEnds(cfg: Config, w: World, v: Visit)
    requires v.n in cfg.certificates && v.n in w.certs && v.n !in w.passes
    ensures v.n !in After(cfg, w, v).passes && v.n in After(cfg, w, v).certs
  {
    hide WholePass;
    VisitIsPass(cfg, w, v);
  }

  /** The first pass came too late, or the time to renew before is out of range. */
  lemma LateFirst(cfg: Config, w: World, life: Life, n: Name)
    requires ValidConfig(cfg) && n in cfg.certificates && Lost(cfg, After(cfg, FirstAt(cfg, w, life), life.first), n)
    ensures var w3 := After(cfg, SecondAt(cfg, w, life), life.second);
            Lost(cfg, w3, n) && Log(w3, n) == Log(After(cfg, FirstAt(cfg, w, life), life.first), n)
  {
    hide Run, Lost, ReadKey, ReadCert;
    var w1 := After(cfg, FirstAt(cfg, w, life), life.first);
    AbsorbingRun(cfg, w1, life.between, n);
    AbsorbingRun(cfg, Run(cfg, w1, life.between), VisitActions(life.second), n);
  }

  /** The first pass flagged renewal: the second one renews. */
  lemma FlaggedFirst(cfg: Config, w: World, life: Life, n: Name)
    requires ValidConfig(cfg) && n in cfg.certificates && life.second.n == n && Elsewhere(life.between, n)
    requires var w1 := After(cfg, FirstAt(cfg, w, life), life.first);
             && Sane(cfg, w1) && n in w1.certs && n !in w1.passes && StatusOf(w1, n).keyExists && StatusOf(w1, n).needsRenewal
    requires CanBeSigned(cfg, SecondAt(cfg, w, life), n)
    ensures var w3 := After(cfg, SecondAt(cfg, w, life), life.second);
            && n in w3.certs && n !in w3.passes && StatusOf(w3, n).keyExists
            && |Log(w3, n)| > |Log(After(cfg, FirstAt(cfg, w, life), life.first), n)|
  {
    hide Run, Inv, CanBeSigned, VisitActions;
    var w1 := After(cfg, FirstAt(cfg, w, life), life.first);
    var w2 := SecondAt(cfg, w, life);
    IdleRun(cfg, w1, life.between, n);
    SaneRun(cfg, w1, life.between);
    RenewingVisit(cfg, w2, life.second);
    VisitEnds(cfg, w2, life.second);
    RunGrows(cfg, w2, VisitActions(life.second));
    CertStays(cfg, w2, After(cfg, w2, life.second), n);
  }

  /** The first pass saw no need: the second one is due at expiry. */
  lemma UnflaggedFirst(cfg: Config, w: World, life: Life, n: Name)
    requires ValidConfig(cfg) && life.second.n == n && Elsewhere(life.between, n)
    requires Issued(cfg, After(cfg, FirstAt(cfg, w, life), life.first), n)
    requires var w1 := After(cfg, FirstAt(cfg, w, life), life.first);
             Before(cfg.certificates[n]).Some? && Start(SecondAt(cfg, w, life), life.second).clock >= Expiry(w1, n)
    ensures var w1 := After(cfg, FirstAt(cfg, w, life), life.first);
            var w3 := After(cfg, SecondAt(cfg, w, life), life.second);
            && n in w3.certs && n !in w3.passes && StatusOf(w3, n).keyExists && Log(w3, n) == Log(w1, n)
            && (if Start(SecondAt(cfg, w, life), life.second).clock == Expiry(w1, n) then StatusOf(w3, n).needsRenewal else Lost(cfg, w3, n))
  {
    hide Run, VisitActions, After;
    IdleIssued(cfg, After(cfg, FirstAt(cfg, w, life), life.first), life.between, n);
    ValidatingVisit(cfg, SecondAt(cfg, w, life), life.second);
  }

  /** The first pass, the second one, and what they leave for the third. */
  lemma TwoPasses(cfg: Config, w: World, life: Life, n: Name)
    requires ValidConfig(cfg) && Sane(cfg, w) && Issued(cfg, w, n) && IsLife(life, n) && OnSchedule(cfg, w, life)
    requires CanBeSigned(cfg, SecondAt(cfg, w, life), n)
    ensures var w3 := After(cfg, SecondAt(cfg, w, life), life.second);
            && n in w3.certs && n !in w3.passes && StatusOf(w3, n).keyExists
            && (CaughtInTime(cfg, w, life) ==>
                  |Log(w3, n)| > |Log(w, n)| || (StatusOf(w3, n).needsRenewal && Log(w3, n) == Log(w, n)))
            && (!CaughtInTime(cfg, w, life) ==> Lost(cfg, w3, n) && Log(w3, n) == Log(w, n))
  {
    hide Run, After, Inv, CanBeSigned, VisitActions, WakeUp, SecondAt;
    var w1 := FirstAt(cfg, w, life);
    IdleIssued(cfg, w, life.before, n);
    ValidatingVisit(cfg, w1, life.first);
    SaneRun(cfg, w, life.before);
    SaneVisit(cfg, w1, life.first);
    if Start(w1, life.first).clock > Expiry(w, n) || Before(cfg.certificates[n]).None? {
      LateFirst(cfg, w, life, n);
    } else {
      DueIsExpiry(cfg, w1, life.first);
      if StatusOf(After(cfg, w1, life.first), n).needsRenewal {
        FlaggedFirst(cfg, w, life, n);
      } else {
        UnflaggedFirst(cfg, w, life, n);
      }
    }
  }

  lemma SaneVisit(cfg: Config, w: World, v: Visit)
    requires ValidConfig(cfg) && Sane(cfg, w)
    ensures Sane(cfg, After(cfg, w, v))
  {
    hide Sane;
    SaneRun(cfg, w, VisitActions(v));
  }

  /** Main result: when the second pass starts no earlier than the first one asked for, and the issuer is ready
      whenever it is needed, the certificate is issued a second time if and only if it was caught in time. If it
      was not, it is lost: no later run whatever issues it again. */
  lemma RenewedIffCaught(cfg: Config, w: World, life: Life, n: Name, forever: seq<Action>)
    requires ValidConfig(cfg) && Sane(cfg, w) && Issued(cfg, w, n) && IsLife(life, n) && OnSchedule(cfg, w, life)
    requires CanBeSigned(cfg, SecondAt(cfg, w, life), n) && CanBeSigned(cfg, ThirdAt(cfg, w, life), n)
    ensures |Log(EndOf(cfg, w, life), n)| > |Log(w, n)| <==> CaughtInTime(cfg, w, life)
    ensures !CaughtInTime(cfg, w, life) ==> Log(Run(cfg, EndOf(cfg, w, life), forever), n) == Log(w, n)
  {
    hide Run, After, Inv, CanBeSigned, VisitActions, CaughtInTime, OnSchedule, ReadKey, ReadCert, SecondAt;
    var w2 := SecondAt(cfg, w, life);
    var w3 := After(cfg, w2, life.second);
    TwoPasses(cfg, w, life, n);
    SaneTo(cfg, w, life);
    if !CaughtInTime(cfg, w, life) {
      AbsorbingRun(cfg, w3, life.later, n);
      LostEnd(cfg, ThirdAt(cfg, w, life), life.third, n);
      AbsorbingRun(cfg, EndOf(cfg, w, life), forever, n);
    } else {
      IdleRun(cfg, w3, life.later, n);
      if |Log(w3, n)| > |Log(w, n)| {
        LogEnd(cfg, ThirdAt(cfg, w, life), life.third, n);
      } else {
        SaneRun(cfg, w3, life.later);
        RenewingVisit(cfg, ThirdAt(cfg, w, life), life.third);
      }
    }
  }

  lemma SaneTo(cfg: Config, w: World, life: Life)
    requires ValidConfig(cfg) && Sane(cfg, w)
    ensures Sane(cfg, After(cfg, SecondAt(cfg, w, life), life.second))
  {
    hide Sane, Run, After;
    SaneRun(cfg, w, life.before);
    SaneVisit(cfg, FirstAt(cfg, w, life), life.first);
    SaneRun(cfg, After(cfg, FirstAt(cfg, w, life), life.first), life.between);
    SaneVisit(cfg, SecondAt(cfg, w, life), life.second);
  }

  lemma LostEnd(cfg: Config, w: World, v: Visit, n: Name)
    requires ValidConfig(cfg) && Lost(cfg, w, n)
    ensures Lost(cfg, After(cfg, w, v), n) && Log(After(cfg, w, v), n) == Log(w, n)
  {
    hide Run, VisitActions;
    AbsorbingRun(cfg, w, VisitActions(v), n);
  }

  lemma LogEnd(cfg: Config, w: World, v: Visit, n: Name)
    ensures |Log(w, n)| <= |Log(After(cfg, w, v), n)|
  {
    hide Run, VisitActions;
    LogRun(cfg, w, VisitActions(v), n);
  }

  // ---------------------------------------------------------------------------------------
  // The same for every interleaving, as a necessary condition
  // ---------------------------------------------------------------------------------------

  /** No pass on `n` begins in the window that belongs to the expiry `until`. */
  predicate OutsideWindow(cfg: Config, w: World, actions: seq<Action>, n: Name, until: Time)
    requires n in cfg.certificates
    decreases |actions|
  {
    actions == [] ||
    (&& (actions[0].BeginPass? && actions[0].n == n && n !in w.passes ==> !InWindow(cfg.certificates[n], until, w.clock, actions[0].d))
     && OutsideWindow(cfg, Step(cfg, w, actions[0]), actions[1..], n, until))
  }

  predicate Unflagged(st: CertificateStatus, until: Time) {
    st.keyExists && st.certExists && !st.needsRenewal && st.cert.validUntil == Some(until)
  }

  /** The certificate is not flagged, and neither is what a pass in flight is about to publish. */
  predicate Dormant(cfg: Config, w: World, n: Name, until: Time) {
    && n in cfg.certificates && n in w.certs && Unflagged(StatusOf(w, n), until)
    && (n in w.passes ==> w.passes[n].Publishing? && w.passes[n].recorded.None? && Unflagged(w.passes[n].st, until))
  }

  lemma DormantBegin(cfg: Config, w: World, n: Name, d: nat, until: Time)
    requires Dormant(cfg, w, n, until) && !InWindow(cfg.certificates[n], until, w.clock, d)
    ensures var e := Begin(cfg, w, n, d);
            e.Fail? || (e.Proceed? && e.next.Publishing? && e.next.recorded.None? && Unflagged(e.next.st, until))
  {
    hide Validated;
    ValidatedShape(cfg.certificates[n], StatusOf(w, n), w.clock, w.clock + d);
  }

  lemma DormantApply(cfg: Config, w: World, n: Name, e: Effect, until: Time)
    requires Dormant(cfg, w, n, until)
    requires match e
             case Fail(_) => true
             case Proceed(p, _) => p.Publishing? && p.recorded.None? && Unflagged(p.st, until)
             case PatchStatus(st, at) => at.None? && Unflagged(st, until)
             case _ => false
    ensures Dormant(cfg, Apply(w, n, e), n, until) && Log(Apply(w, n, e), n) == Log(w, n)
  {
  }

  lemma DormantStep(cfg: Config, w: World, a: Action, n: Name, until: Time)
    requires ValidConfig(cfg) && Dormant(cfg, w, n, until) && OutsideWindow(cfg, w, [a], n, until)
    ensures Dormant(cfg, Step(cfg, w, a), n, until) && Log(Step(cfg, w, a), n) == Log(w, n)
  {
    hide Begin, Apply, Unflagged;
    match a {
      case BeginPass(m, d) =>
        if m in cfg.certificates && m in w.certs && m !in w.passes {
          if m == n { DormantBegin(cfg, w, n, d, until); DormantApply(cfg, w, n, Begin(cfg, w, n, d), until); }
          else { DormantElsewhere(cfg, w, m, Begin(cfg, w, m, d), n, until); }
        }
      case ContinuePass(m, d) =>
        if m in cfg.certificates && m in w.passes {
          if m == n { DormantApply(cfg, w, n, Continue(cfg, w, n, d), until); }
          else { DormantElsewhere(cfg, w, m, Continue(cfg, w, m, d), n, until); }
        }
      case _ => DormantOther(cfg, w, a, n, until);
    }
  }

  lemma DormantElsewhere(cfg: Config, w: World, m: Name, e: Effect, n: Name, until: Time)
    requires m != n && Dormant(cfg, w, n, until)
    ensures Dormant(cfg, Apply(w, m, e), n, until) && Log(Apply(w, m, e), n) == Log(w, n)
  {
    hide Unflagged;
  }

  lemma DormantOther(cfg: Config, w: World, a: Action, n: Name, until: Time)
    requires Dormant(cfg, w, n, until) && !a.BeginPass? && !a.ContinuePass?
    ensures Dormant(cfg, Step(cfg, w, a), n, until) && Log(Step(cfg, w, a), n) == Log(w, n)
  {
    hide Unflagged, Observed;
  }

  /** In any run at all, with passes on `n` itself interrupted anywhere: as long as none of them begins in the
      window, no second issuance is recorded. */
  lemma {:induction false} RenewalNeedsWindow(cfg: Config, w: World, actions: seq<Action>, n: Name, until: Time)
    requires ValidConfig(cfg) && Dormant(cfg, w, n, until) && OutsideWindow(cfg, w, actions, n, until)
    ensures Dormant(cfg, Run(cfg, w, actions), n, until) && Log(Run(cfg, w, actions), n) == Log(w, n)
    decreases |actions|
  {
    hide Step, Dormant, InWindow;
    if actions != [] {
      DormantStep(cfg, w, actions[0], n, until);
      RenewalNeedsWindow(cfg, Step(cfg, w, actions[0]), actions[1..], n, until);
    }
  }

  // ---------------------------------------------------------------------------------------
  // It happens
  // ---------------------------------------------------------------------------------------

  /** Each pass on `n` starts no earlier than the one before it asked for. */
  predicate Punctual(cfg: Config, w: World, visits: seq<Visit>, n: Name, due: Time)
    requires n in cfg.certificates
    decreases |visits|
  {
    visits == [] ||
    var v := visits[0];
    var start := Start(w, v);
    && (v.n == n ==> due <= start.clock)
    && Punctual(cfg, After(cfg, w, v), visits[1..], n, if v.n == n then WakeUp(cfg, start, n, v.d).GetOr(start.clock) else due)
  }

  /** The expiry of a certificate that `n` signs for itself five seconds into the run. */
  function FirstExpiry(spec: CertificateSpec): Time {
    Trunc(5 * SECOND + Interval(spec))
  }

  /** A key, a certificate and a first validation, each five seconds after the other, and then a pass that comes
      one nanosecond after the wake-up at expiry. */
  function MissedLife(cfg: Config, n: Name): seq<Visit>
    requires n in cfg.certificates && FirstExpiry(cfg.certificates[n]) >= 10 * SECOND
  {
    [Visit(n, 0, 0), Visit(n, 5 * SECOND, 0), Visit(n, 5 * SECOND, 0), Visit(n, FirstExpiry(cfg.certificates[n]) - 10 * SECOND + 1, 0)]
  }

  /** A self-signed Certificate whose key is made and recorded. */
  predicate Keyed(cfg: Config, w: World, n: Name) {
    && n in cfg.certificates && SelfSigned(cfg, n) && n in w.certs && n !in w.passes && w.certs[n].Some?
    && StatusOf(w, n).keyExists && !StatusOf(w, n).certExists && StatusOf(w, n).key.secret == Some(KeySecret(n))
    && ReadKey(w, KeySecret(n)).Some? && StatusOf(w, n).cert == NO_CERT && Log(w, n) == []
  }

  lemma KeyVisit(cfg: Config, n: Name, w: World)
    requires ValidConfig(cfg) && n in cfg.certificates && SelfSigned(cfg, n) && w == Step(cfg, EMPTY_WORLD, CreateCertificate(n))
    ensures var w' := After(cfg, w, Visit(n, 0, 0));
            Keyed(cfg, w', n) && w'.clock == 0 && WakeUp(cfg, Start(w, Visit(n, 0, 0)), n, 0) == Some(5 * SECOND)
  {
    hide After, PutBool;
    var v := Visit(n, 0, 0);
    VisitIsPass(cfg, w, v);
    assert StatusOf(Start(w, v), n) == DEFAULT_STATUS && KeySecret(n) !in Start(w, v).secrets;
  }

  lemma IssueVisit(cfg: Config, n: Name, w: World, v: Visit)
    requires ValidConfig(cfg) && Keyed(cfg, w, n) && v.n == n && v.d == 0
    ensures var w' := After(cfg, w, v);
            && Issued(cfg, w', n) && |Log(w', n)| == 1 && w'.clock == w.clock + v.wait
            && Expiry(w', n) == Trunc(w.clock + v.wait + Interval(cfg.certificates[n]))
            && WakeUp(cfg, Start(w, v), n, 0) == Some(w.clock + v.wait + 5 * SECOND)
  {
    hide After, PutBool, Trunc, Interval, WithAvailability, WithCertificateIssuer;
    VisitIsPass(cfg, w, v);
    SelfResolves(cfg, n, Start(w, v));
  }

  lemma SelfResolves(cfg: Config, n: Name, w: World)
    requires ValidConfig(cfg) && Keyed(cfg, w, n)
    ensures WholePass(cfg, w, n, 0).NewCert?
    ensures var o := WholePass(cfg, w, n, 0);
            && o.elapsed == 0 && o.st.keyExists && o.st.certExists && !o.st.needsRenewal
            && o.st.cert.validUntil == Some(Trunc(w.clock + Interval(cfg.certificates[n])))
  {
    hide PutBool, Trunc, Interval, MissingMessage;
  }

  /** The failing input: for any self-signed Certificate with a window that opens later than ten seconds into its
      run, every pass is punctual, and still the certificate is issued once and then lost. */
  lemma LostReachable(cfg: Config, n: Name)
    requires ValidConfig(cfg) && n in cfg.certificates && SelfSigned(cfg, n) && Before(cfg.certificates[n]).Some?
    requires FirstExpiry(cfg.certificates[n]) - Before(cfg.certificates[n]).value > 10 * SECOND
    ensures var w0 := Step(cfg, EMPTY_WORLD, CreateCertificate(n));
            var w := Run(cfg, EMPTY_WORLD, [CreateCertificate(n)] + Actions(MissedLife(cfg, n)));
            Punctual(cfg, w0, MissedLife(cfg, n), n, 0) && Lost(cfg, w, n) && |Log(w, n)| == 1
  {
    hide Run, After, WakeUp, Lost, Issued, Keyed, VisitActions, FirstExpiry;
    var until := FirstExpiry(cfg.certificates[n]);
    var v1, v2, v3, v4 := Visit(n, 0, 0), Visit(n, 5 * SECOND, 0), Visit(n, 5 * SECOND, 0), Visit(n, until - 10 * SECOND + 1, 0);
    var w0 := Step(cfg, EMPTY_WORLD, CreateCertificate(n));
    var w1 := After(cfg, w0, v1);
    var w2 := After(cfg, w1, v2);
    var w3 := After(cfg, w2, v3);
    KeyVisit(cfg, n, w0);
    IssueVisit(cfg, n, w1, v2);
    ExpiryIs(cfg, n, w1, v2);
    QuietVisit(cfg, n, w2, v3);
    LateVisit(cfg, n, w3, v4);
    FourVisits(cfg, w0, v1, v2, v3, v4);
    OneThenVisits(cfg, CreateCertificate(n), MissedLife(cfg, n));
    PunctualFour(cfg, w0, n, v1, v2, v3, v4);
  }

  lemma ExpiryIs(cfg: Config, n: Name, w: World, v: Visit)
    requires n in cfg.certificates && w.clock + v.wait == 5 * SECOND
    ensures Trunc(w.clock + v.wait + Interval(cfg.certificates[n])) == FirstExpiry(cfg.certificates[n])
  {
  }

  lemma QuietVisit(cfg: Config, n: Name, w: World, v: Visit)
    requires ValidConfig(cfg) && Issued(cfg, w, n) && v.n == n && v.d == 0 && Before(cfg.certificates[n]).Some?
    requires w.clock + v.wait < Expiry(w, n) - Before(cfg.certificates[n]).value
    ensures var w' := After(cfg, w, v);
            && Issued(cfg, w', n) && Expiry(w', n) == Expiry(w, n) && Log(w', n) == Log(w, n) && w'.clock == w.clock + v.wait
            && WakeUp(cfg, Start(w, v), n, 0) == Some(Expiry(w, n))
  {
    hide After;
    ValidatingVisit(cfg, w, v);
    DueIsExpiry(cfg, w, v);
  }

  lemma LateVisit(cfg: Config, n: Name, w: World, v: Visit)
    requires ValidConfig(cfg) && Issued(cfg, w, n) && v.n == n && w.clock + v.wait > Expiry(w, n)
    ensures var w' := After(cfg, w, v); Lost(cfg, w', n) && Log(w', n) == Log(w, n)
  {
    hide After;
    ValidatingVisit(cfg, w, v);
  }

  lemma FourVisits(cfg: Config, w: World, a: Visit, b: Visit, c: Visit, d: Visit)
    ensures Run(cfg, w, Actions([a, b, c, d])) == After(cfg, After(cfg, After(cfg, After(cfg, w, a), b), c), d)
  {
    hide Run, VisitActions;
    OneVisit(cfg, w, a, [b, c, d]);
    OneVisit(cfg, After(cfg, w, a), b, [c, d]);
    OneVisit(cfg, After(cfg, After(cfg, w, a), b), c, [d]);
    OneVisit(cfg, After(cfg, After(cfg, After(cfg, w, a), b), c), d, []);
    NoVisits(cfg, After(cfg, After(cfg, After(cfg, After(cfg, w, a), b), c), d));
    assert [a] + [b, c, d] == [a, b, c, d] && [b] + [c, d] == [b, c, d] && [c] + [d] == [c, d] && [d] + [] == [d];
  }

  lemma NoVisits(cfg: Config, w: World)
    ensures Run(cfg, w, Actions([])) == w
  {
  }

  lemma OneVisit(cfg: Config, w: World, a: Visit, rest: seq<Visit>)
    ensures Run(cfg, w, Actions([a] + rest)) == Run(cfg, After(cfg, w, a), Actions(rest))
  {
    hide Run, VisitActions;
    assert ([a] + rest)[1..] == rest;
    RunSplit(cfg, w, VisitActions(a), Actions(rest));
  }

  lemma OneThenVisits(cfg: Config, a: Action, visits: seq<Visit>)
    ensures Run(cfg, EMPTY_WORLD, [a] + Actions(visits)) == Run(cfg, Step(cfg, EMPTY_WORLD, a), Actions(visits))
  {
    assert ([a] + Actions(visits))[1..] == Actions(visits);
  }

  lemma PunctualFour(cfg: Config, w: World, n: Name, a: Visit, b: Visit, c: Visit, d: Visit)
    requires n in cfg.certificates && a.n == n && b.n == n && c.n == n && d.n == n && 0 <= Start(w, a).clock
    requires var w1 := After(cfg, w, a);
             var w2 := After(cfg, w1, b);
             var w3 := After(cfg, w2, c);
             && WakeUp(cfg, Start(w, a), n, a.d).GetOr(Start(w, a).clock) <= Start(w1, b).clock
             && WakeUp(cfg, Start(w1, b), n, b.d).GetOr(Start(w1, b).clock) <= Start(w2, c).clock
             && WakeUp(cfg, Start(w2, c), n, c.d).GetOr(Start(w2, c).clock) <= Start(w3, d).clock
    ensures Punctual(cfg, w, [a, b, c, d], n, 0)
  {
    hide After, WakeUp;
    var w1 := After(cfg, w, a);
    var w2 := After(cfg, w1, b);
    var w3 := After(cfg, w2, c);
    assert [a, b, c, d][1..] == [b, c, d] && [b, c, d][1..] == [c, d] && [c, d][1..] == [d] && [d][1..] == [];
    assert Punctual(cfg, w3, [d], n, WakeUp(cfg, Start(w2, c), n, c.d).GetOr(Start(w2, c).clock));
    assert Punctual(cfg, w2, [c, d], n, WakeUp(cfg, Start(w1, b), n, b.d).GetOr(Start(w1, b).clock));
  }
}
