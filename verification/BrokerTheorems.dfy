/** What every run of the browser approval broker guarantees. */
module BrokerTheorems {
  import opened Prelude
  import opened BrokerState
  import opened BrokerProtocol

  /** The approval maps are mutually inverse, no action is both pending and resolved, and no tab is
      in two sessions. */
  lemma MapsStayCoherent(c: Classifier, ws: seq<World>, steps: seq<Step>, n: nat)
    requires IsRun(c, ws, steps) && n < |ws|
    ensures MapsCoherent(ws[n].s) && TabsDisjoint(ws[n].s)
  {
    InvRun(c, ws, steps, n);
  }

  lemma RunStep(c: Classifier, ws: seq<World>, steps: seq<Step>, i: nat)
    requires IsRun(c, ws, steps) && i < |steps|
    ensures i + 1 < |ws| && Inv(c, ws[i]) && Enabled(ws[i], steps[i]) && ws[i + 1] == Apply(c, ws[i], steps[i])
  {
    InvRun(c, ws, steps, i);
  }

  lemma RunLength(c: Classifier, ws: seq<World>, steps: seq<Step>)
    requires IsRun(c, ws, steps)
    ensures |ws| == |steps| + 1
  {
  }

  lemma {:induction false} LogPrefix(c: Classifier, ws: seq<World>, steps: seq<Step>, i: nat, j: nat)
    requires IsRun(c, ws, steps) && i <= j < |ws|
    ensures ws[i].log <= ws[j].log
  {
    hide *;
    if i < j {
      RunLength(c, ws, steps);
      LogPrefix(c, ws, steps, i, j - 1);
      RunStep(c, ws, steps, j - 1);
      LogStep(c, ws[j - 1], steps[j - 1]);
    }
  }

  lemma LogStep(c: Classifier, w: World, step: Step)
    requires Enabled(w, step)
    ensures w.log <= Apply(c, w, step).log
  {
    hide SessionInserted, SessionRemoved, TabInserted, EnabledSet, PolicySet, RoutineRevoked, TabReleased, TabClosed,
      SessionClosed, Drained, Parked, Taken, Resolved, AllExpired, OutcomeRecorded;
  }

  /** What stands behind an executed approval. */
  lemma ExecutedChain(c: Classifier, log: seq<Entry>, p: Pending, allowSite: bool)
    requires LegalLog(c, log) && Executes(p, allowSite) in log
    ensures Approves(p, allowSite) in log && Parks(p) in log && UserApproved(log, p, allowSite)
    ensures Dispatches(p.key, p.element, p.origin, Some(p)) in log
  {
    var i :| 0 <= i < |log| && log[i] == Executes(p, allowSite);
    assert Legal(c, log[..i], log[i]);
    assert Approved(log, p) by { assert Approves(p, allowSite) in log; }
    ApprovedWasParked(c, log, p);
    ApprovedByUser(c, log, p, allowSite);
  }

  lemma ApprovedByUser(c: Classifier, log: seq<Entry>, p: Pending, allowSite: bool)
    requires LegalLog(c, log) && Approves(p, allowSite) in log
    ensures UserApproved(log, p, allowSite)
  {
    var i :| 0 <= i < |log| && log[i] == Approves(p, allowSite);
    assert Legal(c, log[..i], log[i]);
    var now: nat :| Answers(p, true, allowSite, now) in log[..i] && now < p.requestedAt + 600_000;
    assert Answers(p, true, allowSite, now) in log;
  }

  /** A site grant: the user approved, with allow-site, an action parked in that session at that
      origin, and the action was carried out. */
  ghost predicate GrantedByUser(before: seq<Entry>, session: Id, origin: Origin) {
    exists p ::
      && Executes(p, true) in before
      && p.key.session == session && p.origin == origin
      && Parks(p) in before && UserApproved(before, p, true)
      && Dispatches(p.key, p.element, p.origin, Some(p)) in before
  }

  /** Why was this action allowed? Every dispatch acts on the element and origin just inspected. It is
      of a routine action, or acts on an approval that was parked for exactly this key, element and
      origin and that the user approved within ten minutes of that, or is at a site the user allowed for this
      session through an earlier executed approval. A sensitive field is never acted on. */
  lemma EveryDispatchIsJustified(c: Classifier, ws: seq<World>, steps: seq<Step>, n: nat, i: nat)
    requires IsRun(c, ws, steps) && n < |ws| && i < |ws[n].log| && ws[n].log[i].Dispatches?
    ensures var d := ws[n].log[i];
            var before := ws[n].log[..i];
            && !ClassOf(c, d.key, d.element).SensitiveField?
            && JustInspected(before, d.key, d.element, d.origin)
            && match d.approval
               case Some(p) =>
                 ClassOf(c, d.key, d.element).Consequential? && p.key == d.key && p.element == d.element
                 && p.origin == d.origin && Parks(p) in before
                 && (exists allowSite, now: nat ::
                       Answers(p, true, allowSite, now) in before && now < p.requestedAt + 600_000)
               case None =>
                 ClassOf(c, d.key, d.element).RoutineAction? || GrantedByUser(before, d.key.session, d.origin)
  {
    InvRun(c, ws, steps, n);
    var log := ws[n].log;
    var d := log[i];
    var before := log[..i];
    hide Inv;
    assert LegalLog(c, log) by { StateLog(c, ws[n]); }
    assert Legal(c, before, d);
    LegalPrefix(c, log, i);
    match d.approval {
      case Some(p) =>
        ApprovedWasParked(c, before, p);
        var allowSite :| Approves(p, allowSite) in before;
        ApprovedByUser(c, before, p, allowSite);
      case None =>
        if !ClassOf(c, d.key, d.element).RoutineAction? {
          var p :| Executes(p, true) in before && p.key.session == d.key.session && p.origin == d.origin;
          ExecutedChain(c, before, p, true);
        }
    }
  }

  lemma StateLog(c: Classifier, w: World)
    requires Inv(c, w)
    ensures LegalLog(c, w.log)
  {
  }

  lemma LegalPrefix(c: Classifier, log: seq<Entry>, n: nat)
    requires LegalLog(c, log) && n <= |log|
    ensures LegalLog(c, log[..n])
  {
    hide Legal;
    forall i | 0 <= i < n ensures Legal(c, log[..n][..i], log[..n][i]) {
      assert log[..n][..i] == log[..i];
    }
  }

  lemma ParkedIdsDiffer(c: Classifier, log: seq<Entry>, i: nat, j: nat)
    requires LegalLog(c, log) && i < j < |log| && log[i].Parks? && log[j].Parks?
    ensures log[i].p.id != log[j].p.id
  {
    assert Legal(c, log[..j], log[j]);
    assert log[..j][i] == log[i];
  }

  lemma DispatchedApprovalsDiffer(c: Classifier, log: seq<Entry>, i: nat, j: nat)
    requires LegalLog(c, log) && i < j < |log| && log[i].Dispatches? && log[j].Dispatches?
    requires log[j].approval.Some?
    ensures log[i].approval != log[j].approval
  {
    hide ClassOf, SiteGranted, Approved;
    assert Legal(c, log[..j], log[j]);
    assert log[..j][i] in log[..j];
    assert !ActsOn(log[i], log[j].approval.value);
  }

  lemma ParksOnce(c: Classifier, log: seq<Entry>, p: Pending, q: Pending)
    requires LegalLog(c, log) && Parks(p) in log && Parks(q) in log && p.id == q.id
    ensures p == q
  {
    var i :| 0 <= i < |log| && log[i] == Parks(p);
    var j :| 0 <= j < |log| && log[j] == Parks(q);
    hide LegalLog;
    if i != j {
      ParkedIdsDiffer(c, log, if i < j then i else j, if i < j then j else i);
    }
  }

  /** Each approval id causes at most one dispatch. */
  lemma ApprovalDispatchesAtMostOnce(c: Classifier, ws: seq<World>, steps: seq<Step>, n: nat, i: nat, j: nat)
    requires IsRun(c, ws, steps) && n < |ws| && i < |ws[n].log| && j < |ws[n].log|
    requires ws[n].log[i].Dispatches? && ws[n].log[j].Dispatches?
    requires ws[n].log[i].approval.Some? && ws[n].log[j].approval.Some?
    requires ws[n].log[i].approval.value.id == ws[n].log[j].approval.value.id
    ensures i == j
  {
    InvRun(c, ws, steps, n);
    hide Inv, LegalLog, Legal, Approved, IsRun;
    var log := ws[n].log;
    StateLog(c, ws[n]);
    var p, q := log[i].approval.value, log[j].approval.value;
    DispatchedWasApproved(c, log, p, log[i]);
    ApprovedWasParked(c, log, p);
    DispatchedWasApproved(c, log, q, log[j]);
    ApprovedWasParked(c, log, q);
    ParksOnce(c, log, p, q);
    if i != j {
      DispatchedApprovalsDiffer(c, log, if i < j then i else j, if i < j then j else i);
    }
  }

  // ----- The deadline -----

  lemma ParkLogs(c: Classifier, w: World, step: Step, p: Pending)
    requires Enabled(w, step) && Parks(p) in Apply(c, w, step).log && Parks(p) !in w.log
    ensures step == Park(p.id, p.requestedAt)
  {
    hide SessionInserted, SessionRemoved, TabInserted, EnabledSet, PolicySet, RoutineRevoked, TabReleased, TabClosed,
      SessionClosed, Drained, Parked, Taken, Resolved, AllExpired, OutcomeRecorded;
    hide Admitted, OwnsSession, AccessEnabled, ClassOf, Expired;
  }

  /** The time an approval carries is the time at which it was parked. */
  lemma {:induction false} ParkedThen(c: Classifier, ws: seq<World>, steps: seq<Step>, n: nat, p: Pending)
    returns (m: nat)
    requires IsRun(c, ws, steps) && n < |ws| && Parks(p) in ws[n].log
    ensures m < n && m < |steps| && steps[m] == Park(p.id, p.requestedAt)
  {
    hide Apply, Enabled, Inv;
    assert n > 0;
    RunStep(c, ws, steps, n - 1);
    if Parks(p) in ws[n - 1].log {
      m := ParkedThen(c, ws, steps, n - 1, p);
    } else {
      ParkLogs(c, ws[n - 1], steps[n - 1], p);
      m := n - 1;
    }
  }

  /** An answer to a pending approval counts exactly if it comes within ten minutes of the step that
      parked it: later than that the action is not executed whatever the user says, and in time the
      user's word decides. */
  lemma AnswersMeetTheDeadline(c: Classifier, ws: seq<World>, steps: seq<Step>, i: nat) returns (m: nat)
    requires IsRun(c, ws, steps) && i < |steps| && steps[i].Respond? && steps[i].id in ws[i].s.pending
    ensures i + 1 < |ws| && m < i
    ensures var p, step := ws[i].s.pending[steps[i].id], steps[i];
            && steps[m] == Park(step.id, p.requestedAt)
            && ws[i + 1].s == ws[i].s
            && (p.requestedAt + 600_000 <= step.now ==> ws[i + 1].holder == Retiring(p, NotExecuted))
            && (step.now < p.requestedAt + 600_000 && step.approve ==> ws[i + 1].holder == Taking(p, step.allowSite))
            && (step.now < p.requestedAt + 600_000 && !step.approve ==> ws[i + 1].holder == Retiring(p, Declined))
  {
    RunStep(c, ws, steps, i);
    StateParts(c, ws[i]);
    var p := ws[i].s.pending[steps[i].id];
    assert p.id == steps[i].id;
    hide MapsCoherent, SessionsInv;
    PendingIsFresh(c, ws[i], p.id);
    hide Inv;
    m := ParkedThen(c, ws, steps, i, p);
  }

  /** A scan finds exactly the approvals parked ten minutes ago or longer. */
  lemma ScansFindTheExpired(c: Classifier, ws: seq<World>, steps: seq<Step>, i: nat, id: Id)
    requires IsRun(c, ws, steps) && i < |steps| && steps[i].Scan? && id in ws[i].s.pending
    ensures i + 1 < |ws| && ws[i + 1].holder.Pruning? && ws[i + 1].s == ws[i].s
    ensures var p := ws[i].s.pending[id];
            p in ws[i + 1].holder.expired <==> p.requestedAt + 600_000 <= steps[i].now
  {
    RunStep(c, ws, steps, i);
    hide Inv;
    ExpiresAfterTenMinutes(ws[i].s.pending[id], steps[i].now);
  }

  /** The removals that follow a scan take away exactly what it found, each with the outcome of an action
      that was not executed. */
  lemma ExpiryIsExact(c: Classifier, ws: seq<World>, steps: seq<Step>, i: nat, id: Id)
    requires IsRun(c, ws, steps) && i < |steps| && steps[i].Expire?
    requires ws[i].holder.Pruning? && id in ws[i].s.pending
    ensures i + 1 < |ws|
    ensures var p, t := ws[i].s.pending[id], ws[i + 1].s;
            if p in ws[i].holder.expired
            then id !in t.pending && p.key !in t.byAction && p.key in t.resolved && t.resolved[p.key] == NotExecuted
            else id in t.pending && t.pending[id] == p
  {
    RunStep(c, ws, steps, i);
    StateParts(c, ws[i]);
    hide Inv, SessionsInv;
    ExpiringTakes(ws[i].s, ws[i].holder.expired, ws[i].s.pending[id]);
  }

  lemma {:induction false} ExpiringTakes(s: State, expired: seq<Pending>, p: Pending)
    requires MapsCoherent(s) && p.id in s.pending && s.pending[p.id] == p
    requires forall q :: q in expired ==> Fits(s, q)
    ensures var t := AllExpired(s, expired);
            if p in expired
            then p.id !in t.pending && p.key !in t.byAction && p.key in t.resolved && t.resolved[p.key] == NotExecuted
            else p.id in t.pending && t.pending[p.id] == p
  {
    if expired != [] {
      var n := |expired| - 1;
      assert expired == expired[..n] + [expired[n]];
      ExpiringTakes(s, expired[..n], p);
      var q := expired[n];
      assert Fits(s, q) && q in expired;
      if q != p {
        assert q.id != p.id && q.key != p.key;
        assert p in expired <==> p in expired[..n];
      }
      hide MapsCoherent, AllExpired;
      RetiredOne(AllExpired(s, expired[..n]), q, p);
      assert AllExpired(s, expired) == Resolved(AllExpired(s, expired[..n]), q, NotExecuted) by { LastExpired(s, expired); }
    }
  }

  lemma LastExpired(s: State, expired: seq<Pending>)
    requires expired != []
    ensures AllExpired(s, expired)
            == Resolved(AllExpired(s, expired[..|expired| - 1]), expired[|expired| - 1], NotExecuted)
  {
  }

  /** Retiring one approval settles it and leaves another alone. */
  lemma RetiredOne(s: State, q: Pending, p: Pending)
    requires q == p || (q.id != p.id && q.key != p.key)
    ensures var t := Resolved(s, q, NotExecuted);
            if q == p
            then p.id !in t.pending && p.key !in t.byAction && p.key in t.resolved && t.resolved[p.key] == NotExecuted
            else
              && (p.id in t.pending <==> p.id in s.pending) && (p.id in s.pending ==> t.pending[p.id] == s.pending[p.id])
              && (p.key in t.byAction <==> p.key in s.byAction)
              && (p.key in t.resolved <==> p.key in s.resolved)
              && (p.key in s.resolved ==> t.resolved[p.key] == s.resolved[p.key])
  {
  }

  // ----- Replay -----

  /** The key's tab is still in its session. */
  predicate TabLives(w: World, k: Key) {
    k.session in w.s.sessions && k.tab in w.s.sessions[k.session].tabs
  }

  predicate NoDispatchOf(log: seq<Entry>, from: nat, k: Key) {
    forall m :: from <= m < |log| && log[m].Dispatches? ==> log[m].key != k
  }

  /** The step ends the key's tab: it is released, or its tab or session has just been closed. */
  predicate EndsTab(w: World, step: Step, k: Key) {
    || (step == ReleaseTab(k.tab) && TabLives(w, k))
    || (step.FinishTab? && w.holder == ClosingTab(k.session, k.tab))
    || (step.FinishSession? && w.holder == ClosingSession(k.session))
  }

  /** The steps that forget an action's outcome: the end of its tab, and the removal of every attended
      session. */
  predicate Clears(w: World, step: Step, k: Key) {
    || step.Shutdown?
    || step == SetEnabled(false)
    || (step.SetPolicy? && !step.policy.attended)
    || EndsTab(w, step, k)
  }

  /** The outcome stays as it is and the action is not sent. */
  predicate OutcomeKept(w: World, v: World, k: Key)
    requires k in w.s.resolved
  {
    k in v.s.resolved && v.s.resolved[k] == w.s.resolved[k] && NoDispatchOf(v.log, |w.log|, k)
  }

  predicate OutsideLock(step: Step) {
    step.InsertSession? || step.OpenSession? || step.ConfirmSession? || step.AddTab? || step.SetGrants?
    || step.SetAccessFlag? || step.Shutdown?
  }

  lemma MoveKeepsOutcome(c: Classifier, w: World, step: Step, k: Key)
    requires Enabled(w, step) && MovesHolder(step) && k in w.s.resolved
    ensures OutcomeKept(w, Apply(c, w, step), k)
  {
    hide *;
    MovesOnlyHolder(c, w, step);
    var v := Apply(c, w, step);
    assert v.s == w.s && v.log == w.log;
    assert OutcomeKept(w, v, k) by { SameOutcomes(w, v, k); }
  }

  lemma SameOutcomes(w: World, v: World, k: Key)
    requires k in w.s.resolved && v.s.resolved == w.s.resolved && v.log == w.log
    ensures OutcomeKept(w, v, k)
  {
  }

  lemma OutsideKeepsOutcome(c: Classifier, w: World, step: Step, k: Key)
    requires Enabled(w, step) && OutsideLock(step) && !step.Shutdown? && k in w.s.resolved
    ensures OutcomeKept(w, Apply(c, w, step), k)
  {
    hide Admitted, OwnsSession;
  }

  lemma OutsideKeepsHolder(c: Classifier, w: World, step: Step)
    requires Enabled(w, step) && OutsideLock(step)
    ensures Apply(c, w, step).holder == w.holder && Apply(c, w, step).log == w.log
  {
    hide Admitted, OwnsSession;
  }

  lemma RecordLeavesOutcome(c: Classifier, w: World, step: Step)
    requires w.holder.Recording? && Enabled(w, step) && !OutsideLock(step)
    ensures step.Record? && w.holder.p.key in Apply(c, w, step).s.resolved
    ensures forall from: nat, k :: from <= |w.log| && NoDispatchOf(w.log, from, k) ==>
              NoDispatchOf(Apply(c, w, step).log, from, k)
  {
  }

  lemma SettingKeepsOutcome(c: Classifier, w: World, step: Step, k: Key)
    requires Enabled(w, step) && k in w.s.resolved && !Clears(w, step, k)
    requires step.SetEnabled? || step.SetPolicy? || step.RevokeRoutine?
    ensures OutcomeKept(w, Apply(c, w, step), k)
  {
  }

  lemma ForgottenKeeps(s: State, m: Match, k: Key)
    requires k in s.resolved && !Matches(m, k)
    ensures k in Forgotten(s, m).resolved && Forgotten(s, m).resolved[k] == s.resolved[k]
  {
    hide MatchedIds, KeysOf;
  }

  lemma ForgettingKeepsOutcome(c: Classifier, w: World, step: Step, k: Key)
    requires Enabled(w, step) && k in w.s.resolved && !Clears(w, step, k)
    requires step.ReleaseTab? || step.FinishTab? || step.FinishSession?
    ensures OutcomeKept(w, Apply(c, w, step), k)
  {
    hide Forgotten;
    var s := w.s;
    if step.ReleaseTab? {
      var ids := Holders(s, step.tab);
      ForgottenKeeps(s.(sessions := WithoutTab(s.sessions, ids, step.tab)), Match(ids, Some(step.tab)), k);
    } else if step.FinishTab? {
      var h := w.holder;
      ForgottenKeeps(s.(sessions := WithoutTab(s.sessions, {h.session}, h.tab)), Match({h.session}, Some(h.tab)), k);
    } else {
      ForgottenKeeps(SessionRemoved(s, w.holder.session), Match({w.holder.session}, None), k);
    }
  }

  lemma RetiringKeepsOutcome(c: Classifier, w: World, step: Step, k: Key)
    requires MapsCoherent(w.s) && HolderInv(c, w) && Enabled(w, step) && k in w.s.resolved
    requires step.Expire? || step.Retire? || step.Record?
    ensures OutcomeKept(w, Apply(c, w, step), k)
  {
    if step.Expire? {
      AllExpiredRetires(w.s, w.holder.expired);
    }
    hide MapsCoherent, AllExpired, ClassOf;
  }

  lemma ActingKeepsOutcome(c: Classifier, w: World, step: Step, k: Key)
    requires HolderInv(c, w) && Enabled(w, step) && k in w.s.resolved
    requires step.Act? || step.Park? || step.Respond? || step.Take? || step.Execute? || step.Inspect? || step.Reinspect?
    ensures OutcomeKept(w, Apply(c, w, step), k)
  {
    hide ClassOf, SiteGranted, Undispatched, Approved;
  }

  lemma StepKeepsOutcome(c: Classifier, w: World, step: Step, k: Key)
    requires Inv(c, w) && Enabled(w, step) && k in w.s.resolved && !Clears(w, step, k)
    ensures OutcomeKept(w, Apply(c, w, step), k)
  {
    hide HolderInv, MapsCoherent, SessionsInv, KeysInv, GrantsInv, PendingInv, LegalLog, OutcomeKept, Apply, Enabled,
      EndsTab;
    if MovesHolder(step) {
      MoveKeepsOutcome(c, w, step, k);
    } else if OutsideLock(step) {
      OutsideKeepsOutcome(c, w, step, k);
    } else if step.SetEnabled? || step.SetPolicy? || step.RevokeRoutine? {
      SettingKeepsOutcome(c, w, step, k);
    } else if step.ReleaseTab? || step.FinishTab? || step.FinishSession? {
      ForgettingKeepsOutcome(c, w, step, k);
    } else if step.Expire? || step.Retire? || step.Record? {
      RetiringKeepsOutcome(c, w, step, k);
    } else {
      ActingKeepsOutcome(c, w, step, k);
    }
  }

  /** Once an action key has an outcome, every later identical call replays that outcome and the
      action is not sent, until a step that ends its tab or removes every attended session. */
  lemma {:induction false} ReplayUntilCleared(
    c: Classifier, ws: seq<World>, steps: seq<Step>, i: nat, j: nat, k: Key)
    requires IsRun(c, ws, steps) && i <= j < |ws| && k in ws[i].s.resolved
    requires |ws| == |steps| + 1 && forall n :: i <= n < j ==> !Clears(ws[n], steps[n], k)
    ensures k in ws[j].s.resolved && ws[j].s.resolved[k] == ws[i].s.resolved[k]
    ensures NoDispatchOf(ws[j].log, |ws[i].log|, k)
  {
    hide *;
    if i < j {
      ReplayUntilCleared(c, ws, steps, i, j - 1, k);
      RunStep(c, ws, steps, j - 1);
      LogPrefix(c, ws, steps, i, j - 1);
      StepKeepsOutcome(c, ws[j - 1], steps[j - 1], k);
      LogPrefix(c, ws, steps, j - 1, j);
      NoDispatchTwice(ws[j - 1], ws[j], k, |ws[i].log|);
    } else {
      NothingLoggedSince(ws[i], k);
    }
  }

  /** Those steps do forget it, and after each of them the key's tab is no longer in its session. */
  lemma OutcomeEndsExactlyWhenCleared(c: Classifier, ws: seq<World>, steps: seq<Step>, n: nat, k: Key)
    requires IsRun(c, ws, steps) && n < |steps| && k in ws[n].s.resolved
    ensures n + 1 < |ws| && (k in ws[n + 1].s.resolved <==> !Clears(ws[n], steps[n], k))
    ensures Clears(ws[n], steps[n], k) ==> !TabLives(ws[n + 1], k)
  {
    hide *;
    RunStep(c, ws, steps, n);
    if Clears(ws[n], steps[n], k) {
      ClearingForgets(c, ws[n], steps[n], k);
    } else {
      StepKeepsOutcome(c, ws[n], steps[n], k);
      KeptIsThere(ws[n], ws[n + 1], k);
    }
  }

  lemma KeptIsThere(w: World, v: World, k: Key)
    requires k in w.s.resolved && OutcomeKept(w, v, k)
    ensures k in v.s.resolved
  {
  }

  lemma ClearingForgets(c: Classifier, w: World, step: Step, k: Key)
    requires Inv(c, w) && Enabled(w, step) && k in w.s.resolved && Clears(w, step, k)
    ensures k !in Apply(c, w, step).s.resolved && !TabLives(Apply(c, w, step), k)
  {
    StateParts(c, w);
    ResolvedIsAttended(c, w, k);
    hide Inv, MapsCoherent;
    if EndsTab(w, step, k) {
      hide SessionsInv, AttendedKey, Apply, Enabled;
      EndingKnowsNothing(c, w, step, k);
    } else {
      hide TabsDisjoint, EndsTab;
    }
  }

  lemma ResolvedIsAttended(c: Classifier, w: World, k: Key)
    requires Inv(c, w) && k in w.s.resolved
    ensures AttendedKey(w, k)
  {
  }

  /** The same, for as long as the tab is seen in its session. */
  lemma ReplayWhileTabLives(c: Classifier, ws: seq<World>, steps: seq<Step>, i: nat, j: nat, k: Key)
    requires IsRun(c, ws, steps) && i <= j < |ws| && k in ws[i].s.resolved
    requires forall n :: i < n <= j ==> TabLives(ws[n], k)
    ensures k in ws[j].s.resolved && ws[j].s.resolved[k] == ws[i].s.resolved[k]
    ensures NoDispatchOf(ws[j].log, |ws[i].log|, k)
    decreases j - i
  {
    hide *;
    RunLength(c, ws, steps);
    if i < j {
      ReplayWhileTabLives(c, ws, steps, i, j - 1, k);
      OutcomeEndsExactlyWhenCleared(c, ws, steps, j - 1, k);
      assert TabLives(ws[j], k);
      RunStep(c, ws, steps, j - 1);
      LogPrefix(c, ws, steps, i, j - 1);
      StepKeepsOutcome(c, ws[j - 1], steps[j - 1], k);
      LogPrefix(c, ws, steps, j - 1, j);
      NoDispatchTwice(ws[j - 1], ws[j], k, |ws[i].log|);
    } else {
      NothingLoggedSince(ws[i], k);
    }
  }

  lemma NothingLoggedSince(w: World, k: Key)
    ensures NoDispatchOf(w.log, |w.log|, k)
  {
  }

  lemma NoDispatchTwice(w: World, v: World, k: Key, from: nat)
    requires k in w.s.resolved && OutcomeKept(w, v, k) && w.log <= v.log
    requires from <= |w.log| && NoDispatchOf(w.log, from, k)
    ensures k in v.s.resolved && v.s.resolved[k] == w.s.resolved[k] && NoDispatchOf(v.log, from, k)
  {
    assert forall m :: 0 <= m < |w.log| ==> v.log[m] == w.log[m];
  }

  /** An approved action that was sent is not sent again, whatever the transport answered and whether or
      not its receipt could be written, until a step that ends its tab or removes every attended
      session. */
  lemma {:induction false} ApprovedActionIsSentOnce(
    c: Classifier, ws: seq<World>, steps: seq<Step>, i: nat, j: nat)
    requires IsRun(c, ws, steps) && i < j < |ws| && steps[i].Execute?
    requires ws[i].holder.Executing? && |ws| == |steps| + 1
    requires forall n :: i < n < j ==> !Clears(ws[n], steps[n], ws[i].holder.p.key)
    ensures var k := ws[i].holder.p.key;
            && NoDispatchOf(ws[j].log, |ws[i].log| + 1, k)
            && (k in ws[j].s.resolved || (ws[j].holder.Recording? && ws[j].holder.p.key == k))
  {
    hide *;
    var k := ws[i].holder.p.key;
    RunLength(c, ws, steps);
    if i + 1 == j {
      RunStep(c, ws, steps, i);
      ExecuteIsRecorded(c, ws[i], steps[i]);
    } else {
      ApprovedActionIsSentOnce(c, ws, steps, i, j - 1);
      RunStep(c, ws, steps, i);
      ExecuteIsRecorded(c, ws[i], steps[i]);
      RunStep(c, ws, steps, j - 1);
      LogPrefix(c, ws, steps, i + 1, j - 1);
      SentStaysSent(c, ws[j - 1], steps[j - 1], k, |ws[i].log| + 1);
    }
  }

  lemma ExecuteIsRecorded(c: Classifier, w: World, step: Step)
    requires Enabled(w, step) && step.Execute? && w.holder.Executing?
    ensures var v := Apply(c, w, step);
            && v.holder.Recording? && v.holder.p == w.holder.p && |v.log| == |w.log| + 1
            && NoDispatchOf(v.log, |w.log| + 1, w.holder.p.key)
  {
  }

  lemma SentStaysSent(c: Classifier, w: World, step: Step, k: Key, from: nat)
    requires Inv(c, w) && Enabled(w, step) && !Clears(w, step, k)
    requires from <= |w.log| && NoDispatchOf(w.log, from, k)
    requires k in w.s.resolved || (w.holder.Recording? && w.holder.p.key == k)
    ensures NoDispatchOf(Apply(c, w, step).log, from, k)
    ensures var v := Apply(c, w, step); k in v.s.resolved || (v.holder.Recording? && v.holder.p.key == k)
  {
    hide *;
    LogStep(c, w, step);
    if k in w.s.resolved {
      StepKeepsOutcome(c, w, step, k);
      NoDispatchTwice(w, Apply(c, w, step), k, from);
    } else if OutsideLock(step) {
      OutsideKeepsHolder(c, w, step);
    } else {
      RecordLeavesOutcome(c, w, step);
    }
  }

  predicate KnowsNothingOf(s: State, k: Key) {
    Untouched(s, k) && forall id :: id in s.pending ==> s.pending[id].key != k
  }

  lemma ForgottenKnowsNothing(s: State, m: Match, k: Key)
    requires MapsCoherent(s) && Matches(m, k)
    ensures KnowsNothingOf(Forgotten(s, m), k) && Forgotten(s, m).sessions == s.sessions
  {
    if k in s.byAction {
      assert s.byAction[k] in MatchedIds(s, m) && s.pending[s.byAction[k]].key == k;
    }
  }

  lemma ReleasedKnowsNothing(s: State, k: Key)
    requires MapsCoherent(s) && k.session in s.sessions && k.tab in s.sessions[k.session].tabs
    ensures var t := TabReleased(s, k.tab);
            KnowsNothingOf(t, k) && k.tab !in t.sessions[k.session].tabs
  {
    hide KnowsNothingOf, Forgotten;
    var ids := Holders(s, k.tab);
    ForgottenKnowsNothing(s.(sessions := WithoutTab(s.sessions, ids, k.tab)), Match(ids, Some(k.tab)), k);
  }

  lemma ClosedTabKnowsNothing(s: State, k: Key)
    requires MapsCoherent(s)
    ensures var t := TabClosed(s, k.session, k.tab);
            KnowsNothingOf(t, k) && (k.session in t.sessions ==> k.tab !in t.sessions[k.session].tabs)
  {
    hide KnowsNothingOf, Forgotten;
    var ids := {k.session};
    ForgottenKnowsNothing(s.(sessions := WithoutTab(s.sessions, ids, k.tab)), Match(ids, Some(k.tab)), k);
  }

  lemma ClosedSessionKnowsNothing(s: State, k: Key)
    requires MapsCoherent(s)
    ensures var t := SessionClosed(s, k.session); KnowsNothingOf(t, k) && k.session !in t.sessions
  {
    hide KnowsNothingOf, Forgotten;
    ForgottenKnowsNothing(SessionRemoved(s, k.session), Match({k.session}, None), k);
  }

  lemma EndingKnowsNothing(c: Classifier, w: World, step: Step, k: Key)
    requires MapsCoherent(w.s) && Enabled(w, step) && EndsTab(w, step, k)
    ensures !TabLives(Apply(c, w, step), k) && KnowsNothingOf(Apply(c, w, step).s, k)
  {
    hide KnowsNothingOf, TabReleased, TabClosed, SessionClosed, MapsCoherent;
    if step.ReleaseTab? {
      ReleasedKnowsNothing(w.s, k);
    } else if step.FinishTab? {
      ClosedTabKnowsNothing(w.s, k);
    } else {
      ClosedSessionKnowsNothing(w.s, k);
    }
  }

  /** When its tab ends, everything kept about an action is forgotten: a later identical call is neither
      replayed nor still waiting. */
  lemma EndedTabIsForgotten(c: Classifier, ws: seq<World>, steps: seq<Step>, i: nat, k: Key)
    requires IsRun(c, ws, steps) && i < |steps| && EndsTab(ws[i], steps[i], k)
    ensures i + 1 < |ws| && !TabLives(ws[i + 1], k) && KnowsNothingOf(ws[i + 1].s, k)
  {
    hide *;
    RunStep(c, ws, steps, i);
    StateParts(c, ws[i]);
    EndingKnowsNothing(c, ws[i], steps[i], k);
  }

  // ----- Revocation -----

  /** A revocation of the caller's access. */
  predicate Revokes(step: Step, caller: Caller) {
    match step
    case Shutdown => true
    case SetEnabled(enabled) => !enabled && caller.Task?
    case SetPolicy(policy) => !PolicyAllows(policy, KindOf(caller))
    case RevokeRoutine(job) => caller == Routine(job)
    case _ => false
  }

  /** While attended access is blocked no session is an attended one, and none is of a kind
      the remote policy disables. */
  lemma NoSessionOutlivesItsAccess(c: Classifier, ws: seq<World>, steps: seq<Step>, n: nat, id: Id)
    requires IsRun(c, ws, steps) && n < |ws| && id in ws[n].s.sessions
    ensures ws[n].s.blocked ==> ws[n].s.sessions[id].routine.Some?
    ensures PolicyAllows(ws[n].s.policy, ws[n].s.sessions[id].kind)
    ensures ws[n].s.sessions[id].kind.Managed? <==> ws[n].s.sessions[id].routine.Some?
  {
    InvRun(c, ws, steps, n);
    hide LegalLog, HolderInv, GrantsInv, PendingInv, KeysInv, MapsCoherent;
  }

  lemma RevocationRemoves(c: Classifier, w: World, step: Step, id: Id)
    requires Inv(c, w) && Enabled(w, step) && id in w.starts && Revokes(step, w.starts[id].caller)
    ensures id !in Apply(c, w, step).s.sessions && Apply(c, w, step).starts == w.starts
  {
    hide LegalLog, HolderInv, GrantsInv, PendingInv, KeysInv, MapsCoherent, TabsDisjoint;
  }

  /** Only a start outside the lock adds a session. */
  lemma SectionAddsNoSession(c: Classifier, w: World, step: Step)
    requires Enabled(w, step) && !MovesHolder(step) && !OutsideLock(step)
    ensures var v := Apply(c, w, step);
            v.starts == w.starts && forall id :: id in v.s.sessions ==> id in w.s.sessions
  {
    hide MatchedIds, KeysOf, Matches, AllExpired;
    if step.Expire? {
      AllExpiredSessions(w.s, w.holder.expired);
    }
  }

  lemma OvertakenOutside(c: Classifier, w: World, step: Step, id: Id)
    requires Enabled(w, step) && id in w.starts && w.starts[id].phase != Ended(true) && id !in w.s.sessions
    requires OutsideLock(step)
    ensures var v := Apply(c, w, step);
            id in v.starts && v.starts[id].phase != Ended(true) && id !in v.s.sessions
  {
    hide Admitted;
  }

  lemma OvertakenStays(c: Classifier, w: World, step: Step, id: Id)
    requires Enabled(w, step) && id in w.starts && w.starts[id].phase != Ended(true) && id !in w.s.sessions
    ensures var v := Apply(c, w, step);
            id in v.starts && v.starts[id].phase != Ended(true) && id !in v.s.sessions
  {
    hide Apply, Enabled;
    if MovesHolder(step) {
      MovesOnlyHolder(c, w, step);
    } else if OutsideLock(step) {
      OvertakenOutside(c, w, step, id);
    } else {
      SectionAddsNoSession(c, w, step);
    }
  }

  lemma {:induction false} AllExpiredSessions(s: State, expired: seq<Pending>)
    ensures AllExpired(s, expired).sessions == s.sessions
  {
    if expired != [] {
      AllExpiredSessions(s, expired[..|expired| - 1]);
    }
  }

  /** A start overlapped by a revocation of its caller never reports success, and its session does
      not come back. */
  lemma {:induction false} OvertakenStartFails(
    c: Classifier, ws: seq<World>, steps: seq<Step>, i: nat, j: nat, id: Id)
    requires IsRun(c, ws, steps) && i < j < |ws|
    requires id in ws[i].starts && !ws[i].starts[id].phase.Ended? && Revokes(steps[i], ws[i].starts[id].caller)
    ensures id in ws[j].starts && ws[j].starts[id].phase != Ended(true) && id !in ws[j].s.sessions
  {
    hide *;
    RunLength(c, ws, steps);
    RunStep(c, ws, steps, j - 1);
    if i + 1 == j {
      RevocationRemoves(c, ws[i], steps[i], id);
    } else {
      OvertakenStartFails(c, ws, steps, i, j - 1, id);
      OvertakenStays(c, ws[j - 1], steps[j - 1], id);
    }
  }

  lemma RevocationEmpties(c: Classifier, w: World, step: Step)
    requires SessionsInv(w) && Enabled(w, step) && Revokes(step, Task)
    ensures var s := Apply(c, w, step).s;
            s.pending == map[] && s.byAction == map[] && s.resolved == map[]
            && forall x :: x in s.sessions ==> s.sessions[x].routine.Some?
  {
    hide TabsDisjoint;
  }

  /** A revocation of attended access leaves no attended session and no approval: what was pending can
      never act unless the user's approval had already been taken. */
  lemma RevocationWithdrawsApprovals(c: Classifier, ws: seq<World>, steps: seq<Step>, i: nat, j: nat, id: Id)
    requires IsRun(c, ws, steps) && i < j < |ws| && Revokes(steps[i], Task)
    requires id in ws[i].s.pending && !Carries(ws[i].holder, id)
    ensures var s := ws[i + 1].s;
            s.pending == map[] && forall x :: x in s.sessions ==> s.sessions[x].routine.Some?
    ensures Spent(ws[j], id) && NoActionOn(ws[j].log, |ws[i].log|, id)
  {
    hide *;
    RunLength(c, ws, steps);
    RunStep(c, ws, steps, i);
    StateParts(c, ws[i]);
    RevocationEmpties(c, ws[i], steps[i]);
    WithdrawnApprovalNeverActs(c, ws, steps, i, j, id);
  }

  /** A start is answered with success exactly when its caller is still admitted and its session is
      still there and still the caller's. */
  lemma StartSucceedsExactlyWhenOwned(c: Classifier, ws: seq<World>, steps: seq<Step>, i: nat, id: Id)
    requires IsRun(c, ws, steps) && i < |steps| && steps[i] == ConfirmSession(id)
    ensures i + 1 < |ws| && id in ws[i].starts && id in ws[i + 1].starts
    ensures ws[i + 1].starts[id].phase == Ended(true)
            <==> Admitted(ws[i].s, ws[i].starts[id].caller) && id in ws[i].s.sessions
    ensures ws[i + 1].s == ws[i].s
  {
    RunStep(c, ws, steps, i);
    StateParts(c, ws[i]);
    hide Inv, Admitted;
  }

  /** Which sessions a revocation spares. */
  predicate Spares(step: Step, session: Session) {
    match step
    case SetEnabled(enabled) => enabled || session.routine.Some?
    case SetPolicy(policy) => if session.routine.Some? then policy.managed else policy.attended
    case RevokeRoutine(job) => session.routine != Some(job)
    case _ => false
  }

  /** Turning attended access off, by the switch or by the policy, leaves every routine session as it
      was and removes the others; revoking a routine removes that routine's sessions and no other. */
  lemma RevocationIsExact(c: Classifier, ws: seq<World>, steps: seq<Step>, i: nat, id: Id)
    requires IsRun(c, ws, steps) && i < |steps|
    requires steps[i].SetEnabled? || steps[i].SetPolicy? || steps[i].RevokeRoutine?
    ensures i + 1 < |ws|
    ensures id in ws[i + 1].s.sessions <==> id in ws[i].s.sessions && Spares(steps[i], ws[i].s.sessions[id])
    ensures id in ws[i + 1].s.sessions ==> ws[i + 1].s.sessions[id] == ws[i].s.sessions[id]
  {
    hide *;
    RunStep(c, ws, steps, i);
    StateParts(c, ws[i]);
    SparedByStep(c, ws[i], steps[i], id);
  }

  lemma SparedByStep(c: Classifier, w: World, step: Step, id: Id)
    requires SessionsInv(w) && Enabled(w, step) && (step.SetEnabled? || step.SetPolicy? || step.RevokeRoutine?)
    ensures var v := Apply(c, w, step);
            && (id in v.s.sessions <==> id in w.s.sessions && Spares(step, w.s.sessions[id]))
            && (id in v.s.sessions ==> v.s.sessions[id] == w.s.sessions[id])
  {
    assert id in w.s.sessions ==> OwnsSession(w.s, w.starts[id].caller, id);
    hide SessionsInv;
  }

  /** The lock's holder is carrying an approval towards its action. */
  predicate Carries(h: Holder, id: Id) {
    match h
    case Taking(p, _) => p.id == id
    case CheckingAccess(p, _) => p.id == id
    case CheckingPolicy(p, _) => p.id == id
    case CheckingSession(p, _) => p.id == id
    case Reinspecting(p, _) => p.id == id
    case Executing(p, _) => p.id == id
    case _ => false
  }

  predicate Spent(w: World, id: Id) {
    id in w.used && id !in w.s.pending && !Carries(w.holder, id)
  }

  predicate NoActionOn(log: seq<Entry>, from: nat, id: Id) {
    forall m :: from <= m < |log| ==>
      (log[m].Approves? ==> log[m].p.id != id)
      && (log[m].Dispatches? && log[m].approval.Some? ==> log[m].approval.value.id != id)
  }

  lemma AllExpiredPending(c: Classifier, w: World)
    requires Inv(c, w) && w.holder.Pruning?
    ensures AllExpired(w.s, w.holder.expired).pending.Keys <= w.s.pending.Keys
  {
    AllExpiredRetires(w.s, w.holder.expired);
  }

  lemma CarriesOnlyPending(c: Classifier, w: World, step: Step, id: Id)
    requires MapsCoherent(w.s) && Enabled(w, step) && Carries(Apply(c, w, step).holder, id)
    ensures Carries(w.holder, id) || (id in w.s.pending && Apply(c, w, step).s == w.s)
  {
    hide SessionInserted, SessionRemoved, TabInserted, EnabledSet, PolicySet, RoutineRevoked, TabReleased, TabClosed,
      SessionClosed, Drained, Parked, Taken, Resolved, AllExpired, OutcomeRecorded, Expired;
    hide Admitted, OwnsSession, AccessEnabled, ClassOf;
  }

  /** Only parking adds a pending approval, under a fresh id. */
  predicate PendingFrom(w: World, step: Step, v: World) {
    && w.used <= v.used
    && forall x :: x in v.s.pending ==> x in w.s.pending || (step.Park? && x == step.id)
  }

  lemma RevokingPendingFrom(c: Classifier, w: World, step: Step)
    requires Enabled(w, step) && !MovesHolder(step)
    requires OutsideLock(step) || step.SetEnabled? || step.SetPolicy? || step.RevokeRoutine? || step.ReleaseTab?
             || step.FinishTab? || step.FinishSession?
    ensures PendingFrom(w, step, Apply(c, w, step))
  {
    hide Admitted, OwnsSession, Matches, KeysOf;
  }

  lemma WritingPendingFrom(c: Classifier, w: World, step: Step)
    requires Enabled(w, step) && (step.Inspect? || step.Reinspect? || step.Respond? || step.Act? || step.Execute?)
    ensures PendingFrom(w, step, Apply(c, w, step))
  {
    hide ClassOf, Expired;
  }

  lemma ActingPendingFrom(c: Classifier, w: World, step: Step)
    requires Enabled(w, step) && (step.Retire? || step.Record? || step.Park? || step.Take?)
    ensures PendingFrom(w, step, Apply(c, w, step))
  {
    hide SiteAllowed;
    if step.Record? {
      RecordedPending(w.s, w.holder.p, w.holder.allowSite, w.holder.outcome);
    }
    hide OutcomeRecorded;
  }

  lemma RecordedPending(s: State, p: Pending, allowSite: bool, outcome: Outcome)
    ensures OutcomeRecorded(s, p, allowSite, outcome).pending == s.pending
  {
  }

  lemma ExpirePendingFrom(c: Classifier, w: World, step: Step)
    requires Inv(c, w) && Enabled(w, step) && step.Expire?
    ensures PendingFrom(w, step, Apply(c, w, step))
  {
    AllExpiredPending(c, w);
    hide Inv;
  }

  lemma MovePendingFrom(c: Classifier, w: World, step: Step)
    requires Enabled(w, step) && MovesHolder(step)
    ensures PendingFrom(w, step, Apply(c, w, step))
  {
    MovesOnlyHolder(c, w, step);
    hide Apply;
  }

  lemma PendingOnlyByPark(c: Classifier, w: World, step: Step)
    requires Inv(c, w) && Enabled(w, step)
    ensures PendingFrom(w, step, Apply(c, w, step))
  {
    hide Inv, Apply, Enabled, PendingFrom;
    if MovesHolder(step) {
      MovePendingFrom(c, w, step);
    } else if step.Expire? {
      ExpirePendingFrom(c, w, step);
    } else if step.Retire? || step.Record? || step.Park? || step.Take? {
      ActingPendingFrom(c, w, step);
    } else if step.Inspect? || step.Reinspect? || step.Respond? || step.Act? || step.Execute? {
      WritingPendingFrom(c, w, step);
    } else {
      RevokingPendingFrom(c, w, step);
    }
  }

  lemma ActsOnlyWhenCarried(c: Classifier, w: World, step: Step, id: Id)
    requires Enabled(w, step) && !Carries(w.holder, id)
    ensures NoActionOn(Apply(c, w, step).log, |w.log|, id)
  {
    hide SessionInserted, SessionRemoved, TabInserted, EnabledSet, PolicySet, RoutineRevoked, TabReleased, TabClosed,
      SessionClosed, Drained, Parked, Taken, Resolved, AllExpired, OutcomeRecorded;
    hide Admitted, OwnsSession, ClassOf;
  }

  lemma NoActionJoins(before: seq<Entry>, after: seq<Entry>, from: nat, id: Id)
    requires from <= |before| && before <= after
    requires NoActionOn(before, from, id) && NoActionOn(after, |before|, id)
    ensures NoActionOn(after, from, id)
  {
    assert forall m :: 0 <= m < |before| ==> after[m] == before[m];
  }

  lemma SpentStays(c: Classifier, w: World, step: Step, id: Id)
    requires Inv(c, w) && Enabled(w, step) && Spent(w, id)
    ensures Spent(Apply(c, w, step), id) && NoActionOn(Apply(c, w, step).log, |w.log|, id)
  {
    StateParts(c, w);
    hide Inv, MapsCoherent, Apply, SessionsInv;
    PendingOnlyByPark(c, w, step);
    ActsOnlyWhenCarried(c, w, step, id);
    if Carries(Apply(c, w, step).holder, id) {
      CarriesOnlyPending(c, w, step, id);
    }
  }

  lemma WithdrawnIsSpent(c: Classifier, w: World, step: Step, id: Id)
    requires Inv(c, w) && Enabled(w, step) && !Carries(w.holder, id)
    requires id in w.s.pending && id !in Apply(c, w, step).s.pending
    ensures Spent(Apply(c, w, step), id) && NoActionOn(Apply(c, w, step).log, |w.log|, id)
  {
    StateParts(c, w);
    PendingIsFresh(c, w, id);
    assert w.s.pending[id].id == id;
    hide Inv, MapsCoherent, Apply, Enabled, SessionsInv, Fits, AttendedKey, Undispatched, Approved;
    PendingOnlyByPark(c, w, step);
    ActsOnlyWhenCarried(c, w, step, id);
    if Carries(Apply(c, w, step).holder, id) {
      CarriesOnlyPending(c, w, step, id);
    }
  }

  /** An approval that leaves the pending ones other than by being taken for execution, so by a
      revocation, an expiry, a decline or the end of its tab, never acts afterwards. */
  lemma {:induction false} WithdrawnApprovalNeverActs(
    c: Classifier, ws: seq<World>, steps: seq<Step>, i: nat, j: nat, id: Id)
    requires IsRun(c, ws, steps) && i < j < |ws|
    requires id in ws[i].s.pending && id !in ws[i + 1].s.pending && !Carries(ws[i].holder, id)
    ensures Spent(ws[j], id) && NoActionOn(ws[j].log, |ws[i].log|, id)
  {
    hide *;
    RunLength(c, ws, steps);
    RunStep(c, ws, steps, j - 1);
    if i + 1 == j {
      WithdrawnIsSpent(c, ws[i], steps[i], id);
    } else {
      WithdrawnApprovalNeverActs(c, ws, steps, i, j - 1, id);
      LogPrefix(c, ws, steps, i, j - 1);
      LogPrefix(c, ws, steps, j - 1, j);
      SpentStays(c, ws[j - 1], steps[j - 1], id);
      NoActionJoins(ws[j - 1].log, ws[j].log, |ws[i].log|, id);
    }
  }

  // ----- Checks made before acting -----

  /** The lock's holder is an interaction with this key. */
  predicate Interacts(h: Holder, key: Key) {
    match h
    case Scanning(next) => next == Some(key)
    case Pruning(next, _) => next == Some(key)
    case Looking(k) => k == key
    case LookingPending(k) => k == key
    case Inspecting(k) => k == key
    case Deciding(k, _, _) => k == key
    case Acting(k, _, _) => k == key
    case _ => false
  }

  /** How far an approval has been checked: access, then policy, then session and tab. */
  function ChecksPassed(h: Holder, p: Pending): nat {
    match h
    case CheckingPolicy(q, _) => if q == p then 1 else 0
    case CheckingSession(q, _) => if q == p then 2 else 0
    case Reinspecting(q, _) => if q == p then 3 else 0
    case Executing(q, _) => if q == p then 3 else 0
    case _ => 0
  }

  predicate PassesCheck(w: World, step: Step, p: Pending, check: nat) {
    match check
    case 1 => step.CheckAccess? && w.holder.CheckingAccess? && w.holder.p == p && AccessEnabled(w.s, Task)
    case 2 => step.CheckPolicy? && w.holder.CheckingPolicy? && w.holder.p == p && w.s.policy.attended
    case _ =>
      && step.CheckSession? && w.holder.CheckingSession? && w.holder.p == p
      && TabLives(w, p.key) && w.s.sessions[p.key.session].kind.Attended?
  }

  ghost predicate Passed(ws: seq<World>, steps: seq<Step>, i: nat, p: Pending, check: nat)
    requires i <= |steps| < |ws|
  {
    exists n :: 0 <= n < i && PassesCheck(ws[n], steps[n], p, check)
  }

  lemma CheckStep(c: Classifier, w: World, step: Step, p: Pending)
    requires Enabled(w, step)
    ensures var passed := ChecksPassed(Apply(c, w, step).holder, p);
            passed <= ChecksPassed(w.holder, p)
            || (passed == ChecksPassed(w.holder, p) + 1 && PassesCheck(w, step, p, passed))
  {
    hide SessionInserted, SessionRemoved, TabInserted, EnabledSet, PolicySet, RoutineRevoked, TabReleased, TabClosed,
      SessionClosed, Drained, Parked, Taken, Resolved, AllExpired, OutcomeRecorded;
    hide Admitted, OwnsSession, AccessEnabled, ClassOf;
  }

  lemma {:induction false} ChecksHavePassed(
    c: Classifier, ws: seq<World>, steps: seq<Step>, i: nat, p: Pending, check: nat)
    requires IsRun(c, ws, steps) && i < |ws| && 1 <= check <= ChecksPassed(ws[i].holder, p)
    ensures i <= |steps| < |ws| && Passed(ws, steps, i, p, check)
  {
    hide Apply, Enabled, PassesCheck, Inv;
    assert i > 0;
    RunStep(c, ws, steps, i - 1);
    CheckStep(c, ws[i - 1], steps[i - 1], p);
    hide ChecksPassed, IsRun;
    if check <= ChecksPassed(ws[i - 1].holder, p) {
      ChecksHavePassed(c, ws, steps, i - 1, p, check);
    }
  }

  /** Between the user's approval and the action, access, remote policy and the session's hold on the
      tab have each been checked again and found in order. */
  lemma ApprovedActionsAreRechecked(c: Classifier, ws: seq<World>, steps: seq<Step>, i: nat)
    requires IsRun(c, ws, steps) && i < |steps| && steps[i].Execute?
    ensures i < |ws| && ws[i].holder.Executing?
    ensures var p := ws[i].holder.p;
            exists x, y, z :: 0 <= x < i && 0 <= y < i && 0 <= z < i
              && PassesCheck(ws[x], steps[x], p, 1) && PassesCheck(ws[y], steps[y], p, 2)
              && PassesCheck(ws[z], steps[z], p, 3)
  {
    RunStep(c, ws, steps, i);
    var p := ws[i].holder.p;
    ChecksHavePassed(c, ws, steps, i, p, 1);
    ChecksHavePassed(c, ws, steps, i, p, 2);
    ChecksHavePassed(c, ws, steps, i, p, 3);
  }

  lemma InteractStep(c: Classifier, w: World, step: Step, key: Key)
    requires Enabled(w, step) && Interacts(Apply(c, w, step).holder, key)
    ensures || Interacts(w.holder, key)
            || (step == Interact(key) && Admitted(w.s, Task) && OwnsSession(w.s, Task, key.session))
  {
    hide SessionInserted, SessionRemoved, TabInserted, EnabledSet, PolicySet, RoutineRevoked, TabReleased, TabClosed,
      SessionClosed, Drained, Parked, Taken, Resolved, AllExpired, OutcomeRecorded;
    hide Admitted, OwnsSession, AccessEnabled, ClassOf;
  }

  /** The interaction in progress was admitted, under the lock, for an attended session: the call that
      began it has held the lock ever since. */
  lemma {:induction false} InteractionsWereAdmitted(
    c: Classifier, ws: seq<World>, steps: seq<Step>, i: nat, key: Key)
    requires IsRun(c, ws, steps) && i < |ws| && Interacts(ws[i].holder, key)
    ensures exists n :: 0 <= n < i && n < |steps| && steps[n] == Interact(key)
              && Admitted(ws[n].s, Task) && OwnsSession(ws[n].s, Task, key.session)
              && forall m :: n < m <= i ==> Interacts(ws[m].holder, key)
  {
    hide Apply, Enabled, Admitted, OwnsSession;
    assert i > 0;
    RunStep(c, ws, steps, i - 1);
    InteractStep(c, ws[i - 1], steps[i - 1], key);
    hide Interacts, IsRun, Inv;
    if Interacts(ws[i - 1].holder, key) {
      InteractionsWereAdmitted(c, ws, steps, i - 1, key);
    }
  }

  /** So every action sent without an approval belongs to a call that was admitted and has held the lock
      from its admission to the dispatch. */
  lemma DirectDispatchesWereAdmitted(c: Classifier, ws: seq<World>, steps: seq<Step>, i: nat)
    requires IsRun(c, ws, steps) && i < |steps|
    requires i + 1 < |ws| && |ws[i].log| < |ws[i + 1].log|
    requires var e := ws[i + 1].log[|ws[i].log|]; e.Dispatches? && e.approval.None?
    ensures var key := ws[i + 1].log[|ws[i].log|].key;
            exists n :: 0 <= n < i && steps[n] == Interact(key)
              && Admitted(ws[n].s, Task) && OwnsSession(ws[n].s, Task, key.session)
              && forall m :: n < m <= i ==> Interacts(ws[m].holder, key)
  {
    hide *;
    RunStep(c, ws, steps, i);
    var key := ws[i + 1].log[|ws[i].log|].key;
    DirectDispatchActs(c, ws[i], steps[i]);
    InteractionsWereAdmitted(c, ws, steps, i, key);
  }

  lemma DirectDispatchActs(c: Classifier, w: World, step: Step)
    requires Enabled(w, step)
    requires var v := Apply(c, w, step); |w.log| < |v.log| && v.log[|w.log|].Dispatches? && v.log[|w.log|].approval.None?
    ensures Interacts(w.holder, Apply(c, w, step).log[|w.log|].key)
  {
    hide SessionInserted, SessionRemoved, TabInserted, EnabledSet, PolicySet, RoutineRevoked, TabReleased, TabClosed,
      SessionClosed, Drained, Parked, Taken, Resolved, AllExpired, OutcomeRecorded, ClassOf, Admitted;
  }

  // ----- Settings, sessions and their tabs, step by step -----

  /** Who is admitted: the attended agent while attended use is allowed, not blocked and access is given; a
      routine while managed use is allowed and it has an enabled grant. */
  lemma AdmittedMeans(s: State, caller: Caller)
    ensures Admitted(s, caller)
            <==> match caller
                 case Task => s.policy.attended && !s.blocked && s.accessFlag
                 case Routine(job) => s.policy.managed && Grant(job, true) in s.grants
  {
  }

  /** Every setting is what the last step that sets it said. */
  lemma SettingsAreSet(c: Classifier, ws: seq<World>, steps: seq<Step>, i: nat)
    requires IsRun(c, ws, steps) && i < |steps|
    ensures i + 1 < |ws|
    ensures var s, t, step := ws[i].s, ws[i + 1].s, steps[i];
            && t.blocked == (if step.SetEnabled? then !step.enabled else if step.Shutdown? then true else s.blocked)
            && t.policy == (if step.SetPolicy? then step.policy else s.policy)
            && t.grants == (if step.SetGrants? then step.grants else s.grants)
            && t.accessFlag == (if step.SetAccessFlag? then step.present else s.accessFlag)
  {
    hide *;
    RunStep(c, ws, steps, i);
    SettingsAfter(c, ws[i], steps[i]);
  }

  predicate SameSettings(s: State, t: State) {
    t.blocked == s.blocked && t.policy == s.policy && t.grants == s.grants && t.accessFlag == s.accessFlag
  }

  lemma {:induction false} AllExpiredSettings(s: State, expired: seq<Pending>)
    ensures SameSettings(s, AllExpired(s, expired))
  {
    if expired != [] {
      AllExpiredSettings(s, expired[..|expired| - 1]);
    }
  }

  lemma LockedKeepsSettings(c: Classifier, w: World, step: Step)
    requires Enabled(w, step) && !MovesHolder(step) && !OutsideLock(step) && !step.SetEnabled? && !step.SetPolicy?
    ensures SameSettings(w.s, Apply(c, w, step).s)
  {
    if step.Expire? {
      AllExpiredSettings(w.s, w.holder.expired);
    }
    hide AllExpired, MatchedIds, KeysOf, Matches, Holders, WithoutTab, ClassOf, Expired;
  }

  lemma SettingsAfter(c: Classifier, w: World, step: Step)
    requires Enabled(w, step)
    ensures var s, t := w.s, Apply(c, w, step).s;
            && t.blocked == (if step.SetEnabled? then !step.enabled else if step.Shutdown? then true else s.blocked)
            && t.policy == (if step.SetPolicy? then step.policy else s.policy)
            && t.grants == (if step.SetGrants? then step.grants else s.grants)
            && t.accessFlag == (if step.SetAccessFlag? then step.present else s.accessFlag)
  {
    if MovesHolder(step) {
      MovesOnlyHolder(c, w, step);
      hide Apply;
    } else if OutsideLock(step) || step.SetEnabled? || step.SetPolicy? {
      hide Admitted, AttendedIds, DisabledIds, TabTaken;
    } else {
      LockedKeepsSettings(c, w, step);
      hide Apply;
    }
  }

  /** A start of an admitted caller inserts its session, empty and with no site allowed; any other start
      has failed at once and inserts nothing. */
  lemma StartsInsertSessions(c: Classifier, ws: seq<World>, steps: seq<Step>, i: nat)
    requires IsRun(c, ws, steps) && i < |steps| && steps[i].InsertSession?
    ensures i + 1 < |ws| && steps[i].id in ws[i + 1].starts
    ensures var s, v, step := ws[i].s, ws[i + 1], steps[i];
            if Admitted(s, step.caller) then
              && v.starts[step.id] == Start(step.caller, Opening)
              && v.s == s.(sessions := s.sessions[step.id :=
                   match step.caller
                   case Task => Session(Attended, None, {}, {})
                   case Routine(job) => Session(Managed, Some(job), {}, {})])
            else v.starts[step.id] == Start(step.caller, Ended(false)) && v.s == s
  {
    RunStep(c, ws, steps, i);
    hide Inv, Admitted;
  }

  /** The step grants the site to the session: an approved action that allowed it was carried out. */
  predicate GrantsSite(w: World, step: Step, id: Id, origin: Origin) {
    step.Record? && w.holder.Recording? && w.holder.allowSite && w.holder.outcome == Executed
    && w.holder.p.key.session == id && w.holder.p.origin == origin
  }

  /** The step takes the tab from the session. */
  predicate TakesTab(w: World, step: Step, id: Id, tab: int) {
    step == ReleaseTab(tab) || (step.FinishTab? && w.holder == ClosingTab(id, tab))
  }

  /** How a session that outlasts a step changes: it has a tab afterwards exactly if it had it and the step
      does not take it, or it is given one that nobody has; it may use a site without asking exactly if it
      could before or the step grants it. */
  ghost predicate SessionGoesOn(w: World, step: Step, v: World, id: Id)
    requires id in w.s.sessions && id in v.s.sessions
  {
    var a, b := w.s.sessions[id], v.s.sessions[id];
    && b.kind == a.kind && b.routine == a.routine
    && (forall tab :: tab in b.tabs
          <==> (tab in a.tabs && !TakesTab(w, step, id, tab))
               || (step == AddTab(id, tab) && forall other :: other in w.s.sessions ==> tab !in w.s.sessions[other].tabs))
    && (forall origin :: origin in b.allowed <==> origin in a.allowed || GrantsSite(w, step, id, origin))
  }

  lemma SessionsChangeExactly(c: Classifier, ws: seq<World>, steps: seq<Step>, i: nat, id: Id)
    requires IsRun(c, ws, steps) && i + 1 < |ws| && i < |steps| && id in ws[i].s.sessions && id in ws[i + 1].s.sessions
    ensures SessionGoesOn(ws[i], steps[i], ws[i + 1], id)
  {
    hide *;
    RunStep(c, ws, steps, i);
    StateParts(c, ws[i]);
    SessionAfter(c, ws[i], steps[i], id);
  }

  lemma UntouchedSession(w: World, step: Step, v: World, id: Id)
    requires id in w.s.sessions && id in v.s.sessions && v.s.sessions[id] == w.s.sessions[id]
    requires !step.AddTab? && !step.ReleaseTab? && !step.FinishTab? && !step.Record?
    ensures SessionGoesOn(w, step, v, id)
  {
  }

  lemma LockedLeavesSessions(c: Classifier, w: World, step: Step)
    requires Enabled(w, step) && LeavesSessions(step)
    ensures Apply(c, w, step).s.sessions == w.s.sessions
  {
    if step.Expire? {
      AllExpiredSessions(w.s, w.holder.expired);
    }
    hide AllExpired, ClassOf, Expired;
  }

  lemma OutsideLeavesSession(c: Classifier, w: World, step: Step, id: Id)
    requires SessionsInv(w) && Enabled(w, step) && OutsideLock(step) && !step.AddTab?
    requires id in w.s.sessions && id in Apply(c, w, step).s.sessions
    ensures Apply(c, w, step).s.sessions[id] == w.s.sessions[id]
  {
    hide Admitted, TabsDisjoint;
  }

  lemma InsertedTab(s: State, id: Id, tab: int, at: Id)
    requires id in s.sessions
    ensures var t := TabInserted(s, at, tab);
            && id in t.sessions && t.sessions[id].kind == s.sessions[id].kind
            && t.sessions[id].routine == s.sessions[id].routine && t.sessions[id].allowed == s.sessions[id].allowed
            && t.sessions[id].tabs
               == if at == id && (forall other :: other in s.sessions ==> tab !in s.sessions[other].tabs)
                  then s.sessions[id].tabs + {tab} else s.sessions[id].tabs
  {
  }

  lemma AddTabGoesOn(c: Classifier, w: World, step: Step, id: Id)
    requires Enabled(w, step) && step.AddTab? && id in w.s.sessions && id in Apply(c, w, step).s.sessions
    ensures SessionGoesOn(w, step, Apply(c, w, step), id)
  {
    InsertedTab(w.s, id, step.tab, step.id);
    assert Apply(c, w, step).s == TabInserted(w.s, step.id, step.tab);
    hide TabInserted, Apply, Enabled;
  }

  lemma TakenTabGoesOn(c: Classifier, w: World, step: Step, id: Id)
    requires Enabled(w, step) && (step.ReleaseTab? || step.FinishTab?)
    requires id in w.s.sessions && id in Apply(c, w, step).s.sessions
    ensures SessionGoesOn(w, step, Apply(c, w, step), id)
  {
    hide MatchedIds, KeysOf, Matches;
  }

  lemma RecordedSession(s: State, p: Pending, allowSite: bool, outcome: Outcome, id: Id)
    requires id in s.sessions
    ensures var t := OutcomeRecorded(s, p, allowSite, outcome);
            && id in t.sessions
            && t.sessions[id]
               == if outcome == Executed && allowSite && p.key.session == id
                  then s.sessions[id].(allowed := s.sessions[id].allowed + {p.origin}) else s.sessions[id]
  {
  }

  lemma RecordGoesOn(c: Classifier, w: World, step: Step, id: Id)
    requires Enabled(w, step) && step.Record? && id in w.s.sessions && id in Apply(c, w, step).s.sessions
    ensures SessionGoesOn(w, step, Apply(c, w, step), id)
  {
    var h := w.holder;
    RecordedSession(w.s, h.p, h.allowSite, h.outcome, id);
    assert Apply(c, w, step).s == OutcomeRecorded(w.s, h.p, h.allowSite, h.outcome);
    hide OutcomeRecorded, Apply, Enabled;
  }

  /** Steps under the lock that touch neither tabs nor granted sites. */
  predicate LeavesSessions(step: Step) {
    step.Expire? || step.Retire? || step.Act? || step.Park? || step.Respond? || step.Take? || step.Execute?
    || step.Inspect? || step.Reinspect?
  }

  lemma LockedGoesOn(c: Classifier, w: World, step: Step, id: Id)
    requires SessionsInv(w) && Enabled(w, step) && id in w.s.sessions && id in Apply(c, w, step).s.sessions
    requires LeavesSessions(step) || step.SetEnabled? || step.SetPolicy? || step.RevokeRoutine? || step.FinishSession?
    ensures SessionGoesOn(w, step, Apply(c, w, step), id)
  {
    hide Apply, Enabled, SessionGoesOn, SessionsInv;
    if LeavesSessions(step) {
      LockedLeavesSessions(c, w, step);
    } else if step.FinishSession? {
      ClosedLeavesOthers(c, w, step, id);
    } else {
      SparedByStep(c, w, step, id);
    }
    UntouchedSession(w, step, Apply(c, w, step), id);
  }

  lemma OutsideGoesOn(c: Classifier, w: World, step: Step, id: Id)
    requires SessionsInv(w) && Enabled(w, step) && (MovesHolder(step) || OutsideLock(step))
    requires id in w.s.sessions && id in Apply(c, w, step).s.sessions
    ensures SessionGoesOn(w, step, Apply(c, w, step), id)
  {
    hide Apply, Enabled, SessionGoesOn, SessionsInv;
    if step.AddTab? {
      AddTabGoesOn(c, w, step, id);
    } else {
      if MovesHolder(step) {
        MovesOnlyHolder(c, w, step);
      } else {
        OutsideLeavesSession(c, w, step, id);
      }
      UntouchedSession(w, step, Apply(c, w, step), id);
    }
  }

  lemma SessionAfter(c: Classifier, w: World, step: Step, id: Id)
    requires SessionsInv(w) && Enabled(w, step) && id in w.s.sessions && id in Apply(c, w, step).s.sessions
    ensures SessionGoesOn(w, step, Apply(c, w, step), id)
  {
    hide Apply, Enabled, SessionGoesOn, SessionsInv;
    if MovesHolder(step) || OutsideLock(step) {
      OutsideGoesOn(c, w, step, id);
    } else if step.ReleaseTab? || step.FinishTab? {
      TakenTabGoesOn(c, w, step, id);
    } else if step.Record? {
      RecordGoesOn(c, w, step, id);
    } else {
      LockedGoesOn(c, w, step, id);
    }
  }

  lemma ClosedLeavesOthers(c: Classifier, w: World, step: Step, id: Id)
    requires Enabled(w, step) && step.FinishSession? && id in w.s.sessions && id in Apply(c, w, step).s.sessions
    ensures Apply(c, w, step).s.sessions[id] == w.s.sessions[id]
  {
    hide MatchedIds, KeysOf, Matches;
  }

  /** What an approved action came to is what its key replays from then on. */
  lemma OutcomesAreRecorded(c: Classifier, ws: seq<World>, steps: seq<Step>, i: nat)
    requires IsRun(c, ws, steps) && i < |steps| && (steps[i].Record? || steps[i].Retire?)
    ensures i + 1 < |ws| && (ws[i].holder.Recording? || ws[i].holder.Retiring?) && ws[i + 1].holder == Free
    ensures var h, t := ws[i].holder, ws[i + 1].s;
            h.p.key in t.resolved && t.resolved[h.p.key] == h.outcome && h.p.id !in t.pending && h.p.key !in t.byAction
  {
    RunStep(c, ws, steps, i);
    hide IsRun, MapsCoherent, SessionsInv, KeysInv, GrantsInv, PendingInv, LegalLog;
    if steps[i].Record? {
      RecordSettles(c, ws[i]);
    } else {
      RetireSettles(ws[i]);
    }
    hide HolderInv, ApplyRecord, ApplyRetire;
  }

  lemma RecordSettles(c: Classifier, w: World)
    requires w.holder.Recording? && HolderInv(c, w)
    ensures var h, v := w.holder, ApplyRecord(w);
            && v.holder == Free && h.p.key in v.s.resolved && v.s.resolved[h.p.key] == h.outcome
            && h.p.id !in v.s.pending && h.p.key !in v.s.byAction
  {
    hide SiteGranted, AttendedKey;
  }

  lemma RetireSettles(w: World)
    requires w.holder.Retiring?
    ensures var h, v := w.holder, ApplyRetire(w);
            && v.holder == Free && h.p.key in v.s.resolved && v.s.resolved[h.p.key] == h.outcome
            && h.p.id !in v.s.pending && h.p.key !in v.s.byAction
  {
  }

  // ----- The course of a call -----

  /** How an interaction goes on, and what it writes to the history: it is admitted for the caller's own
      attended session, clears out expired approvals, replays a resolved key, waits for a pending one, looks
      at the element, and then is refused, acts at once, acts at a granted site, or parks. */
  ghost predicate InteractionGoesOn(c: Classifier, w: World, step: Step, v: World)
    requires Enabled(w, step)
  {
    var h := w.holder;
    match step
    case Interact(key) =>
      var admitted := w.s.policy.attended && !w.s.blocked && w.s.accessFlag
                      && key.session in w.s.sessions && w.s.sessions[key.session].kind == Attended
                      && w.s.sessions[key.session].routine == None;
      v.holder == (if admitted then Scanning(Some(key)) else Free) && v.log == w.log
    case ListApprovals => v.holder == Scanning(None) && v.log == w.log
    case Scan(expired, _) => v.holder == Pruning(h.next, expired) && v.log == w.log
    case Expire => v.holder == (if h.next.Some? then Looking(h.next.value) else Free) && v.log == w.log
    case Look => v.holder == (if h.key in w.s.resolved then Free else LookingPending(h.key)) && v.log == w.log
    case LookPending =>
      && v.holder == (if exists id :: id in w.s.pending && w.s.pending[id].key == h.key then Free else Inspecting(h.key))
      && v.log == w.log
    case Inspect(found) =>
      && v.holder == (match c(h.key.tool, h.key.value, found.element)
                      case SensitiveField => Free
                      case RoutineAction => Acting(h.key, found.element, found.origin)
                      case Consequential => Deciding(h.key, found.element, found.origin))
      && v.log == w.log + [Inspects(h.key, found.element, found.origin)]
    case Decide =>
      && v.holder == (if h.key.session in w.s.sessions && h.origin in w.s.sessions[h.key.session].allowed
                      then Acting(h.key, h.element, h.origin) else Parking(h.key, h.element, h.origin))
      && v.log == w.log
    case Act => v.holder == Free && v.log == w.log + [Dispatches(h.key, h.element, h.origin, None)]
    case Park(id, now) =>
      var p := Pending(id, h.key, h.origin, h.element, now);
      && v.holder == Free && v.log == w.log + [Parks(p)]
      && id in v.s.pending && v.s.pending[id] == p && h.key in v.s.byAction && v.s.byAction[h.key] == id
    case _ => true
  }

  /** How a response goes on: an approval taken for execution is checked for access, policy, session and
      tab, looked at again, carried out only if nothing changed and it still needs approval, and recorded. */
  ghost predicate ResponseGoesOn(c: Classifier, w: World, step: Step, v: World)
    requires Enabled(w, step)
  {
    var h := w.holder;
    match step
    case Respond(id, approve, allowSite, now) =>
      if id !in w.s.pending then v == w
      else v.log == w.log + [Answers(w.s.pending[id], approve, allowSite, now)]
    case Retire => v.holder == Free && v.log == w.log
    case Take => v.holder == CheckingAccess(h.p, h.allowSite) && v.log == w.log + [Approves(h.p, h.allowSite)]
    case CheckAccess =>
      && v.holder == (if !w.s.blocked && w.s.accessFlag then CheckingPolicy(h.p, h.allowSite) else Free)
      && v.log == w.log
    case CheckPolicy => v.holder == (if w.s.policy.attended then CheckingSession(h.p, h.allowSite) else Free) && v.log == w.log
    case CheckSession =>
      var id := h.p.key.session;
      && v.holder == (if id in w.s.sessions && w.s.sessions[id].kind == Attended && h.p.key.tab in w.s.sessions[id].tabs
                      then Reinspecting(h.p, h.allowSite) else Free)
      && v.log == w.log
    case Reinspect(None, stale) =>
      v.holder == Recording(h.p, h.allowSite, if stale then Stale else NotExecuted) && v.log == w.log
    case Reinspect(Some(found), _) =>
      && v.holder == (if found.element == h.p.element && found.origin == h.p.origin
                         && c(h.p.key.tool, h.p.key.value, found.element).Consequential?
                      then Executing(h.p, h.allowSite) else Recording(h.p, h.allowSite, Stale))
      && v.log == w.log + [Inspects(h.p.key, found.element, found.origin)]
    case Execute(outcome) =>
      && v.holder == Recording(h.p, h.allowSite, outcome)
      && v.log == w.log + [Dispatches(h.p.key, h.p.element, h.p.origin, Some(h.p))]
    case Record =>
      v.holder == Free && v.log == w.log + (if h.outcome == Executed then [Executes(h.p, h.allowSite)] else [])
    case _ => true
  }

  /** How closing goes on, and the rest: nothing else moves the lock's holder or writes history. */
  ghost predicate ClosingGoesOn(w: World, step: Step, v: World)
    requires Enabled(w, step)
  {
    var h := w.holder;
    match step
    case CloseTab(id, tab) =>
      var admitted := w.s.policy.attended && !w.s.blocked && w.s.accessFlag
                      && id in w.s.sessions && w.s.sessions[id].kind == Attended && w.s.sessions[id].routine == None;
      v.holder == (if admitted then CheckingTab(id, tab) else Free) && v.log == w.log
    case CloseSession(id) => v.holder == ClosingSession(id) && v.log == w.log
    case CheckTab =>
      && v.holder == (if h.session in w.s.sessions && h.tab in w.s.sessions[h.session].tabs
                      then ClosingTab(h.session, h.tab) else Free)
      && v.log == w.log
    case FinishTab => v.holder == Free && v.log == w.log
    case FinishSession => v.holder == Free && v.log == w.log
    case Fail => v.holder == Free && v.log == w.log && v.s == w.s
    case _ => OutsideLock(step) || step.SetEnabled? || step.SetPolicy? || step.RevokeRoutine? || step.ReleaseTab? ==>
                v.holder == w.holder && v.log == w.log
  }

  lemma InteractionStep(c: Classifier, w: World, step: Step)
    requires MapsCoherent(w.s) && Enabled(w, step)
    requires step.Interact? || step.ListApprovals? || step.Scan? || step.Expire? || step.Look? || step.LookPending?
    ensures InteractionGoesOn(c, w, step, Apply(c, w, step))
  {
    hide AllExpired, Expired, Snapshot;
    if step.LookPending? && w.holder.key in w.s.byAction {
      assert w.s.byAction[w.holder.key] in w.s.pending;
    }
  }

  lemma InspectionStep(c: Classifier, w: World, step: Step)
    requires Enabled(w, step) && (step.Inspect? || step.Decide? || step.Act? || step.Park?)
    ensures InteractionGoesOn(c, w, step, Apply(c, w, step))
  {
  }

  lemma CheckingStep(c: Classifier, w: World, step: Step)
    requires Enabled(w, step)
    requires step.Respond? || step.Retire? || step.Take? || step.CheckAccess? || step.CheckPolicy? || step.CheckSession?
    ensures ResponseGoesOn(c, w, step, Apply(c, w, step))
  {
    hide Resolved, Taken, Expired;
  }

  lemma ExecutionStep(c: Classifier, w: World, step: Step)
    requires Enabled(w, step) && (step.Reinspect? || step.Execute? || step.Record?)
    ensures ResponseGoesOn(c, w, step, Apply(c, w, step))
  {
    hide OutcomeRecorded;
    assert w.log + [] == w.log;
  }

  lemma ClosingStep(c: Classifier, w: World, step: Step)
    requires Enabled(w, step)
    requires step.CloseTab? || step.CloseSession? || step.CheckTab? || step.FinishTab? || step.FinishSession? || step.Fail?
    ensures ClosingGoesOn(w, step, Apply(c, w, step))
  {
    hide TabClosed, SessionClosed;
  }

  lemma RevokingStep(c: Classifier, w: World, step: Step)
    requires Enabled(w, step)
    requires OutsideLock(step) || step.SetEnabled? || step.SetPolicy? || step.RevokeRoutine? || step.ReleaseTab?
    ensures ClosingGoesOn(w, step, Apply(c, w, step))
  {
    hide SessionInserted, SessionRemoved, TabInserted, EnabledSet, PolicySet, RoutineRevoked, TabReleased, Drained, Admitted,
      OwnsSession;
  }

  /** Every call takes its course step by step. */
  lemma CallsTakeTheirCourse(c: Classifier, ws: seq<World>, steps: seq<Step>, i: nat)
    requires IsRun(c, ws, steps) && i < |steps|
    ensures i + 1 < |ws| && Enabled(ws[i], steps[i])
    ensures InteractionGoesOn(c, ws[i], steps[i], ws[i + 1])
    ensures ResponseGoesOn(c, ws[i], steps[i], ws[i + 1])
    ensures ClosingGoesOn(ws[i], steps[i], ws[i + 1])
  {
    RunStep(c, ws, steps, i);
    StateParts(c, ws[i]);
    hide Inv, IsRun, MapsCoherent, SessionsInv;
    CourseOf(c, ws[i], steps[i]);
    hide Apply, Enabled, InteractionGoesOn, ResponseGoesOn, ClosingGoesOn;
  }

  lemma CourseOf(c: Classifier, w: World, step: Step)
    requires MapsCoherent(w.s) && Enabled(w, step)
    ensures InteractionGoesOn(c, w, step, Apply(c, w, step))
    ensures ResponseGoesOn(c, w, step, Apply(c, w, step))
    ensures ClosingGoesOn(w, step, Apply(c, w, step))
  {
    hide Apply, Enabled, MapsCoherent;
    if step.Interact? || step.ListApprovals? || step.Scan? || step.Expire? || step.Look? || step.LookPending? {
      InteractionStep(c, w, step);
    } else if step.Inspect? || step.Decide? || step.Act? || step.Park? {
      InspectionStep(c, w, step);
    } else if step.Reinspect? || step.Execute? || step.Record? {
      ExecutionStep(c, w, step);
    } else if step.CloseTab? || step.CloseSession? || step.CheckTab? || step.FinishTab? || step.FinishSession? || step.Fail? {
      ClosingStep(c, w, step);
    } else if OutsideLock(step) || step.SetEnabled? || step.SetPolicy? || step.RevokeRoutine? || step.ReleaseTab? {
      RevokingStep(c, w, step);
    } else {
      CheckingStep(c, w, step);
    }
  }

  /** A start whose transport opened its session waits for the final check; one whose transport failed has
      failed, and its session is gone. */
  lemma StartsGoOn(c: Classifier, ws: seq<World>, steps: seq<Step>, i: nat)
    requires IsRun(c, ws, steps) && i < |steps| && steps[i].OpenSession?
    ensures i + 1 < |ws| && steps[i].id in ws[i + 1].starts
    ensures var v, step := ws[i + 1], steps[i];
            if step.ok then v.starts[step.id].phase == Confirming && v.s == ws[i].s
            else v.starts[step.id].phase == Ended(false) && v.s == ws[i].s.(sessions := ws[i].s.sessions - {step.id})
  {
    RunStep(c, ws, steps, i);
    hide Inv;
  }

  // ----- The lock is always released -----

  /** How many sections a call has left at most. */
  function SectionsLeft(h: Holder): nat {
    match h
    case Free => 0
    case Scanning(_) => 7
    case Pruning(_, _) => 6
    case Looking(_) => 5
    case LookingPending(_) => 4
    case Inspecting(_) => 3
    case Deciding(_, _, _) => 2
    case Acting(_, _, _) => 1
    case Parking(_, _, _) => 1
    case Retiring(_, _) => 1
    case Taking(_, _) => 7
    case CheckingAccess(_, _) => 6
    case CheckingPolicy(_, _) => 5
    case CheckingSession(_, _) => 4
    case Reinspecting(_, _) => 3
    case Executing(_, _) => 2
    case Recording(_, _, _) => 1
    case CheckingTab(_, _) => 2
    case ClosingTab(_, _) => 1
    case ClosingSession(_) => 1
  }

  /** The step is a section of the call that holds the lock, and brings it nearer to its end. */
  predicate Advances(c: Classifier, w: World, step: Step) {
    Enabled(w, step) && SectionsLeft(Apply(c, w, step).holder) < SectionsLeft(w.holder)
  }

  /** Whatever has happened before, a call that holds the lock can go on at any time without failing, and
      nothing but its own sections, each of which brings it nearer to its end, happens under the lock. So
      the lock is released after at most seven sections; a call that fails releases it at once. */
  lemma LockIsAlwaysReleased(c: Classifier, ws: seq<World>, steps: seq<Step>, n: nat, now: nat)
    requires IsRun(c, ws, steps) && n < |ws| && !ws[n].holder.Free?
    ensures SectionsLeft(ws[n].holder) <= 7
    ensures exists step :: Advances(c, ws[n], step) && !step.Fail? && (step.Scan? || step.Park? ==> step.now == now)
    ensures var h := ws[n].holder;
            (h.Scanning? || h.Pruning? || h.Inspecting? || h.Parking? || h.Retiring? || h.CheckingTab? || h.ClosingTab?
             || h.ClosingSession?) ==> Enabled(ws[n], Fail) && Apply(c, ws[n], Fail) == ws[n].(holder := Free)
    ensures forall step :: Enabled(ws[n], step) ==>
              if OutsideLock(step) then Apply(c, ws[n], step).holder == ws[n].holder else Advances(c, ws[n], step)
  {
    var w := ws[n];
    MapsStayCoherent(c, ws, steps, n);
    if CanFail(w.holder) {
      FailingReleases(c, w);
    }
    hide IsRun, MapsCoherent, TabsDisjoint, Apply, Enabled, Advances;
    forall step | Enabled(w, step)
      ensures if OutsideLock(step) then Apply(c, w, step).holder == w.holder else Advances(c, w, step)
    {
      EachSectionAdvances(c, w, step);
    }
    var step := NextSection(w, now);
    EachSectionAdvances(c, w, step);
  }

  lemma FailingReleases(c: Classifier, w: World)
    requires CanFail(w.holder)
    ensures Enabled(w, Fail) && Apply(c, w, Fail) == w.(holder := Free)
  {
  }

  lemma EachSectionAdvances(c: Classifier, w: World, step: Step)
    requires Enabled(w, step) && !w.holder.Free?
    ensures if OutsideLock(step) then Apply(c, w, step).holder == w.holder else Advances(c, w, step)
  {
    hide SessionInserted, SessionRemoved, TabInserted, EnabledSet, PolicySet, RoutineRevoked, TabReleased, Drained,
      Admitted, OwnsSession, AllExpired, Parked, Resolved, Taken, OutcomeRecorded, TabClosed, SessionClosed, Snapshot,
      AccessEnabled;
  }

  /** A section with which the holder goes on: awaits may answer anything, so any answer will do. */
  lemma NextSection(w: World, now: nat) returns (step: Step)
    requires MapsCoherent(w.s) && !w.holder.Free?
    ensures Enabled(w, step) && !OutsideLock(step) && !step.Fail? && (step.Scan? || step.Park? ==> step.now == now)
  {
    hide MapsCoherent, Expired;
    match w.holder
    case Scanning(_) =>
      var expired := ExpiredAt(w.s, w.s.pending.Keys, now);
      return Scan(expired, now);
    case Pruning(_, _) => return Expire;
    case Looking(_) => return Look;
    case LookingPending(_) => return LookPending;
    case Inspecting(_) =>
      var found: Inspection :| true;
      return Inspect(found);
    case Deciding(_, _, _) => return Decide;
    case Acting(_, _, _) => return Act;
    case Parking(_, _, _) =>
      var id := UnusedId(w.used);
      return Park(id, now);
    case Retiring(_, _) => return Retire;
    case Taking(_, _) => return Take;
    case CheckingAccess(_, _) => return CheckAccess;
    case CheckingPolicy(_, _) => return CheckPolicy;
    case CheckingSession(_, _) => return CheckSession;
    case Reinspecting(_, _) => return Reinspect(None, false);
    case Executing(_, _) => return Execute(NotExecuted);
    case Recording(_, _, _) => return Record;
    case CheckingTab(_, _) => return CheckTab;
    case ClosingTab(_, _) => return FinishTab;
    case ClosingSession(_) => return FinishSession;
  }

  lemma {:induction false} ExpiredAt(s: State, ids: set<Id>, now: nat) returns (expired: seq<Pending>)
    requires MapsCoherent(s) && ids <= s.pending.Keys
    ensures forall p :: p in expired ==> p.id in s.pending && s.pending[p.id] == p && Expired(p, now)
    ensures forall id :: id in ids && Expired(s.pending[id], now) ==> s.pending[id] in expired
    decreases |ids|
  {
    if ids == {} {
      expired := [];
    } else {
      var id :| id in ids;
      expired := ExpiredAt(s, ids - {id}, now);
      if Expired(s.pending[id], now) {
        expired := expired + [s.pending[id]];
      }
    }
  }

  lemma {:induction false} UnusedId(used: set<Id>) returns (id: Id)
    ensures id !in used
  {
    id := 0;
    var low: set<Id> := {};
    while id in used
      invariant low <= used && |low| == id && forall n: Id :: n in low ==> n < id
      decreases |used - low|
    {
      low, id := low + {id}, id + 1;
    }
  }

  /** A start that is not over can always go on, without the lock and whatever its transport answers. */
  lemma StartsNeverWait(c: Classifier, ws: seq<World>, steps: seq<Step>, n: nat, id: Id, ok: bool)
    requires IsRun(c, ws, steps) && n < |ws| && id in ws[n].starts && !ws[n].starts[id].phase.Ended?
    ensures var w, step := ws[n], if ws[n].starts[id].phase.Opening? then OpenSession(id, ok) else ConfirmSession(id);
            && Enabled(w, step) && OutsideLock(step)
            && id in Apply(c, w, step).starts
            && Apply(c, w, step).starts[id].phase != w.starts[id].phase
  {
    hide IsRun, SessionRemoved, Admitted, OwnsSession;
  }

  // ----- How long an approval is pending -----

  /** The step ends the approval: all attended use is withdrawn, its tab ends, it is found expired, it is
      answered for good, or it is taken for execution. */
  predicate EndsApproval(w: World, step: Step, id: Id)
    requires id in w.s.pending && Enabled(w, step)
  {
    var p := w.s.pending[id];
    || step.Shutdown? || step == SetEnabled(false) || (step.SetPolicy? && !step.policy.attended)
    || EndsTab(w, step, p.key)
    || (step.Expire? && p in w.holder.expired)
    || (step.Retire? && w.holder.p.id == id) || (step.Take? && w.holder.p.id == id)
  }

  ghost predicate ApprovalGoesOn(w: World, step: Step, v: World, id: Id)
    requires id in w.s.pending && Enabled(w, step)
  {
    && (id in v.s.pending <==> !EndsApproval(w, step, id))
    && (id in v.s.pending ==> v.s.pending[id] == w.s.pending[id])
  }

  /** A pending approval stays as it was parked until exactly one of those steps. */
  lemma ApprovalsEndExactlyWhen(c: Classifier, ws: seq<World>, steps: seq<Step>, i: nat, id: Id)
    requires IsRun(c, ws, steps) && i < |steps| && id in ws[i].s.pending
    ensures i + 1 < |ws| && Enabled(ws[i], steps[i]) && ApprovalGoesOn(ws[i], steps[i], ws[i + 1], id)
  {
    hide *;
    RunStep(c, ws, steps, i);
    ApprovalAfter(c, ws[i], steps[i], id);
  }

  lemma ForgottenApproval(s: State, sessions: map<Id, Session>, m: Match, id: Id)
    requires MapsCoherent(s) && id in s.pending
    ensures var t := Forgotten(s.(sessions := sessions), m);
            && (id in t.pending <==> !(s.pending[id].key.session in m.sessions
                                       && (m.tab.None? || m.tab == Some(s.pending[id].key.tab))))
            && (id in t.pending ==> t.pending[id] == s.pending[id])
  {
    hide KeysOf, MapsCoherent;
  }

  lemma ForgettingApproval(c: Classifier, w: World, step: Step, id: Id)
    requires MapsCoherent(w.s) && Enabled(w, step) && id in w.s.pending
    requires step.ReleaseTab? || step.FinishTab? || step.FinishSession?
    ensures ApprovalGoesOn(w, step, Apply(c, w, step), id)
  {
    hide Forgotten, MapsCoherent;
    var s := w.s;
    if step.ReleaseTab? {
      var ids := Holders(s, step.tab);
      ForgottenApproval(s, WithoutTab(s.sessions, ids, step.tab), Match(ids, Some(step.tab)), id);
    } else if step.FinishTab? {
      var h := w.holder;
      ForgottenApproval(s, WithoutTab(s.sessions, {h.session}, h.tab), Match({h.session}, Some(h.tab)), id);
    } else {
      ForgottenApproval(s, s.sessions - {w.holder.session}, Match({w.holder.session}, None), id);
    }
  }

  /** Nothing that could end it, and it is still there. */
  lemma UnendedApproval(w: World, step: Step, v: World, id: Id)
    requires Enabled(w, step) && id in w.s.pending && id in v.s.pending && v.s.pending[id] == w.s.pending[id]
    requires !step.Shutdown? && !step.SetEnabled? && !step.SetPolicy? && !step.ReleaseTab? && !step.FinishTab?
             && !step.FinishSession? && !step.Expire? && !step.Retire? && !step.Take?
    ensures ApprovalGoesOn(w, step, v, id)
  {
    hide Enabled;
  }

  lemma OutsideApproval(c: Classifier, w: World, step: Step, id: Id)
    requires Enabled(w, step) && id in w.s.pending && OutsideLock(step) && !step.Shutdown?
    ensures ApprovalGoesOn(w, step, Apply(c, w, step), id)
  {
    hide Admitted, TabTaken, ApprovalGoesOn;
    UnendedApproval(w, step, Apply(c, w, step), id);
  }

  lemma SettingApproval(c: Classifier, w: World, step: Step, id: Id)
    requires Enabled(w, step) && id in w.s.pending
    requires step.Shutdown? || step.SetEnabled? || step.SetPolicy? || step.RevokeRoutine?
    ensures ApprovalGoesOn(w, step, Apply(c, w, step), id)
  {
    hide AttendedIds, DisabledIds, RoutineIds, EndsTab;
    assert !EndsTab(w, step, w.s.pending[id].key) by { SettingsEndNoTab(w, step, w.s.pending[id].key); }
  }

  lemma SettingsEndNoTab(w: World, step: Step, k: Key)
    requires step.Shutdown? || step.SetEnabled? || step.SetPolicy? || step.RevokeRoutine?
    ensures !EndsTab(w, step, k)
  {
  }

  lemma EndingApproval(c: Classifier, w: World, step: Step, id: Id)
    requires MapsCoherent(w.s) && HolderInv(c, w) && Enabled(w, step) && id in w.s.pending
    requires step.Expire?
    ensures ApprovalGoesOn(w, step, Apply(c, w, step), id)
  {
    assert forall q :: q in w.holder.expired ==> Fits(w.s, q);
    assert w.s.pending[id].id == id;
    hide HolderInv, AllExpired, MapsCoherent, Fits;
    ExpiringTakes(w.s, w.holder.expired, w.s.pending[id]);
  }

  lemma TakenApproval(c: Classifier, w: World, step: Step, id: Id)
    requires Enabled(w, step) && id in w.s.pending && (step.Retire? || step.Take?)
    ensures ApprovalGoesOn(w, step, Apply(c, w, step), id)
  {
  }

  lemma KeptApproval(c: Classifier, w: World, step: Step, id: Id)
    requires Enabled(w, step) && id in w.s.pending && id in w.used
    requires step.Inspect? || step.Act? || step.Park? || step.Respond? || step.Execute? || step.Reinspect? || step.Record?
    ensures ApprovalGoesOn(w, step, Apply(c, w, step), id)
  {
    if step.Record? {
      RecordedPending(w.s, w.holder.p, w.holder.allowSite, w.holder.outcome);
    }
    hide ClassOf, Expired, OutcomeRecorded, ApprovalGoesOn;
    assert id in Apply(c, w, step).s.pending && Apply(c, w, step).s.pending[id] == w.s.pending[id];
    UnendedApproval(w, step, Apply(c, w, step), id);
  }

  lemma ApprovalAfter(c: Classifier, w: World, step: Step, id: Id)
    requires Inv(c, w) && Enabled(w, step) && id in w.s.pending
    ensures ApprovalGoesOn(w, step, Apply(c, w, step), id)
  {
    PendingIsFresh(c, w, id);
    StateParts(c, w);
    assert w.s.pending[id].id == id;
    hide MapsCoherent, SessionsInv, KeysInv, GrantsInv, PendingInv, LegalLog, HolderInv, Apply, Enabled, ApprovalGoesOn;
    if MovesHolder(step) {
      MovingApproval(c, w, step, id);
    } else if step.Shutdown? || step.SetEnabled? || step.SetPolicy? || step.RevokeRoutine? {
      SettingApproval(c, w, step, id);
    } else if OutsideLock(step) {
      OutsideApproval(c, w, step, id);
    } else if step.ReleaseTab? || step.FinishTab? || step.FinishSession? {
      ForgettingApproval(c, w, step, id);
    } else if step.Expire? {
      EndingApproval(c, w, step, id);
    } else if step.Retire? || step.Take? {
      TakenApproval(c, w, step, id);
    } else {
      KeptApproval(c, w, step, id);
    }
  }

  lemma MovingApproval(c: Classifier, w: World, step: Step, id: Id)
    requires Enabled(w, step) && MovesHolder(step) && id in w.s.pending
    ensures ApprovalGoesOn(w, step, Apply(c, w, step), id)
  {
    MovesOnlyHolder(c, w, step);
    hide Apply;
  }
}
