/** Policy updates, and how long a pushed budget and a bandwidth schedule last. */
module RelayBudgets {
  import opened Wire
  import opened Names
  import opened RelaySpec
  import opened RelayInvariant
  import opened RelayHistory

  // -- what a policy update does, all at once

  function OfLeases(regs: seq<Registration>, m: map<Label, nat>, ids: seq<LeaseId>): set<Label> {
    set l | l in m && m[l] < |regs| && regs[m[l]].lease in ids
  }

  /** Exactly the registrations under the leases are gone, and each was counted once. */
  predicate Gone(c: State, d: State, ids: seq<LeaseId>) {
    && d.agents == c.agents - OfLeases(c.regs, c.agents, ids)
    && d.pending == c.pending - OfLeases(c.regs, c.pending, ids)
    && d.revocations == c.revocations + |OfLeases(c.regs, c.agents, ids)| + |OfLeases(c.regs, c.pending, ids)|
    && d.visitors == c.visitors && d.buffered == c.buffered && d.cfg == c.cfg
    && d.version == c.version && d.applied == c.applied && d.rejected == c.rejected && d.expirations == c.expirations
  }

  lemma RevokeGone(c: State, id: LeaseId)
    requires id != ""
    ensures Gone(c, RevokeLease(c, id), [id])
  {
    hide RetireAll, CancelAll, OfLease, OfLeases;
    var active := OfLease(c.regs, c.agents, id);
    var c1 := RetireAll(c, active);
    RetireAllShape(c, active);
    CancelAllShape(c1, OfLease(c1.regs, c1.pending, id));
    OneLease(c.regs, c.regs, c.agents, id);
    OneLease(c.regs, c1.regs, c.pending, id);
  }

  lemma OneLease(regs: seq<Registration>, regs': seq<Registration>, m: map<Label, nat>, id: LeaseId)
    requires |regs| == |regs'| && forall h | 0 <= h < |regs| :: regs'[h].lease == regs[h].lease
    ensures OfLease(regs', m, id) == OfLeases(regs, m, [id])
    ensures OfLeases(regs, m, [id]) * m.Keys == OfLeases(regs, m, [id])
  {
    forall l | l in m && m[l] < |regs| ensures regs'[m[l]].lease == regs[m[l]].lease {}
  }

  lemma GoneOn(c: State, d: State, e: State, ids: seq<LeaseId>, id: LeaseId)
    requires Gone(c, d, ids) && Gone(d, e, [id]) && id !in ids && Releases(c, d)
    ensures Gone(c, e, ids + [id])
  {
    LeavesOthers(c.regs, d.regs, c.agents, ids, id);
    LeavesOthers(c.regs, d.regs, c.pending, ids, id);
  }

  lemma LeavesOthers(regs: seq<Registration>, regs': seq<Registration>, m: map<Label, nat>, ids: seq<LeaseId>, id: LeaseId)
    requires AllEvolve(regs, regs') && |regs| == |regs'| && id !in ids
    ensures var m' := m - OfLeases(regs, m, ids);
            && OfLeases(regs', m', [id]) == OfLeases(regs, m, [id])
            && OfLeases(regs, m, ids + [id]) == OfLeases(regs, m, ids) + OfLeases(regs, m, [id])
            && |OfLeases(regs, m, ids + [id])| == |OfLeases(regs, m, ids)| + |OfLeases(regs, m, [id])|
            && m' - OfLeases(regs, m, [id]) == m - OfLeases(regs, m, ids + [id])
  {
    var m' := m - OfLeases(regs, m, ids);
    forall l | l in m && m[l] < |regs| ensures regs'[m[l]].lease == regs[m[l]].lease {
      assert Evolves(regs[m[l]], regs'[m[l]]);
    }
    assert OfLeases(regs', m', [id]) == OfLeases(regs, m, [id]);
    assert OfLeases(regs, m, ids + [id]) == OfLeases(regs, m, ids) + OfLeases(regs, m, [id]);
    assert OfLeases(regs, m, ids) !! OfLeases(regs, m, [id]);
  }

  lemma {:induction false} RevokeEachGone(c: State, ids: seq<LeaseId>)
    requires Distinct(ids) && "" !in ids
    ensures Gone(c, RevokeEach(c, ids), ids)
    decreases |ids|
  {
    hide RevokeLease, Releases, Gone;
    if ids == [] {
      GoneNone(c);
    } else {
      var n := |ids| - 1;
      var c1 := RevokeEach(c, ids[..n]);
      RevokeEachGone(c, ids[..n]);
      RevokeEachReleases(c, ids[..n]);
      assert ids[n] !in ids[..n] && ids[n] != "" && ids == ids[..n] + [ids[n]];
      RevokeGone(c1, ids[n]);
      GoneOn(c, c1, RevokeLease(c1, ids[n]), ids[..n], ids[n]);
    }
  }

  lemma GoneNone(c: State)
    ensures Gone(c, c, [])
  {
    assert OfLeases(c.regs, c.agents, []) == {} && OfLeases(c.regs, c.pending, []) == {};
    assert c.agents - {} == c.agents && c.pending - {} == c.pending;
  }

  // -- budgets

  /** Work is about labels, slots and bytes, and not about budgets. */
  lemma SameWork(c: State, d: State, a: Account)
    requires d.agents == c.agents && d.pending == c.pending && d.visitors == c.visitors && d.buffered == c.buffered
    requires |d.regs| == |c.regs| && forall h | 0 <= h < |c.regs| :: d.regs[h].account == c.regs[h].account
    ensures HasWork(d, a) == HasWork(c, a)
  {
    assert OfAccount(d.regs, d.agents, a) == OfAccount(c.regs, c.agents, a);
    assert OfAccount(d.regs, d.pending, a) == OfAccount(c.regs, c.pending, a);
  }

  lemma BudgetWork(c: State, a: Account, b: Budget, x: Account)
    ensures HasWork(SetBudget(c, a, b), x) == HasWork(c, x)
  {
    hide SetBudget, HasWork;
    SetBudgetShape(c, a, b);
    SameWork(c, SetBudget(c, a, b), x);
  }

  /** Only budgets differ. */
  predicate BudgetsOnly(c: State, d: State) {
    && d == c.(regs := d.regs, overrides := d.overrides)
    && |d.regs| == |c.regs|
    && forall h | 0 <= h < |c.regs| :: d.regs[h] == c.regs[h].(budget := d.regs[h].budget)
  }

  /** The budget every decision about account `a` would now use is `b`. */
  predicate Governed(c: State, a: Account, b: Budget) {
    && a in c.overrides && c.overrides[a] == b
    && forall h | 0 <= h < |c.regs| && Current(c, h) && c.regs[h].account == a :: c.regs[h].budget == b
  }

  lemma SetBudgetGoverns(c: State, a: Account, b: Budget)
    ensures var d := SetBudget(c, a, b);
            && (HasWork(c, a) ==> Governed(d, a, b))
            && (!HasWork(c, a) ==> a !in d.overrides)
  {
    hide HasWork;
  }

  lemma SetBudgetLeaves(c: State, a: Account, b: Budget, x: Account)
    requires x != a
    ensures var d := SetBudget(c, a, b);
            && (x in d.overrides <==> x in c.overrides)
            && (x in c.overrides ==> d.overrides[x] == c.overrides[x])
  {
    hide HasWork, Current;
  }

  lemma SetBudgetStillGoverned(c: State, a: Account, b: Budget, x: Account, y: Budget)
    requires x != a && Governed(c, x, y)
    ensures Governed(SetBudget(c, a, b), x, y)
  {
    hide HasWork;
  }

  /** What a list of budgets leaves behind. */
  predicate Pushed(d: State, us: seq<BudgetUpdate>) {
    forall i | 0 <= i < |us| ::
      if HasWork(d, us[i].account) then Governed(d, us[i].account, us[i].budget) else us[i].account !in d.overrides
  }

  predicate NamesAccount(us: seq<BudgetUpdate>, a: Account) { exists i | 0 <= i < |us| :: us[i].account == a }

  predicate OneEach(us: seq<BudgetUpdate>) { forall i, j | 0 <= i < j < |us| :: us[i].account != us[j].account }

  lemma {:induction false} SetBudgetsPushed(c: State, us: seq<BudgetUpdate>)
    requires OneEach(us)
    ensures var d := SetBudgets(c, us); BudgetsOnly(c, d) && Pushed(d, us)
    decreases |us|
  {
    hide HasWork, SetBudget, Governed;
    if us != [] {
      var n := |us| - 1;
      var u := us[n];
      var c1 := SetBudgets(c, us[..n]);
      SetBudgetsPushed(c, us[..n]);
      SetBudgetShape(c1, u.account, u.budget);
      SetBudgetGoverns(c1, u.account, u.budget);
      var d := SetBudget(c1, u.account, u.budget);
      forall i | 0 <= i < |us|
        ensures if HasWork(d, us[i].account) then Governed(d, us[i].account, us[i].budget) else us[i].account !in d.overrides
      {
        BudgetWork(c1, u.account, u.budget, us[i].account);
        if i < n {
          assert us[..n][i] == us[i];
          SetBudgetLeaves(c1, u.account, u.budget, us[i].account);
          if HasWork(d, us[i].account) { SetBudgetStillGoverned(c1, u.account, u.budget, us[i].account, us[i].budget); }
        }
      }
    }
  }

  lemma NamesFewer(us: seq<BudgetUpdate>, x: Account)
    requires us != [] && !NamesAccount(us, x)
    ensures !NamesAccount(us[..|us| - 1], x) && us[|us| - 1].account != x
  {
  }

  lemma {:induction false} SetBudgetsLeaves(c: State, us: seq<BudgetUpdate>, x: Account)
    requires !NamesAccount(us, x)
    ensures var d := SetBudgets(c, us);
            (x in d.overrides <==> x in c.overrides) && (x in c.overrides ==> d.overrides[x] == c.overrides[x])
    decreases |us|
  {
    hide SetBudget;
    if us != [] {
      var u := us[|us| - 1];
      NamesFewer(us, x);
      SetBudgetsLeaves(c, us[..|us| - 1], x);
      SetBudgetLeaves(SetBudgets(c, us[..|us| - 1]), u.account, u.budget, x);
    }
  }

  /** An applied update raises the version, takes away exactly the registrations of the leases
      it names, counting each once, and leaves its budgets in charge of every account that still
      has work. */
  lemma UpdateApplied(c: State, u: Update)
    requires ValidUpdate(c.version, u)
    ensures var d := ApplyUpdate(c, u);
            && d.version == u.version > c.version
            && d.applied == c.applied + 1
            && Gone(c, d.(version := c.version, applied := c.applied), Named(u))
            && Pushed(d, u.budgets)
  {
    hide RevokeEach, SetBudgets, Named, Governed, HasWork;
    UpdateParts(c.version, u);
    var c1 := RevokeEach(c, Named(u));
    var c2 := SetBudgets(c1, u.budgets);
    RevokeEachGone(c, Named(u));
    SetBudgetsPushed(c1, u.budgets);
    VersionOnly(c2, u);
  }

  lemma UpdateParts(version: int, u: Update)
    requires ValidUpdate(version, u)
    ensures Distinct(Named(u)) && "" !in Named(u) && OneEach(u.budgets)
  {
  }

  lemma VersionOnly(c: State, u: Update)
    requires Pushed(c, u.budgets)
    ensures Pushed(c.(version := u.version, applied := c.applied + 1), u.budgets)
  {
    hide HasWork;
    var d := c.(version := u.version, applied := c.applied + 1);
    forall i | 0 <= i < |u.budgets|
      ensures if HasWork(d, u.budgets[i].account) then Governed(d, u.budgets[i].account, u.budgets[i].budget)
              else u.budgets[i].account !in d.overrides
    {
      SameWork(c, d, u.budgets[i].account);
    }
  }

  // -- a pushed budget lasts as long as the account's work

  predicate SameOverride(c: State, d: State, a: Account) {
    (a in c.overrides <==> a in d.overrides) && (a in c.overrides ==> c.overrides[a] == d.overrides[a])
  }

  /** No more work for `a` in `d`, and if any is left the override is still there. */
  predicate Sticks(c: State, d: State, a: Account) {
    HasWork(d, a) ==> HasWork(c, a) && SameOverride(c, d, a)
  }

  lemma SticksOn(c: State, d: State, e: State, a: Account)
    requires Sticks(c, d, a) && Sticks(d, e, a)
    ensures Sticks(c, e, a)
  {
    hide HasWork;
  }

  lemma TidiedWork(c: State, accounts: set<Account>, a: Account)
    ensures HasWork(Tidied(c, accounts), a) == HasWork(c, a)
    ensures HasWork(c, a) ==> SameOverride(c, Tidied(c, accounts), a)
    ensures !HasWork(c, a) && a in accounts ==> a !in Tidied(c, accounts).overrides && a !in Tidied(c, accounts).schedules
    ensures a in Tidied(c, accounts).overrides ==> a in c.overrides
    ensures a in Tidied(c, accounts).schedules ==> a in c.schedules
  {
    hide HasWork;
    SameWork(c, Tidied(c, accounts), a);
  }

  /** Releasing labels and slots only takes work away. */
  lemma LessWork(c: State, d: State, a: Account)
    requires Releases(c, d) && Count(d.visitors, a) <= Count(c.visitors, a) && Count(d.buffered, a) <= Count(c.buffered, a)
    ensures HasWork(d, a) ==> HasWork(c, a)
  {
    if HasWork(d, a) {
      if l :| l in OfAccount(d.regs, d.agents, a) {
        assert Evolves(c.regs[d.agents[l]], d.regs[d.agents[l]]);
        assert l in OfAccount(c.regs, c.agents, a);
      } else if l :| l in OfAccount(d.regs, d.pending, a) {
        assert Evolves(c.regs[d.pending[l]], d.regs[d.pending[l]]);
        assert l in OfAccount(c.regs, c.pending, a);
      }
    }
  }

  /** Give labels and slots up, then tidy some accounts. */
  lemma ReleaseSticks(c: State, freed: State, accounts: set<Account>, a: Account)
    requires Releases(c, freed) && freed.overrides == c.overrides
    requires Count(freed.visitors, a) <= Count(c.visitors, a) && Count(freed.buffered, a) <= Count(c.buffered, a)
    ensures Sticks(c, Tidied(freed, accounts), a) && Sticks(c, freed, a)
  {
    hide HasWork, Releases, Tidied;
    LessWork(c, freed, a);
    TidiedWork(freed, accounts, a);
  }

  lemma RetireSticks(c: State, h: nat, why: Cause, a: Account)
    requires h < |c.regs|
    ensures Sticks(c, Retire(c, h, why), a)
  {
    hide HasWork, Tidied;
    if Current(c, h) {
      var r := c.regs[h].(accepting := false);
      var freed := SetReg(c, h, r).(agents := c.agents - {r.subdomain});
      ReleaseSticks(c, freed, {r.account}, a);
      SameWork(Tidied(freed, {r.account}), Retire(c, h, why), a) by { TidiedShape(freed, {r.account}); }
    }
  }

  lemma DisconnectSticks(c: State, h: nat, a: Account)
    requires h < |c.regs|
    ensures Sticks(c, Disconnect(c, h), a)
  {
    hide HasWork, Tidied;
    var r := c.regs[h].(stage := Done);
    ReleaseSticks(c, SetReg(c, h, r), {}, a);
    ReleaseSticks(c, SetReg(c, h, r).(agents := c.agents - {r.subdomain}), {r.account}, a);
  }

  lemma DetachReleases(c: State, labels: set<Label>)
    ensures Releases(c, Detach(c, labels))
  {
    hide Detach;
    DetachShape(c, labels);
  }

  lemma RetireAllSticks(c: State, labels: set<Label>, a: Account)
    ensures Sticks(c, RetireAll(c, labels), a)
  {
    hide HasWork, Tidied, Detach, Releases;
    DetachShape(c, labels);
    DetachReleases(c, labels);
    ReleaseSticks(c, Detach(c, labels), AccountsAt(c, labels), a);
  }

  lemma RevokeSticks(c: State, id: LeaseId, a: Account)
    ensures Sticks(c, RevokeLease(c, id), a)
  {
    hide HasWork, RetireAll, CancelAll, OfLease, Releases;
    var c1 := RetireAll(c, OfLease(c.regs, c.agents, id));
    RetireAllSticks(c, OfLease(c.regs, c.agents, id), a);
    CancelAllShape(c1, OfLease(c1.regs, c1.pending, id));
    var d := CancelAll(c1, OfLease(c1.regs, c1.pending, id));
    CancelReleases(c1, OfLease(c1.regs, c1.pending, id));
    ReleaseSticks(c1, d, {}, a);
    SticksOn(c, c1, d, a);
  }

  lemma CancelReleases(c: State, labels: set<Label>)
    ensures Releases(c, CancelAll(c, labels))
  {
    hide CancelAll;
    CancelAllShape(c, labels);
  }

  lemma {:induction false} RevokeEachSticks(c: State, ids: seq<LeaseId>, a: Account)
    ensures Sticks(c, RevokeEach(c, ids), a)
    decreases |ids|
  {
    hide HasWork, RevokeLease, Sticks;
    if ids == [] {
      ItselfSticks(c, a);
    } else {
      var c1 := RevokeEach(c, ids[..|ids| - 1]);
      RevokeEachSticks(c, ids[..|ids| - 1], a);
      RevokeSticks(c1, ids[|ids| - 1], a);
      SticksOn(c, c1, RevokeEach(c, ids), a);
    }
  }

  lemma ItselfSticks(c: State, a: Account)
    ensures Sticks(c, c, a)
  {
  }

  lemma UpdateSticks(c: State, u: Update, a: Account)
    requires !NamesAccount(u.budgets, a)
    ensures Sticks(c, ApplyUpdate(c, u), a)
  {
    hide HasWork, RevokeEach, SetBudgets, Named, NamesAccount;
    if ValidUpdate(c.version, u) {
      UpdateParts(c.version, u);
      var c1 := RevokeEach(c, Named(u));
      var c2 := SetBudgets(c1, u.budgets);
      RevokeEachSticks(c, Named(u), a);
      SetBudgetsLeaves(c1, u.budgets, a);
      SetBudgetsPushed(c1, u.budgets);
      SameWork(c1, ApplyUpdate(c, u), a);
    } else {
      SameWork(c, ApplyUpdate(c, u), a);
    }
  }

  lemma LeaveSticks(c: State, h: nat, a: Account)
    requires h < |c.regs| && c.regs[h].visitors > 0
    ensures Sticks(c, Leave(c, h), a)
  {
    hide HasWork, Tidied;
    var r := c.regs[h];
    var c1 := SetReg(c, h, r.(visitors := r.visitors - 1));
    ReleaseSticks(c, c1.(visitors := c.visitors - {r.account}), {r.account}, a);
    if Count(c.visitors, r.account) > 1 {
      ReleaseSticks(c, c1.(visitors := c.visitors[r.account := Count(c.visitors, r.account) - 1]), {}, a);
    }
  }

  lemma ReleaseBytesSticks(c: State, h: nat, n: nat, a: Account)
    requires h < |c.regs| && n <= c.regs[h].buffered
    ensures Sticks(c, Release(c, h, n), a)
  {
    hide HasWork, Tidied;
    var r := c.regs[h];
    var c1 := SetReg(c, h, r.(buffered := r.buffered - n));
    ReleaseSticks(c, c1, {}, a);
    ReleaseSticks(c, c1.(buffered := c.buffered - {r.account}), {r.account}, a);
    if Count(c.buffered, r.account) > n {
      ReleaseSticks(c, c1.(buffered := c.buffered[r.account := Count(c.buffered, r.account) - n]), {}, a);
    }
  }

  /** While account `a` has work, only an update that names it changes its override. */
  lemma StepSticks(c: State, e: Event, a: Account)
    requires Enabled(c, e) && (e.PolicyE? ==> !NamesAccount(e.u.budgets, a))
    ensures HasWork(Step(c, e), a) ==> SameOverride(c, Step(c, e), a)
  {
    hide HasWork, Abandon, Disconnect, Retire, RevokeLease, ApplyUpdate, Leave, Release, Throttle, NamesAccount, Install;
    match e
    case ClaimE(_) =>
    case InstallE(h) => InstallSticks(c, h, a);
    case AbandonE(h) => AbandonSticks(c, h, a);
    case DisconnectE(h) => DisconnectSticks(c, h, a);
    case ExpireE(h, _) => RetireSticks(c, h, LeaseOver, a);
    case RenewE(h, renewed, now, later) => RenewSticks(c, h, renewed, now, later, a);
    case RevokeE(id) => RevokeSticks(c, id, a);
    case PolicyE(u) => UpdateSticks(c, u, a);
    case VisitE(l, _) => if l in c.agents && c.agents[l] < |c.regs| { RetireSticks(c, c.agents[l], LeaseOver, a); }
    case LeaveE(h) => LeaveSticks(c, h, a);
    case ReleaseE(h, n) => ReleaseBytesSticks(c, h, n, a);
    case ThrottleE(h, n, at) => ThrottleSticks(c, h, n, at, a);
    case _ =>
  }

  lemma AbandonSticks(c: State, h: nat, a: Account)
    requires h < |c.regs|
    ensures SameOverride(c, Abandon(c, h), a)
  {
  }

  lemma InstallSticks(c: State, h: nat, a: Account)
    requires h < |c.regs|
    ensures HasWork(Install(c, h), a) ==> SameOverride(c, Install(c, h), a)
  {
    if Pending(c, h) && a == c.regs[h].account {
    }
  }

  lemma RenewSticks(c: State, h: nat, renewed: Option<Lease>, now: int, later: int, a: Account)
    requires h < |c.regs|
    ensures HasWork(Renew(c, h, renewed, now, later), a) ==> SameOverride(c, Renew(c, h, renewed, now, later), a)
  {
    hide HasWork, Retire;
    RetireSticks(c, h, Revoked, a);
    if renewed.Some? && ValidRenewal(c.regs[h], renewed.value, now) {
      var r := c.regs[h].(expiresAt := renewed.value.expiresAt, observedAt := Some(now), generation := renewed.value.generation);
      RetireSticks(SetReg(c, h, r), h, LeaseOver, a);
    }
  }

  lemma ThrottleSticks(c: State, h: nat, n: nat, now: real, a: Account)
    requires h < |c.regs|
    ensures HasWork(Throttle(c, h, n, now), a) ==> SameOverride(c, Throttle(c, h, n, now), a)
  {
    hide HasWork, Tidied, BudgetOf, NextAt;
    TidiedWork(c, c.schedules.Keys, a);
    TidiedShape(c, c.schedules.Keys);
    SameWork(c, Throttle(c, h, n, now), a);
  }

  /** From `c` on the account always has work and no update names it. */
  predicate BusyAlong(c: State, es: seq<Event>, a: Account)
    requires Run(c, es).Some?
    decreases |es|
  {
    && HasWork(c, a)
    && (es != [] ==> (es[0].PolicyE? ==> !NamesAccount(es[0].u.budgets, a)) && BusyAlong(Step(c, es[0]), es[1..], a))
  }

  lemma BusyFirst(c: State, es: seq<Event>, a: Account)
    requires Run(c, es).Some? && BusyAlong(c, es, a)
    ensures HasWork(c, a)
  {
  }

  lemma {:induction false} RunSticks(c: State, es: seq<Event>, a: Account)
    requires Run(c, es).Some? && BusyAlong(c, es, a)
    ensures SameOverride(c, Run(c, es).value, a)
    decreases |es|
  {
    hide Step, Enabled, HasWork, NamesAccount;
    if es != [] {
      StepSticks(c, es[0], a);
      BusyFirst(Step(c, es[0]), es[1..], a);
      RunSticks(Step(c, es[0]), es[1..], a);
    }
  }

  /** The last budget pushed for an account with continuous local work decides everything its
      tunnels do, whichever tunnel and whenever it was admitted. */
  lemma LastPushDecides(c: State, u: Update, i: nat, es: seq<Event>, h: nat)
    requires ValidUpdate(c.version, u) && i < |u.budgets|
    requires Run(ApplyUpdate(c, u), es).Some? && BusyAlong(ApplyUpdate(c, u), es, u.budgets[i].account)
    requires var d := Run(ApplyUpdate(c, u), es).value; h < |d.regs| && d.regs[h].account == u.budgets[i].account
    ensures BudgetOf(Run(ApplyUpdate(c, u), es).value, h) == u.budgets[i].budget
  {
    hide ApplyUpdate, HasWork, ValidUpdate, Run, BusyAlong, Gone;
    UpdateApplied(c, u);
    RunSticks(ApplyUpdate(c, u), es, u.budgets[i].account);
    BusyFirst(ApplyUpdate(c, u), es, u.budgets[i].account);
  }
}
