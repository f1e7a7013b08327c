/** Exactly which steps leave the relay remembering a budget or a schedule for an account without
    work. Retiring a tunnel tidies its account; cancelling a pending slot does not, so what
    counts is which of the two an account loses last. */
module RelayStranded {
  import opened Wire
  import opened Names
  import opened RelaySpec
  import opened RelayInvariant
  import opened RelayHistory
  import opened RelayBudgets
  import opened RelayTidy

  /** Account `a` has a label of `m` under the lease. */
  predicate Under(regs: seq<Registration>, m: map<Label, nat>, a: Account, id: LeaseId) {
    OfAccount(regs, m, a) * OfLease(regs, m, id) != {}
  }

  /** Account `a` has something besides its registrations under the leases. */
  predicate WorkBeyond(c: State, a: Account, ids: seq<LeaseId>) {
    || OfAccount(c.regs, c.agents, a) - OfLeases(c.regs, c.agents, ids) != {}
    || Count(c.visitors, a) > 0
    || Count(c.buffered, a) > 0
    || OfAccount(c.regs, c.pending, a) - OfLeases(c.regs, c.pending, ids) != {}
  }

  /** Going through the leases in order, the last that `a` has anything under has a pending slot
      of it. */
  predicate PendingLast(c: State, a: Account, ids: seq<LeaseId>) {
    exists j | 0 <= j < |ids| ::
      && Under(c.regs, c.pending, a, ids[j])
      && forall k | j < k < |ids| :: !Under(c.regs, c.agents, a, ids[k])
  }

  /** Revoking the leases takes the last work of an account that is remembered, and a pending
      slot is the last of it. */
  predicate Strands(c: State, a: Account, ids: seq<LeaseId>) {
    Remembered(c, a) && !WorkBeyond(c, a, ids) && PendingLast(c, a, ids)
  }

  predicate Kept(c: State, d: State, a: Account) {
    && SameOverride(c, d, a)
    && (a in c.schedules <==> a in d.schedules)
  }

  /** What `a` has left after the leases are revoked, and what is remembered of it. */
  predicate After(c: State, d: State, a: Account, ids: seq<LeaseId>) {
    && (HasWork(d, a) <==> WorkBeyond(c, a, ids))
    && (Remembered(d, a) <==> Remembered(c, a) && (WorkBeyond(c, a, ids) || PendingLast(c, a, ids)))
    && (Remembered(d, a) ==> Kept(c, d, a))
  }

  // -- one revocation

  lemma GoneWork(c: State, d: State, a: Account, ids: seq<LeaseId>)
    requires Gone(c, d, ids) && Releases(c, d)
    ensures HasWork(d, a) <==> WorkBeyond(c, a, ids)
  {
    LeftOver(c.regs, d.regs, c.agents, a, ids);
    LeftOver(c.regs, d.regs, c.pending, a, ids);
  }

  lemma LeftOver(regs: seq<Registration>, regs': seq<Registration>, m: map<Label, nat>, a: Account, ids: seq<LeaseId>)
    requires AllEvolve(regs, regs') && |regs| == |regs'|
    ensures OfAccount(regs', m - OfLeases(regs, m, ids), a) == OfAccount(regs, m, a) - OfLeases(regs, m, ids)
  {
    forall l | l in m && m[l] < |regs| ensures regs'[m[l]].account == regs[m[l]].account {
      assert Evolves(regs[m[l]], regs'[m[l]]);
    }
  }

  /** Retiring tunnels forgets exactly the accounts that lose their last work by it. */
  lemma RetireAllKept(c: State, labels: set<Label>, a: Account)
    ensures var d := RetireAll(c, labels);
            if HasWork(c, a) && !HasWork(d, a) then !Remembered(d, a) else Kept(c, d, a)
  {
    hide HasWork, Tidied, Detach, AccountsAt;
    var freed, accounts := Detach(c, labels), AccountsAt(c, labels);
    DetachShape(c, labels);
    TidiedWork(freed, accounts, a);
    TidiedKept(freed, accounts, a);
    DetachReleases(c, labels);
    LessWork(c, freed, a);
    if a !in accounts {
      OthersWork(c, freed, labels, a);
    } else {
      RetiredWorked(c, labels, a);
    }
  }

  lemma RetiredWorked(c: State, labels: set<Label>, a: Account)
    requires a in AccountsAt(c, labels)
    ensures HasWork(c, a)
  {
    var l :| l in labels && l in c.agents && c.agents[l] < |c.regs| && c.regs[c.agents[l]].account == a;
    assert l in OfAccount(c.regs, c.agents, a);
  }

  lemma TidiedKept(c: State, accounts: set<Account>, a: Account)
    ensures a !in accounts || HasWork(c, a) ==> Kept(c, Tidied(c, accounts), a)
  {
    hide HasWork;
  }

  lemma RevokeAfter(c: State, id: LeaseId, a: Account)
    requires id != ""
    ensures var d := RevokeLease(c, id);
            && (HasWork(d, a) <==> WorkBeyond(c, a, [id]))
            && (Remembered(d, a) <==>
                  Remembered(c, a) && (WorkBeyond(c, a, [id]) || Under(c.regs, c.pending, a, id) || !HasWork(c, a)))
            && (Remembered(d, a) ==> Kept(c, d, a))
  {
    hide HasWork, RetireAll, CancelAll, OfLease, WorkBeyond, Under, Releases, Gone;
    var active := OfLease(c.regs, c.agents, id);
    var c1 := RetireAll(c, active);
    RevokeGone(c, id);
    RevokeReleases(c, id);
    GoneWork(c, RevokeLease(c, id), a, [id]);
    RetireAllKept(c, active, a);
    CancelAllShape(c1, OfLease(c1.regs, c1.pending, id));
    WorkAfterRetiring(c, id, a);
  }

  /** What is left once the lease's tunnels are gone, its pending slots not yet. */
  lemma WorkAfterRetiring(c: State, id: LeaseId, a: Account)
    ensures HasWork(RetireAll(c, OfLease(c.regs, c.agents, id)), a) <==>
              WorkBeyond(c, a, [id]) || Under(c.regs, c.pending, a, id)
    ensures !HasWork(c, a) ==> !HasWork(RetireAll(c, OfLease(c.regs, c.agents, id)), a)
  {
    hide RetireAll, OfLease, OfLeases, OfAccount;
    var active := OfLease(c.regs, c.agents, id);
    var c1 := RetireAll(c, active);
    RetireAllShape(c, active);
    OneLease(c.regs, c.regs, c.agents, id);
    OneLease(c.regs, c.regs, c.pending, id);
    Remaining(c.regs, c1.regs, c.agents, active, a);
    Remaining(c.regs, c1.regs, c.pending, {}, a);
    var p, q := OfAccount(c.regs, c.pending, a), OfLease(c.regs, c.pending, id);
    assert p == (p - q) + p * q;
  }

  lemma Remaining(regs: seq<Registration>, regs': seq<Registration>, m: map<Label, nat>, labels: set<Label>, a: Account)
    requires |regs| == |regs'| && forall h | 0 <= h < |regs| :: regs'[h].account == regs[h].account
    ensures OfAccount(regs', m - labels, a) == OfAccount(regs, m, a) - labels
    ensures OfAccount(regs', m, a) == OfAccount(regs, m, a)
  {
  }

  // -- one revocation after the others

  lemma Beyond(regs: seq<Registration>, m: map<Label, nat>, a: Account, ids: seq<LeaseId>, id: LeaseId)
    requires id !in ids
    ensures OfAccount(regs, m, a) - OfLeases(regs, m, ids) != {} <==>
              OfAccount(regs, m, a) - OfLeases(regs, m, ids + [id]) != {} || Under(regs, m, a, id)
  {
    var all, more := OfAccount(regs, m, a) - OfLeases(regs, m, ids), OfAccount(regs, m, a) - OfLeases(regs, m, ids + [id]);
    assert all == more + OfAccount(regs, m, a) * OfLease(regs, m, id);
  }

  /** Work beyond the first leases is work beyond one more, or under that one. */
  lemma WorkSplits(c: State, a: Account, ids: seq<LeaseId>, id: LeaseId)
    requires id !in ids
    ensures WorkBeyond(c, a, ids) <==>
              WorkBeyond(c, a, ids + [id]) || Under(c.regs, c.agents, a, id) || Under(c.regs, c.pending, a, id)
  {
    hide OfAccount, OfLeases, Under;
    Beyond(c.regs, c.agents, a, ids, id);
    Beyond(c.regs, c.pending, a, ids, id);
  }

  lemma LastSplits(c: State, a: Account, ids: seq<LeaseId>, id: LeaseId)
    ensures PendingLast(c, a, ids + [id]) <==>
              Under(c.regs, c.pending, a, id) || (PendingLast(c, a, ids) && !Under(c.regs, c.agents, a, id))
  {
    hide Under, PendingLast;
    if Under(c.regs, c.pending, a, id) {
      LastNow(c, a, ids, id);
    } else if Under(c.regs, c.agents, a, id) {
      NotLast(c, a, ids, id);
    } else {
      LastStays(c, a, ids, id);
    }
  }

  lemma LastNow(c: State, a: Account, ids: seq<LeaseId>, id: LeaseId)
    requires Under(c.regs, c.pending, a, id)
    ensures PendingLast(c, a, ids + [id])
  {
    hide Under;
    assert Under(c.regs, c.pending, a, (ids + [id])[|ids|]);
  }

  lemma NotLast(c: State, a: Account, ids: seq<LeaseId>, id: LeaseId)
    requires Under(c.regs, c.agents, a, id) && !Under(c.regs, c.pending, a, id)
    ensures !PendingLast(c, a, ids + [id])
  {
    hide Under;
    var more, n := ids + [id], |ids|;
    assert more[n] == id;
    forall j | 0 <= j < |more| && Under(c.regs, c.pending, a, more[j]) ensures j < n && Under(c.regs, c.agents, a, more[n]) {
    }
  }

  lemma LastStays(c: State, a: Account, ids: seq<LeaseId>, id: LeaseId)
    requires !Under(c.regs, c.agents, a, id) && !Under(c.regs, c.pending, a, id)
    ensures PendingLast(c, a, ids + [id]) <==> PendingLast(c, a, ids)
  {
    hide Under, PendingLast;
    if PendingLast(c, a, ids) { LastUp(c, a, ids, id); }
    if PendingLast(c, a, ids + [id]) { LastDown(c, a, ids, id); }
  }

  lemma LastUp(c: State, a: Account, ids: seq<LeaseId>, id: LeaseId)
    requires PendingLast(c, a, ids) && !Under(c.regs, c.agents, a, id)
    ensures PendingLast(c, a, ids + [id])
  {
    hide Under;
    var more, n := ids + [id], |ids|;
    var j :| 0 <= j < n && Under(c.regs, c.pending, a, ids[j]) && forall k | j < k < n :: !Under(c.regs, c.agents, a, ids[k]);
    assert Under(c.regs, c.pending, a, more[j]);
    forall k | j < k < |more| ensures !Under(c.regs, c.agents, a, more[k]) {
      assert more[k] == if k < n then ids[k] else id;
    }
  }

  lemma LastDown(c: State, a: Account, ids: seq<LeaseId>, id: LeaseId)
    requires PendingLast(c, a, ids + [id]) && !Under(c.regs, c.pending, a, id)
    ensures PendingLast(c, a, ids)
  {
    hide Under;
    var more, n := ids + [id], |ids|;
    var j :| 0 <= j < |more| && Under(c.regs, c.pending, a, more[j])
             && forall k | j < k < |more| :: !Under(c.regs, c.agents, a, more[k]);
    assert j < n && Under(c.regs, c.pending, a, ids[j]);
    forall k | j < k < n ensures !Under(c.regs, c.agents, a, ids[k]) {
      assert more[k] == ids[k];
    }
  }

  /** What is under another lease is as it was. */
  lemma UnderKept(c: State, d: State, a: Account, ids: seq<LeaseId>, id: LeaseId)
    requires Gone(c, d, ids) && Releases(c, d) && id !in ids
    ensures Under(d.regs, d.pending, a, id) == Under(c.regs, c.pending, a, id)
    ensures WorkBeyond(d, a, [id]) == WorkBeyond(c, a, ids + [id])
  {
    UnderOthers(c.regs, d.regs, c.pending, a, ids, id);
    UnderOthers(c.regs, d.regs, c.agents, a, ids, id);
  }

  lemma UnderOthers(regs: seq<Registration>, regs': seq<Registration>, m: map<Label, nat>, a: Account, ids: seq<LeaseId>,
                    id: LeaseId)
    requires AllEvolve(regs, regs') && |regs| == |regs'| && id !in ids
    ensures var m' := m - OfLeases(regs, m, ids);
            && OfAccount(regs', m', a) * OfLease(regs', m', id) == OfAccount(regs, m, a) * OfLease(regs, m, id)
            && OfAccount(regs', m', a) - OfLeases(regs', m', [id]) == OfAccount(regs, m, a) - OfLeases(regs, m, ids + [id])
  {
    forall l | l in m && m[l] < |regs| ensures regs'[m[l]].account == regs[m[l]].account && regs'[m[l]].lease == regs[m[l]].lease {
      assert Evolves(regs[m[l]], regs'[m[l]]);
    }
  }

  lemma {:induction false} RevokeEachAfter(c: State, ids: seq<LeaseId>, a: Account)
    requires TidyAt(c, a) && Distinct(ids) && "" !in ids
    ensures After(c, RevokeEach(c, ids), a, ids)
    decreases |ids|
  {
    hide RevokeLease, Releases, Gone, HasWork, WorkBeyond, PendingLast, Under, Remembered, Kept;
    if ids == [] {
      NoneRevoked(c, a);
    } else {
      var n := |ids| - 1;
      var c1 := RevokeEach(c, ids[..n]);
      assert ids == ids[..n] + [ids[n]] && ids[n] !in ids[..n] && ids[n] != "";
      RevokeEachAfter(c, ids[..n], a);
      RevokeEachGone(c, ids[..n]);
      RevokeEachReleases(c, ids[..n]);
      RevokeAfter(c1, ids[n], a);
      UnderKept(c, c1, a, ids[..n], ids[n]);
      WorkSplits(c, a, ids[..n], ids[n]);
      LastSplits(c, a, ids[..n], ids[n]);
      KeptOn(c, c1, RevokeEach(c, ids), a);
    }
  }

  lemma KeptOn(c: State, d: State, e: State, a: Account)
    ensures Kept(c, d, a) && Kept(d, e, a) ==> Kept(c, e, a)
  {
  }

  lemma NoneRevoked(c: State, a: Account)
    requires TidyAt(c, a)
    ensures After(c, c, a, [])
  {
    assert OfLeases(c.regs, c.agents, []) == {} && OfLeases(c.regs, c.pending, []) == {};
    assert OfAccount(c.regs, c.agents, a) - {} == OfAccount(c.regs, c.agents, a);
    assert OfAccount(c.regs, c.pending, a) - {} == OfAccount(c.regs, c.pending, a);
  }

  // -- a policy update

  /** The budgets of an update drop the override of an account they name that has no work, and
      touch no schedule. */
  lemma {:induction false} SetBudgetsRemember(c: State, us: seq<BudgetUpdate>, a: Account)
    ensures var d := SetBudgets(c, us);
            && d.schedules == c.schedules
            && (HasWork(d, a) <==> HasWork(c, a))
            && (!HasWork(c, a) ==> (a in d.overrides <==> a in c.overrides && !NamesAccount(us, a)))
    decreases |us|
  {
    hide SetBudget, HasWork;
    if us != [] {
      var u, c1 := us[|us| - 1], SetBudgets(c, us[..|us| - 1]);
      SetBudgetsRemember(c, us[..|us| - 1], a);
      SetBudgetShape(c1, u.account, u.budget);
      BudgetWork(c1, u.account, u.budget, a);
      SetBudgetGoverns(c1, u.account, u.budget);
      if u.account != a { SetBudgetLeaves(c1, u.account, u.budget, a); }
      NamesMore(us, a);
    }
  }

  lemma NamesMore(us: seq<BudgetUpdate>, a: Account)
    requires us != []
    ensures NamesAccount(us, a) <==> NamesAccount(us[..|us| - 1], a) || us[|us| - 1].account == a
  {
    var n := |us| - 1;
    if NamesAccount(us[..n], a) {
      var i :| 0 <= i < n && us[..n][i].account == a;
      assert us[i].account == a;
    }
    if NamesAccount(us, a) && us[n].account != a {
      var i :| 0 <= i < |us| && us[i].account == a;
      assert us[..n][i].account == a;
    }
  }

  lemma UpdateTidyIff(c: State, u: Update, a: Account)
    requires TidyAt(c, a) && ValidUpdate(c.version, u)
    ensures TidyAt(ApplyUpdate(c, u), a) <==> !(Strands(c, a, Named(u)) && (NamesAccount(u.budgets, a) ==> a in c.schedules))
  {
    hide HasWork, RevokeEach, SetBudgets, Named, WorkBeyond, PendingLast, NamesAccount, ValidUpdate;
    UpdateParts(c.version, u);
    var c1 := RevokeEach(c, Named(u));
    RevokeEachAfter(c, Named(u), a);
    SetBudgetsRemember(c1, u.budgets, a);
    SameWork(SetBudgets(c1, u.budgets), ApplyUpdate(c, u), a);
  }

  /** A revocation leaves an account stranded exactly when it takes the account's last work and a
      pending slot is among it. */
  lemma RevokeTidyIff(c: State, id: LeaseId, a: Account)
    requires TidyAt(c, a) && id != ""
    ensures TidyAt(RevokeLease(c, id), a) <==> !Strands(c, a, [id])
    ensures PendingLast(c, a, [id]) <==> Under(c.regs, c.pending, a, id)
  {
    hide HasWork, RevokeLease, WorkBeyond, Under;
    RevokeAfter(c, id, a);
    assert [id][0] == id;
    if Under(c.regs, c.pending, a, id) { assert Under(c.regs, c.pending, a, [id][0]); }
  }

  // -- any step

  /** The step leaves account `a` remembered and without work. */
  predicate Leaves(c: State, e: Event, a: Account) {
    match e
    case AbandonE(h) =>
      Pending(c, h) && c.regs[h].account == a && Remembered(c, a) && !BusyElsewhere(c, a, {c.regs[h].subdomain})
    case RevokeE(id) => id != "" && Strands(c, a, [id])
    case PolicyE(u) =>
      ValidUpdate(c.version, u) && Strands(c, a, Named(u)) && (NamesAccount(u.budgets, a) ==> a in c.schedules)
    case _ => false
  }

  /** For every step and every account: what was tidy stays so exactly when the step does not
      strand the account. */
  lemma StepTidyAtIff(c: State, e: Event, a: Account)
    requires Inv(c) && Enabled(c, e) && TidyAt(c, a)
    ensures TidyAt(Step(c, e), a) <==> !Leaves(c, e, a)
  {
    hide Inv, TidyAt, Claim, Install, Abandon, Disconnect, Retire, Renew, RevokeLease, ApplyUpdate, Visit, Leave, Reserve, Release,
      Throttle, Strands, Named, ValidUpdate, NamesAccount, BusyElsewhere, Remembered;
    match e
    case ClaimE(q) => ClaimTidies(c, q, a);
    case InstallE(h) => InstallTidies(c, h, a);
    case AbandonE(h) => AbandonTidyAtIff(c, h, a);
    case DisconnectE(h) => DisconnectTidies(c, h, a);
    case ExpireE(h, now) => RetireTidies(c, h, LeaseOver, a);
    case RenewE(h, renewed, now, later) => RenewTidies(c, h, renewed, now, later, a);
    case DrainingE(h) => SetTidies(c, h, c.regs[h].(draining := true), a);
    case RevokeE(id) => if id != "" { RevokeTidyIff(c, id, a); } else { NoRevocation(c); }
    case PolicyE(u) => if ValidUpdate(c.version, u) { UpdateTidyIff(c, u, a); } else { RejectedTidies(c, u, a); }
    case VisitE(l, now) => VisitTidies(c, l, now, a);
    case LeaveE(h) => LeaveTidies(c, h, a);
    case ReserveE(h, n) => ReserveTidies(c, h, n, a);
    case ReleaseE(h, n) => ReleaseTidies(c, h, n, a);
    case ThrottleE(h, n, at) => ThrottleTidies(c, h, n, at, a);
  }

  lemma NoRevocation(c: State)
    ensures RevokeLease(c, "") == c
  {
  }

  lemma RejectedTidies(c: State, u: Update, a: Account)
    requires TidyAt(c, a) && !ValidUpdate(c.version, u)
    ensures TidyAt(ApplyUpdate(c, u), a)
  {
    hide HasWork, ValidUpdate;
    SameWork(c, ApplyUpdate(c, u), a);
  }

  lemma AbandonTidyAtIff(c: State, h: nat, a: Account)
    requires Inv(c) && h < |c.regs| && TidyAt(c, a)
    ensures TidyAt(Abandon(c, h), a) <==>
            !(Pending(c, h) && c.regs[h].account == a && Remembered(c, a) && !BusyElsewhere(c, a, {c.regs[h].subdomain}))
  {
    hide Inv, HasWork, BusyElsewhere;
    var l := c.regs[h].subdomain;
    if Pending(c, h) {
      PendingWork(c, Abandon(c, h), {l}, a);
      if c.regs[h].account != a { OthersBusy(c, l, a); }
    } else {
      AbandonedLate(c, h);
      SetTidies(c, h, c.regs[h].(stage := Done), a);
    }
  }

  /** "Budgets and schedules are kept only for accounts with local work" survives a step exactly
      when the step strands no account. */
  lemma StepTidyIff(c: State, e: Event)
    requires Inv(c) && Enabled(c, e) && Tidy(c)
    ensures Tidy(Step(c, e)) <==> forall a: Account :: !Leaves(c, e, a)
  {
    hide Inv, Step, Enabled, Leaves, TidyAt;
    forall a: Account ensures TidyAt(Step(c, e), a) <==> !Leaves(c, e, a) {
      assert TidyAt(c, a);
      StepTidyAtIff(c, e, a);
    }
  }

  /** Tidy in every state of the run. */
  ghost predicate TidyAlong(c: State, es: seq<Event>)
    requires Run(c, es).Some?
    decreases |es|
  {
    Tidy(c) && (es == [] || TidyAlong(Step(c, es[0]), es[1..]))
  }

  ghost predicate NeverLeaves(c: State, es: seq<Event>)
    requires Run(c, es).Some?
    decreases |es|
  {
    es == [] || ((forall a: Account :: !Leaves(c, es[0], a)) && NeverLeaves(Step(c, es[0]), es[1..]))
  }

  /** The same over whole runs. */
  lemma {:induction false} RunTidyIff(c: State, es: seq<Event>)
    requires Inv(c) && Run(c, es).Some? && Tidy(c)
    ensures TidyAlong(c, es) <==> NeverLeaves(c, es)
    decreases |es|
  {
    hide Inv, Step, Enabled, Leaves, Tidy;
    if es != [] {
      var d := Step(c, es[0]);
      StepKeeps(c, es[0]);
      StepTidyIff(c, es[0]);
      if Tidy(d) { RunTidyIff(d, es[1..]); } else { UntidyFirst(d, es[1..]); }
    }
  }

  lemma UntidyFirst(c: State, es: seq<Event>)
    requires Run(c, es).Some? && !Tidy(c)
    ensures !TidyAlong(c, es)
  {
  }
}
