/** What can never be undone in the relay: who a registration is, who owns a label, and that a
    connection which has lost its label stays out of the registry for good. */
module RelayHistory {
  import opened Wire
  import opened Names
  import opened RelaySpec
  import opened RelayInvariant

  predicate StageAfter(s: Stage, t: Stage) { s == t || s == Waiting || (s == Serving && t == Done) }

  /** A registration never changes hands; its lease generation and its stage only advance. */
  predicate Evolves(r: Registration, s: Registration) {
    && s.subdomain == r.subdomain && s.account == r.account && s.credential == r.credential && s.lease == r.lease
    && r.generation <= s.generation
    && StageAfter(r.stage, s.stage)
    && (r.draining ==> s.draining)
  }

  predicate AllEvolve(regs: seq<Registration>, regs': seq<Registration>) {
    |regs| <= |regs'| && forall h | 0 <= h < |regs| :: Evolves(regs[h], regs'[h])
  }

  lemma EvolveOn(a: seq<Registration>, b: seq<Registration>, c: seq<Registration>)
    requires AllEvolve(a, b) && AllEvolve(b, c)
    ensures AllEvolve(a, c)
  {
    forall h | 0 <= h < |a| ensures Evolves(a[h], c[h]) {
      assert Evolves(a[h], b[h]) && Evolves(b[h], c[h]);
    }
  }

  /** Registrations evolve and labels are at most released. */
  predicate Releases(c: State, d: State) {
    && d.cfg == c.cfg
    && AllEvolve(c.regs, d.regs) && |c.regs| == |d.regs| && SubMap(d.agents, c.agents) && SubMap(d.pending, c.pending)
  }

  lemma ReleaseOn(a: State, b: State, c: State)
    requires Releases(a, b) && Releases(b, c)
    ensures Releases(a, c)
  {
    hide Evolves;
    EvolveOn(a.regs, b.regs, c.regs);
  }

  lemma PutReleases(c: State, h: nat, r: Registration)
    requires h < |c.regs| && Evolves(c.regs[h], r)
    ensures Releases(c, SetReg(c, h, r))
  {
  }

  lemma RetireReleases(c: State, h: nat, why: Cause)
    requires h < |c.regs|
    ensures Releases(c, Retire(c, h, why))
  {
    hide Tidied;
    if Current(c, h) {
      var r := c.regs[h].(accepting := false);
      TidiedShape(SetReg(c, h, r).(agents := c.agents - {r.subdomain}), {r.account});
    }
  }

  lemma RenewReleases(c: State, h: nat, renewed: Option<Lease>, now: int, later: int)
    requires h < |c.regs|
    ensures Releases(c, Renew(c, h, renewed, now, later))
  {
    hide Retire, Releases;
    SameReleases(c);
    RetireReleases(c, h, Revoked);
    if renewed.Some? && ValidRenewal(c.regs[h], renewed.value, now) {
      var r := c.regs[h].(expiresAt := renewed.value.expiresAt, observedAt := Some(now), generation := renewed.value.generation);
      PutReleases(c, h, r);
      RetireReleases(SetReg(c, h, r), h, LeaseOver);
      SameReleases(SetReg(c, h, r));
      ReleaseOn(c, SetReg(c, h, r), Expire(SetReg(c, h, r), h, later));
    }
  }

  lemma SameReleases(c: State)
    ensures Releases(c, c)
  {
  }

  lemma RevokeReleases(c: State, id: LeaseId)
    ensures Releases(c, RevokeLease(c, id))
  {
    hide RetireAll, CancelAll, OfLease;
    var c1 := RetireAll(c, OfLease(c.regs, c.agents, id));
    RetireAllShape(c, OfLease(c.regs, c.agents, id));
    CancelAllShape(c1, OfLease(c1.regs, c1.pending, id));
  }

  lemma {:induction false} RevokeEachReleases(c: State, ids: seq<LeaseId>)
    ensures Releases(c, RevokeEach(c, ids))
    decreases |ids|
  {
    hide RevokeLease, Releases;
    if ids == [] {
      SameReleases(c);
    } else {
      var c1 := RevokeEach(c, ids[..|ids| - 1]);
      RevokeEachReleases(c, ids[..|ids| - 1]);
      RevokeReleases(c1, ids[|ids| - 1]);
      ReleaseOn(c, c1, RevokeEach(c, ids));
    }
  }

  lemma SetBudgetReleases(c: State, a: Account, b: Budget)
    ensures Releases(c, SetBudget(c, a, b))
  {
    hide SetBudget;
    SetBudgetShape(c, a, b);
  }

  lemma {:induction false} SetBudgetsReleases(c: State, us: seq<BudgetUpdate>)
    ensures Releases(c, SetBudgets(c, us))
    decreases |us|
  {
    hide SetBudget, Releases;
    if us == [] {
      SameReleases(c);
    } else {
      var u := us[|us| - 1];
      var c1 := SetBudgets(c, us[..|us| - 1]);
      SetBudgetsReleases(c, us[..|us| - 1]);
      SetBudgetReleases(c1, u.account, u.budget);
      ReleaseOn(c, c1, SetBudgets(c, us));
    }
  }

  lemma CountersRelease(c: State, d: State, version: int)
    requires Releases(c, d)
    ensures Releases(c, d.(version := version, applied := d.applied + 1)) && Releases(c, d.(rejected := d.rejected + 1))
  {
  }

  lemma UpdateReleases(c: State, u: Update)
    ensures Releases(c, ApplyUpdate(c, u))
  {
    hide RevokeEach, SetBudgets, ValidUpdate, Named, Releases;
    var c1 := RevokeEach(c, Named(u));
    RevokeEachReleases(c, Named(u));
    SetBudgetsReleases(c1, u.budgets);
    var c2 := SetBudgets(c1, u.budgets);
    ReleaseOn(c, c1, c2);
    CountersRelease(c, c2, u.version);
    CountersRelease(c, c, u.version);
    SameReleases(c);
  }

  lemma LeaveReleases(c: State, h: nat)
    requires h < |c.regs| && c.regs[h].visitors > 0
    ensures Releases(c, Leave(c, h))
  {
    hide Leave;
    LeaveShape(c, h);
  }

  lemma ReleaseReleases(c: State, h: nat, n: nat)
    requires h < |c.regs| && n <= c.regs[h].buffered
    ensures Releases(c, Release(c, h, n))
  {
    hide Release;
    ReleaseShape(c, h, n);
  }

  lemma ThrottleReleases(c: State, h: nat, n: nat, now: real)
    requires h < |c.regs|
    ensures Releases(c, Throttle(c, h, n, now))
  {
    hide Throttle;
    ThrottleShape(c, h, n, now);
  }

  lemma VisitReleases(c: State, l: Label, now: int)
    ensures Releases(c, Visit(c, l, now))
  {
    hide Retire;
    if l in c.agents && c.agents[l] < |c.regs| { RetireReleases(c, c.agents[l], LeaseOver); }
  }

  lemma DisconnectReleases(c: State, h: nat)
    requires h < |c.regs|
    ensures Releases(c, Disconnect(c, h))
  {
    hide Tidied;
    var r := c.regs[h].(stage := Done);
    TidiedShape(SetReg(c, h, r).(agents := c.agents - {r.subdomain}), {r.account});
  }

  /** Every step but two at most releases labels. */
  lemma OtherReleases(c: State, e: Event)
    requires Enabled(c, e) && !e.ClaimE? && !e.InstallE?
    ensures Releases(c, Step(c, e))
  {
    hide Releases, Abandon, Disconnect, Expire, Renew, RevokeLease, ApplyUpdate, Visit, Leave, Reserve, Release, Throttle;
    match e
    case AbandonE(h) => AbandonReleases(c, h);
    case DisconnectE(h) => DisconnectReleases(c, h);
    case ExpireE(h, now) => ExpireReleases(c, h, now);
    case RenewE(h, renewed, now, later) => RenewReleases(c, h, renewed, now, later);
    case DrainingE(h) => PutReleases(c, h, c.regs[h].(draining := true));
    case RevokeE(id) => RevokeReleases(c, id);
    case PolicyE(u) => UpdateReleases(c, u);
    case VisitE(l, now) => VisitReleases(c, l, now);
    case LeaveE(h) => LeaveReleases(c, h);
    case ReserveE(h, n) => ReserveReleases(c, h, n);
    case ReleaseE(h, n) => ReleaseReleases(c, h, n);
    case ThrottleE(h, n, at) => ThrottleReleases(c, h, n, at);
  }

  lemma AbandonReleases(c: State, h: nat)
    requires h < |c.regs|
    ensures Releases(c, Abandon(c, h))
  {
  }

  lemma ExpireReleases(c: State, h: nat, now: int)
    requires h < |c.regs|
    ensures Releases(c, Expire(c, h, now))
  {
    hide Retire;
    RetireReleases(c, h, LeaseOver);
  }

  lemma ReserveReleases(c: State, h: nat, n: nat)
    requires h < |c.regs|
    ensures Releases(c, Reserve(c, h, n))
  {
    hide ReserveAllowed;
  }

  /** A claim takes a label that nobody is waiting for and that no other account holds. */
  lemma ClaimShape(c: State, q: Hello)
    requires Inv(c)
    ensures var d := Claim(c, q);
            d == c || exists l ::
              && d == c.(regs := c.regs + [NewRegistration(c, q, l)], pending := c.pending[l := |c.regs|])
              && Unauthorized(c, q.adm, l).None? && RelayHasRoom(c, l)
  {
    hide Inv;
    var choice := ChooseLabel(c, q);
    if choice.Chosen? && Refusal(c, q, choice.value).None? {
      assert Unauthorized(c, q.adm, choice.value).None? && RelayHasRoom(c, choice.value);
    }
  }

  /** A registration's account, lease and credential are its own for life, and its lease
      generation never goes back. */
  lemma StepEvolves(c: State, e: Event)
    requires Inv(c) && Enabled(c, e)
    ensures AllEvolve(c.regs, Step(c, e).regs)
  {
    hide Inv, Claim, Install, Releases;
    if e.ClaimE? {
      ClaimShape(c, e.q);
    } else if e.InstallE? {
      if Pending(c, e.h) { InstallShape(c, e.h); } else { InstallLate(c, e.h); }
    } else {
      OtherReleases(c, e);
      AllOfReleases(c, Step(c, e));
    }
  }

  lemma AllOfReleases(c: State, d: State)
    requires Releases(c, d)
    ensures AllEvolve(c.regs, d.regs)
  {
  }

  lemma {:induction false} RunEvolves(c: State, es: seq<Event>)
    requires Inv(c) && Run(c, es).Some?
    ensures AllEvolve(c.regs, Run(c, es).value.regs)
    decreases |es|
  {
    hide Inv, Step, Enabled, AllEvolve;
    if es == [] {
      EvolveNot(c.regs);
    } else {
      StepKeeps(c, es[0]);
      StepEvolves(c, es[0]);
      RunEvolves(Step(c, es[0]), es[1..]);
      EvolveOn(c.regs, Step(c, es[0]).regs, Run(c, es).value.regs);
    }
  }

  lemma EvolveNot(regs: seq<Registration>)
    ensures AllEvolve(regs, regs)
  {
  }

  // -- label ownership

  /** Who holds a label, actively or pending. */
  function Owner(c: State, l: Label): Option<Account> {
    if l in c.agents && c.agents[l] < |c.regs| then Some(c.regs[c.agents[l]].account)
    else if l in c.pending && c.pending[l] < |c.regs| then Some(c.regs[c.pending[l]].account)
    else None
  }

  /** A label passes from one account to another only through being released, and its pending
      slot never from one connection to another. */
  lemma StepKeepsOwner(c: State, e: Event, l: Label)
    requires Inv(c) && Enabled(c, e)
    ensures var d := Step(c, e);
            && (Owner(c, l).Some? && Owner(d, l).Some? ==> Owner(d, l) == Owner(c, l))
            && (l in c.pending && l in d.pending ==> d.pending[l] == c.pending[l])
  {
    hide Inv, Claim, Install, Owner, Releases;
    if e.ClaimE? {
      ClaimOwner(c, e.q, l);
    } else if e.InstallE? {
      InstallOwner(c, e.h, l);
    } else {
      OtherReleases(c, e);
      ReleasedOwner(c, Step(c, e), l);
    }
  }

  lemma ClaimOwner(c: State, q: Hello, l: Label)
    requires Inv(c)
    ensures var d := Claim(c, q);
            && (Owner(c, l).Some? && Owner(d, l).Some? ==> Owner(d, l) == Owner(c, l))
            && (l in c.pending && l in d.pending ==> d.pending[l] == c.pending[l])
  {
    hide Inv, Claim, RelayHasRoom;
    Bounds(c);
    ClaimShape(c, q);
  }

  lemma InstallOwner(c: State, h: nat, l: Label)
    requires Inv(c) && h < |c.regs|
    ensures var d := Install(c, h);
            && (Owner(c, l).Some? && Owner(d, l).Some? ==> Owner(d, l) == Owner(c, l))
            && (l in c.pending && l in d.pending ==> d.pending[l] == c.pending[l])
  {
    hide Inv, Install;
    Bounds(c);
    if Pending(c, h) {
      InstallShape(c, h);
      SameHands(c, h);
    } else {
      InstallLate(c, h);
    }
  }

  lemma ReleasedOwner(c: State, d: State, l: Label)
    requires Inv(c) && Releases(c, d)
    ensures Owner(c, l).Some? && Owner(d, l).Some? ==> Owner(d, l) == Owner(c, l)
    ensures l in c.pending && l in d.pending ==> d.pending[l] == c.pending[l]
  {
    hide RoomInv, MeterInv, GenerationInv;
    if l in d.agents { assert Evolves(c.regs[c.agents[l]], d.regs[c.agents[l]]); }
    if l in d.pending { assert Evolves(c.regs[c.pending[l]], d.regs[c.pending[l]]); }
  }

  /** The label has a holder in every state of the run. */
  predicate HeldAlong(c: State, es: seq<Event>, l: Label)
    requires Run(c, es).Some?
    decreases |es|
  {
    Owner(c, l).Some? && (es == [] || HeldAlong(Step(c, es[0]), es[1..], l))
  }

  lemma {:induction false} RunKeepsOwner(c: State, es: seq<Event>, l: Label)
    requires Inv(c) && Run(c, es).Some? && HeldAlong(c, es, l)
    ensures Owner(Run(c, es).value, l) == Owner(c, l)
    decreases |es|
  {
    hide Inv, Step, Enabled, Owner;
    if es != [] {
      StepKeeps(c, es[0]);
      StepKeepsOwner(c, es[0], l);
      HeldFirst(Step(c, es[0]), es[1..], l);
      RunKeepsOwner(Step(c, es[0]), es[1..], l);
    }
  }

  lemma HeldFirst(c: State, es: seq<Event>, l: Label)
    requires Run(c, es).Some? && HeldAlong(c, es, l)
    ensures Owner(c, l).Some?
  {
  }

  // -- an account's tunnels

  /** Every claim in the run that is account `a`'s allows it at most `m` tunnels. */
  predicate Quota(e: Event, a: Account, m: int) { e.ClaimE? && e.q.adm.account == a ==> e.q.adm.maxTunnels <= m }

  lemma StepKeepsQuota(c: State, e: Event, a: Account, m: nat)
    requires Inv(c) && Enabled(c, e) && |Owned(c, a)| <= m && Quota(e, a, m)
    ensures |Owned(Step(c, e), a)| <= m
  {
    hide Inv, Claim, Install, Releases, Owned, Unauthorized;
    var d := Step(c, e);
    if e.ClaimE? {
      ClaimShape(c, e.q);
      if d != c {
        var l :| && d == c.(regs := c.regs + [NewRegistration(c, e.q, l)], pending := c.pending[l := |c.regs|])
                 && Unauthorized(c, e.q.adm, l).None?;
        ClaimOwned(c, e.q, l, a, m);
      }
    } else if e.InstallE? {
      InstallOwned(c, e.h, a);
    } else {
      OtherReleases(c, e);
      ReleasedOwned(c, d, a);
      Subset(Owned(d, a), Owned(c, a));
    }
  }

  lemma NewIs(c: State, q: Hello, l: Label)
    ensures NewRegistration(c, q, l).account == q.adm.account
  {
  }

  lemma NotPending(c: State, adm: Admission, l: Label)
    requires Unauthorized(c, adm, l).None?
    ensures l !in c.pending && (l in Owned(c, adm.account) || |Owned(c, adm.account)| < adm.maxTunnels)
  {
  }

  lemma PushOwned(regs: seq<Registration>, m: map<Label, nat>, r: Registration, a: Account)
    requires forall l | l in m :: m[l] < |regs|
    ensures OfAccount(regs + [r], m, a) == OfAccount(regs, m, a)
  {
  }

  lemma PushNamed(regs: seq<Registration>, m: map<Label, nat>, r: Registration, l: Label, a: Account)
    requires l !in m && forall k | k in m :: m[k] < |regs|
    ensures OfAccount(regs + [r], m[l := |regs|], a) == OfAccount(regs, m, a) + if r.account == a then {l} else {}
  {
    PushOwned(regs, m, r, a);
    var m' := m[l := |regs|];
    forall k | k in m' ensures (regs + [r])[m'[k]].account == if k == l then r.account else regs[m[k]].account {
    }
  }

  lemma AddOne(x: set<Label>, y: set<Label>, l: Label)
    ensures x + (y + {l}) == x + y + {l} && x + (y + {}) == x + y
    ensures |x + y + {l}| == |x + y| + if l in x + y then 0 else 1
  {
    if l in x + y { assert x + y + {l} == x + y; }
  }

  lemma ClaimOwned(c: State, q: Hello, l: Label, a: Account, m: nat)
    requires Inv(c) && Unauthorized(c, q.adm, l).None? && |Owned(c, a)| <= m && (q.adm.account == a ==> q.adm.maxTunnels <= m)
    ensures |Owned(c.(regs := c.regs + [NewRegistration(c, q, l)], pending := c.pending[l := |c.regs|]), a)| <= m
  {
    hide Inv, Unauthorized, NewRegistration, OfAccount;
    var r := NewRegistration(c, q, l);
    NewIs(c, q, l);
    Bounds(c);
    NotPending(c, q.adm, l);
    PushOwned(c.regs, c.agents, r, a);
    PushNamed(c.regs, c.pending, r, l, a);
    AddOne(OfAccount(c.regs, c.agents, a), OfAccount(c.regs, c.pending, a), l);
  }

  lemma InstallOwned(c: State, h: nat, a: Account)
    requires Inv(c) && h < |c.regs|
    ensures Owned(Install(c, h), a) == Owned(c, a)
  {
    hide RoomInv, MeterInv, GenerationInv, Install;
    if Pending(c, h) { InstallShape(c, h); } else { InstallLate(c, h); }
  }

  lemma ReleasedOwned(c: State, d: State, a: Account)
    requires Inv(c) && Releases(c, d)
    ensures Owned(d, a) <= Owned(c, a)
  {
    hide RoomInv, MeterInv, GenerationInv;
    forall l | l in Owned(d, a) ensures l in Owned(c, a) {
      if l in d.agents { assert Evolves(c.regs[c.agents[l]], d.regs[c.agents[l]]); }
      if l in d.pending { assert Evolves(c.regs[c.pending[l]], d.regs[c.pending[l]]); }
    }
  }

  predicate QuotaAlong(es: seq<Event>, a: Account, m: int) { forall i | 0 <= i < |es| :: Quota(es[i], a, m) }

  /** An account whose quota is never more than `m` never owns more than `m` labels. */
  lemma {:induction false} RunKeepsQuota(c: State, es: seq<Event>, a: Account, m: nat)
    requires Inv(c) && Run(c, es).Some? && |Owned(c, a)| <= m && QuotaAlong(es, a, m)
    ensures |Owned(Run(c, es).value, a)| <= m
    decreases |es|
  {
    hide Inv, Step, Enabled, Owned, Quota;
    if es != [] {
      StepKeeps(c, es[0]);
      StepKeepsQuota(c, es[0], a, m);
      assert forall i | 0 <= i < |es[1..]| :: es[1..][i] == es[i + 1];
      RunKeepsQuota(Step(c, es[0]), es[1..], a, m);
    }
  }

  // -- stale connections

  /** Installed once, and no longer the label's tunnel: replaced, retired or revoked. */
  predicate Stale(c: State, h: nat) { h < |c.regs| && c.regs[h].stage != Waiting && !Current(c, h) }

  /** What such a connection may still do by itself. */
  predicate OwnStep(e: Event, h: nat) {
    || (e.DisconnectE? && e.h == h) || (e.ExpireE? && e.h == h) || (e.RenewE? && e.h == h)
  }

  /** Everything but the connection's own record. */
  predicate OnlyItself(c: State, d: State, h: nat) {
    && h < |c.regs| == |d.regs|
    && d == c.(regs := c.regs[h := d.regs[h]])
  }

  lemma StaleHarmless(c: State, e: Event, h: nat)
    requires Stale(c, h) && Enabled(c, e) && OwnStep(e, h)
    ensures OnlyItself(c, Step(c, e), h)
  {
    assert c.regs == c.regs[h := c.regs[h]];
  }

  lemma StaysStale(c: State, e: Event, h: nat)
    requires Inv(c) && Enabled(c, e) && Stale(c, h)
    ensures Stale(Step(c, e), h)
  {
    hide RoomInv, MeterInv, GenerationInv, Claim, Install, Step, Releases;
    var d := Step(c, e);
    StepEvolves(c, e);
    assert Evolves(c.regs[h], d.regs[h]);
    StaleNotAgain(c, e, h);
  }

  lemma StaleNotAgain(c: State, e: Event, h: nat)
    requires Inv(c) && Enabled(c, e) && Stale(c, h)
    ensures !Holds(Step(c, e).agents, c.regs[h].subdomain, h)
  {
    hide RoomInv, MeterInv, GenerationInv, Claim, Install;
    if e.ClaimE? {
      ClaimShape(c, e.q);
    } else if e.InstallE? {
      if Pending(c, e.h) { InstallShape(c, e.h); } else { InstallLate(c, e.h); }
    } else {
      OtherReleases(c, e);
    }
  }

  /** Once its label is gone, nothing this connection does afterwards, however late, reaches the
      registry, the budgets or any other registration. */
  lemma {:induction false} RunStale(c: State, es: seq<Event>, e: Event, h: nat)
    requires Inv(c) && Stale(c, h) && Run(c, es).Some?
    requires Enabled(Run(c, es).value, e) && OwnStep(e, h)
    ensures var d := Run(c, es).value; Stale(d, h) && OnlyItself(d, Step(d, e), h)
    decreases |es|
  {
    hide Inv, Step, Enabled, Stale, OwnStep, OnlyItself;
    if es == [] {
      StaleHarmless(c, e, h);
    } else {
      StepKeeps(c, es[0]);
      StaysStale(c, es[0], h);
      RunStale(Step(c, es[0]), es[1..], e, h);
    }
  }

  // -- the relay's limit

  /** The limit is on distinct labels: active and pending entries together can exceed it by the
      labels being reclaimed. */
  lemma EntriesWithinLimit(c: State)
    requires Inv(c) && c.cfg.maxAgents >= 0
    ensures |c.agents.Keys + c.pending.Keys| <= c.cfg.maxAgents
    ensures |c.agents| + |c.pending| <= c.cfg.maxAgents + |c.agents.Keys * c.pending.Keys|
  {
    hide HolderInv, MeterInv, GenerationInv;
    ClaimKeys(c.agents, c.pending, "", 0);
    var a, b := c.agents.Keys, c.pending.Keys;
    assert |a + b| == |a| + |b| - |a * b|;
  }

  /** Active and pending entries together. */
  function Entries(c: State): nat { |c.agents| + |c.pending| }

  /** The claim is accepted for a label that already has a tunnel, so that the count of entries,
      which a new label would be held to, is not looked at. */
  predicate Reclaims(c: State, q: Hello) {
    var choice := ChooseLabel(c, q);
    choice.Chosen? && Refusal(c, q, choice.value).None? && choice.value in c.agents
  }

  lemma EntriesAdd(m: map<Label, nat>, l: Label, h: nat)
    requires l !in m
    ensures |m[l := h]| == |m| + 1
  {
    assert m[l := h].Keys == m.Keys + {l};
    assert |m.Keys| == |m| && |m[l := h].Keys| == |m[l := h]|;
  }

  lemma EntriesSub(m': map<Label, nat>, m: map<Label, nat>)
    requires SubMap(m', m)
    ensures |m'| <= |m|
  {
    assert m'.Keys <= m.Keys;
    Subset(m'.Keys, m.Keys);
    assert |m.Keys| == |m| && |m'.Keys| == |m'|;
  }

  /** An accepted claim adds one entry; it passes the limit exactly when it reclaims a label
      while the entries have reached it. */
  lemma ClaimEntriesIff(c: State, q: Hello)
    requires Entries(c) <= c.cfg.maxAgents
    ensures Entries(Claim(c, q)) <= c.cfg.maxAgents <==> !(Reclaims(c, q) && Entries(c) >= c.cfg.maxAgents)
  {
    hide ChooseLabel, NewRegistration;
    var choice := ChooseLabel(c, q);
    if choice.Chosen? && Refusal(c, q, choice.value).None? {
      assert choice.value !in c.pending && RelayHasRoom(c, choice.value);
      EntriesAdd(c.pending, choice.value, |c.regs|);
    }
  }

  /** Installing turns a pending entry into an active one. */
  lemma InstallEntries(c: State, h: nat)
    requires Inv(c) && h < |c.regs|
    ensures Entries(Install(c, h)) <= Entries(c)
  {
    hide Inv, Install;
    if Pending(c, h) {
      InstallShape(c, h);
      var l := c.regs[h].subdomain;
      EntriesAdd(c.pending - {l}, l, h);
      assert (c.pending - {l})[l := h] == c.pending[l := h] && c.pending[l := h] == c.pending;
      if l in c.agents {
        assert c.agents[l := h].Keys == c.agents.Keys;
        assert |c.agents[l := h].Keys| == |c.agents[l := h]| && |c.agents.Keys| == |c.agents|;
      } else {
        EntriesAdd(c.agents, l, h);
      }
    } else {
      InstallLate(c, h);
    }
  }

  /** A step takes the relay past its limit. */
  predicate Overfills(c: State, e: Event) { e.ClaimE? && Reclaims(c, e.q) && Entries(c) >= c.cfg.maxAgents }

  /** While active and pending entries are within `max_agents`, a step keeps them there exactly
      when it is not the reclaiming of a label by a relay that is full. */
  lemma StepEntriesIff(c: State, e: Event)
    requires Inv(c) && Enabled(c, e) && Entries(c) <= c.cfg.maxAgents
    ensures Entries(Step(c, e)) <= c.cfg.maxAgents <==> !Overfills(c, e)
  {
    hide Inv, Claim, Install, Releases, Reclaims;
    if e.ClaimE? {
      ClaimEntriesIff(c, e.q);
    } else if e.InstallE? {
      InstallEntries(c, e.h);
    } else {
      OtherReleases(c, e);
      ReleasedEntries(c, Step(c, e));
    }
  }

  lemma ReleasedEntries(c: State, d: State)
    requires Releases(c, d)
    ensures Entries(d) <= Entries(c)
  {
    hide SubMap, AllEvolve;
    EntriesSub(d.agents, c.agents);
    EntriesSub(d.pending, c.pending);
  }

  /** The entries are within the limit in every state of the run. */
  predicate WithinAlong(c: State, es: seq<Event>)
    requires Run(c, es).Some?
    decreases |es|
  {
    Entries(c) <= c.cfg.maxAgents && (es == [] || WithinAlong(Step(c, es[0]), es[1..]))
  }

  /** No step of the run overfills the relay. */
  predicate NeverOverfills(c: State, es: seq<Event>)
    requires Run(c, es).Some?
    decreases |es|
  {
    es == [] || (!Overfills(c, es[0]) && NeverOverfills(Step(c, es[0]), es[1..]))
  }

  /** The same over whole runs. */
  lemma {:induction false} RunEntriesIff(c: State, es: seq<Event>)
    requires Inv(c) && Run(c, es).Some? && Entries(c) <= c.cfg.maxAgents
    ensures WithinAlong(c, es) <==> NeverOverfills(c, es)
    decreases |es|
  {
    hide Inv, Step, Enabled, Overfills, Entries;
    if es != [] {
      var d := Step(c, es[0]);
      StepKeeps(c, es[0]);
      StepEntriesIff(c, es[0]);
      SameConfig(c, es[0]);
      if Entries(d) <= d.cfg.maxAgents { RunEntriesIff(d, es[1..]); } else { WithinFirst(d, es[1..]); }
    }
  }

  lemma WithinFirst(c: State, es: seq<Event>)
    requires Run(c, es).Some? && Entries(c) > c.cfg.maxAgents
    ensures !WithinAlong(c, es)
  {
  }

  lemma SameConfig(c: State, e: Event)
    requires Inv(c) && Enabled(c, e)
    ensures Step(c, e).cfg == c.cfg
  {
    hide Inv, Claim, Install, AllEvolve, SubMap;
    if e.ClaimE? {
      ClaimShape(c, e.q);
    } else if e.InstallE? {
      if Pending(c, e.h) { InstallShape(c, e.h); } else { InstallLate(c, e.h); }
    } else {
      OtherReleases(c, e);
    }
  }
}
