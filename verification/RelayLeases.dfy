/** How long a tunnel serves: exactly which steps take it out of service, when its lease is over,
    and what a renewal changes. */
module RelayLeases {
  import opened Wire
  import opened Names
  import opened RelaySpec
  import opened RelayInvariant
  import opened RelayHistory
  import opened RelayBudgets

  /** At time `t` a lease with this end is over. Without an end it never is. */
  predicate Over(end: Option<int>, t: int) { end.Some? && t >= end.value }

  /** An answer that renews the lease of `r`: the same lease, account and credential, a generation
      that is not behind, and an end still to come. */
  predicate Renews(r: Registration, lease: Lease, now: int) {
    && lease.id == r.lease && lease.account == r.account && lease.credential == r.credential
    && lease.generation >= r.generation && lease.expiresAt.Some? && now < lease.expiresAt.value
  }

  /** The step takes the tunnel `h`, whose lease ends at `end`, out of service. */
  predicate Removes(c: State, e: Event, h: nat, end: Option<int>)
    requires h < |c.regs|
  {
    var r := c.regs[h];
    match e
    case ExpireE(k, t) => k == h && !r.draining && Over(end, t)
    case VisitE(l, t) => l == r.subdomain && !r.draining && Over(end, t)
    case RenewE(k, answer, now, later) =>
      && k == h && !r.draining && end.Some?
      && (answer.None? || (Renews(r, answer.value, now) && Over(answer.value.expiresAt, later)))
    case DisconnectE(k) => k == h
    case InstallE(k) => Pending(c, k) && c.regs[k].subdomain == r.subdomain
    case RevokeE(id) => id == r.lease && id != ""
    case PolicyE(u) => ValidUpdate(c.version, u) && r.lease in Named(u)
    case _ => false
  }

  /** A step gives the lease of `h` a new end. */
  predicate Extends(c: State, e: Event, h: nat)
    requires h < |c.regs|
  {
    && e.RenewE? && e.h == h && Current(c, h) && !c.regs[h].draining && c.regs[h].expiresAt.Some?
    && e.renewed.Some? && Renews(c.regs[h], e.renewed.value, e.now)
  }

  // -- the end of a lease

  predicate SameEnds(regs: seq<Registration>, regs': seq<Registration>) {
    |regs| <= |regs'| && forall h | 0 <= h < |regs| :: regs'[h].expiresAt == regs[h].expiresAt
  }

  lemma RetireEnds(c: State, h: nat, why: Cause)
    requires h < |c.regs|
    ensures SameEnds(c.regs, Retire(c, h, why).regs) && |Retire(c, h, why).regs| == |c.regs|
  {
    hide Tidied;
    var r := c.regs[h].(accepting := false);
    TidiedShape(SetReg(c, h, r).(agents := c.agents - {r.subdomain}), {r.account});
  }

  lemma RevokeEnds(c: State, id: LeaseId)
    ensures SameEnds(c.regs, RevokeLease(c, id).regs)
  {
    hide RetireAll, CancelAll, OfLease, Current, Pending;
    var c1 := RetireAll(c, OfLease(c.regs, c.agents, id));
    RetireAllShape(c, OfLease(c.regs, c.agents, id));
    CancelAllShape(c1, OfLease(c1.regs, c1.pending, id));
  }

  lemma {:induction false} RevokeEachEnds(c: State, ids: seq<LeaseId>)
    ensures SameEnds(c.regs, RevokeEach(c, ids).regs)
    decreases |ids|
  {
    hide RevokeLease;
    if ids != [] {
      RevokeEachEnds(c, ids[..|ids| - 1]);
      RevokeEnds(RevokeEach(c, ids[..|ids| - 1]), ids[|ids| - 1]);
    }
  }

  lemma {:induction false} SetBudgetsEnds(c: State, us: seq<BudgetUpdate>)
    ensures SameEnds(c.regs, SetBudgets(c, us).regs)
    decreases |us|
  {
    hide SetBudget;
    if us != [] {
      var u := us[|us| - 1];
      SetBudgetsEnds(c, us[..|us| - 1]);
      SetBudgetShape(SetBudgets(c, us[..|us| - 1]), u.account, u.budget);
    }
  }

  lemma UpdateEnds(c: State, u: Update)
    ensures SameEnds(c.regs, ApplyUpdate(c, u).regs)
  {
    hide RevokeEach, SetBudgets, ValidUpdate, Named;
    RevokeEachEnds(c, Named(u));
    SetBudgetsEnds(RevokeEach(c, Named(u)), u.budgets);
  }

  lemma OneEnds(c: State, h: nat, r: Registration)
    requires h < |c.regs| && r.expiresAt == c.regs[h].expiresAt
    ensures SameEnds(c.regs, SetReg(c, h, r).regs)
  {
  }

  lemma InstallEnds(c: State, h: nat)
    requires Inv(c) && h < |c.regs|
    ensures SameEnds(c.regs, Install(c, h).regs)
  {
    hide Inv, Install;
    if Pending(c, h) { InstallShape(c, h); } else { InstallLate(c, h); }
  }

  lemma SlotEnds(c: State, e: Event)
    requires Enabled(c, e) && (e.LeaveE? || e.ReserveE? || e.ReleaseE? || e.ThrottleE?)
    ensures SameEnds(c.regs, Step(c, e).regs)
  {
    hide Leave, Release, Throttle, ReserveAllowed;
    match e
    case LeaveE(h) => LeaveShape(c, h);
    case ReserveE(_, _) =>
    case ReleaseE(h, n) => ReleaseShape(c, h, n);
    case ThrottleE(h, n, at) => ThrottleShape(c, h, n, at);
  }

  lemma VisitEnds(c: State, l: Label, t: int)
    ensures SameEnds(c.regs, Visit(c, l, t).regs)
  {
    hide Retire;
    if l in c.agents && c.agents[l] < |c.regs| { RetireEnds(c, c.agents[l], LeaseOver); }
  }

  lemma ExpireEnds(c: State, h: nat, t: int)
    requires h < |c.regs|
    ensures SameEnds(c.regs, Expire(c, h, t).regs)
  {
    hide Retire;
    RetireEnds(c, h, LeaseOver);
  }

  lemma DisconnectEnds(c: State, h: nat)
    requires h < |c.regs|
    ensures SameEnds(c.regs, Disconnect(c, h).regs)
  {
    hide Tidied;
    var r := c.regs[h].(stage := Done);
    TidiedShape(SetReg(c, h, r).(agents := c.agents - {r.subdomain}), {r.account});
  }

  /** Nothing but an answer to a renewal moves the end of a lease. */
  lemma StepEnds(c: State, e: Event)
    requires Inv(c) && Enabled(c, e) && !e.RenewE?
    ensures SameEnds(c.regs, Step(c, e).regs)
  {
    hide Inv, Install, Disconnect, Expire, RevokeLease, ApplyUpdate, Visit, Leave, Reserve, Release, Throttle, SameEnds;
    match e
    case ClaimE(q) => ClaimEnds(c, q);
    case InstallE(h) => InstallEnds(c, h);
    case AbandonE(h) => OneEnds(c, h, c.regs[h].(stage := Done));
    case DisconnectE(h) => DisconnectEnds(c, h);
    case ExpireE(h, now) => ExpireEnds(c, h, now);
    case DrainingE(h) => OneEnds(c, h, c.regs[h].(draining := true));
    case RevokeE(id) => RevokeEnds(c, id);
    case PolicyE(u) => UpdateEnds(c, u);
    case VisitE(l, now) => VisitEnds(c, l, now);
    case _ => SlotEnds(c, e);
  }

  lemma ClaimEnds(c: State, q: Hello)
    ensures SameEnds(c.regs, Claim(c, q).regs)
  {
    hide ChooseLabel, Refusal, NewRegistration;
  }

  // -- who goes

  lemma RetiredIff(c: State, h: nat, k: nat, why: Cause)
    requires Inv(c) && Current(c, h) && k < |c.regs|
    ensures Current(Retire(c, k, why), h) <==> k != h
  {
    hide RoomInv, MeterInv, GenerationInv, Tidied;
    if Current(c, k) {
      TidiedShape(SetReg(c, k, c.regs[k].(accepting := false)).(agents := c.agents - {c.regs[k].subdomain}), {c.regs[k].account});
    }
  }

  lemma ExpiredIff(c: State, h: nat, k: nat, t: int)
    requires Inv(c) && Current(c, h) && k < |c.regs|
    ensures Current(Expire(c, k, t), h) <==> !(k == h && !c.regs[h].draining && Over(c.regs[h].expiresAt, t))
  {
    hide Inv, Retire;
    RetiredIff(c, h, k, LeaseOver);
  }

  lemma VisitedIff(c: State, h: nat, l: Label, t: int)
    requires Inv(c) && Current(c, h)
    ensures Current(Visit(c, l, t), h) <==> !(l == c.regs[h].subdomain && !c.regs[h].draining && Over(c.regs[h].expiresAt, t))
  {
    hide RoomInv, MeterInv, GenerationInv, Retire;
    if l in c.agents { RetiredIff(c, h, c.agents[l], LeaseOver); }
  }

  /** `r` as its renewal leaves it. */
  function Renewed(r: Registration, lease: Lease, now: int): Registration {
    r.(expiresAt := lease.expiresAt, observedAt := Some(now), generation := lease.generation)
  }

  lemma RenewedIff(c: State, h: nat, k: nat, answer: Option<Lease>, now: int, later: int)
    requires Inv(c) && Current(c, h) && k < |c.regs|
    ensures Current(Renew(c, k, answer, now, later), h) <==> !Removes(c, RenewE(k, answer, now, later), h, c.regs[h].expiresAt)
  {
    hide Inv, Retire;
    RetiredIff(c, h, k, Revoked);
    if answer.Some? && ValidRenewal(c.regs[k], answer.value, now) {
      RenewedGeneration(c, k, answer.value, now);
      SetKeeps(c, k, Renewed(c.regs[k], answer.value, now));
      ExpiredIff(SetReg(c, k, Renewed(c.regs[k], answer.value, now)), h, k, later);
    }
  }

  /** What a renewal leaves as the end. */
  lemma RenewedEnd(c: State, h: nat, k: nat, answer: Option<Lease>, now: int, later: int)
    requires h < |c.regs| && k < |c.regs|
    ensures var d := Renew(c, k, answer, now, later);
            && h < |d.regs|
            && d.regs[h].expiresAt == if Extends(c, RenewE(k, answer, now, later), h) then answer.value.expiresAt
                                      else c.regs[h].expiresAt
  {
    hide Retire;
    RetireEnds(c, k, Revoked);
    if answer.Some? { RetireEnds(SetReg(c, k, Renewed(c.regs[k], answer.value, now)), k, LeaseOver); }
  }

  lemma GoneIff(c: State, d: State, h: nat, ids: seq<LeaseId>)
    requires Current(c, h) && AllEvolve(c.regs, d.regs) && d.agents == c.agents - OfLeases(c.regs, c.agents, ids)
    ensures Current(d, h) <==> c.regs[h].lease !in ids
  {
    assert Evolves(c.regs[h], d.regs[h]);
  }

  lemma RevokedIff(c: State, h: nat, id: LeaseId)
    requires Current(c, h)
    ensures Current(RevokeLease(c, id), h) <==> !(id == c.regs[h].lease && id != "")
  {
    hide RevokeLease, OfLeases, Current;
    if id != "" {
      RevokeGone(c, id);
      RevokeReleases(c, id);
      GoneIff(c, RevokeLease(c, id), h, [id]);
    } else {
      EmptyLease(c);
    }
  }

  lemma EmptyLease(c: State)
    ensures RevokeLease(c, "") == c
  {
  }

  lemma UpdatedIff(c: State, h: nat, u: Update)
    requires Current(c, h)
    ensures Current(ApplyUpdate(c, u), h) <==> !(ValidUpdate(c.version, u) && c.regs[h].lease in Named(u))
  {
    hide OfLeases, RevokeEach, SetBudgets, ValidUpdate, Named, Releases, Pushed;
    UpdateReleases(c, u);
    AllOfReleases(c, ApplyUpdate(c, u));
    if ValidUpdate(c.version, u) {
      UpdateApplied(c, u);
      GoneIff(c, ApplyUpdate(c, u), h, Named(u));
    }
  }

  lemma InstalledIff(c: State, h: nat, k: nat)
    requires Inv(c) && Current(c, h) && k < |c.regs|
    ensures Current(Install(c, k), h) <==> !(Pending(c, k) && c.regs[k].subdomain == c.regs[h].subdomain)
  {
    hide RoomInv, MeterInv, GenerationInv, Install;
    if Pending(c, k) { InstallShape(c, k); } else { InstallLate(c, k); }
  }

  lemma DisconnectedIff(c: State, h: nat, k: nat)
    requires Inv(c) && Current(c, h) && k < |c.regs|
    ensures Current(Disconnect(c, k), h) <==> k != h
  {
    hide RoomInv, MeterInv, GenerationInv, Tidied;
    var r := c.regs[k].(stage := Done);
    TidiedShape(SetReg(c, k, r).(agents := c.agents - {r.subdomain}), {r.account});
  }

  lemma SameAgents(c: State, d: State, h: nat)
    requires Current(c, h) && d.agents == c.agents && AllEvolve(c.regs, d.regs)
    ensures Current(d, h)
  {
    assert Evolves(c.regs[h], d.regs[h]);
  }

  lemma QuietAgents(c: State, e: Event)
    requires Enabled(c, e)
    requires e.ClaimE? || e.AbandonE? || e.DrainingE? || e.LeaveE? || e.ReserveE? || e.ReleaseE? || e.ThrottleE?
    ensures Step(c, e).agents == c.agents
  {
    hide Leave, Release, Throttle, ReserveAllowed, ChooseLabel, Refusal, NewRegistration;
    match e
    case LeaveE(h) => LeaveShape(c, h);
    case ReleaseE(h, n) => ReleaseShape(c, h, n);
    case ThrottleE(h, n, at) => ThrottleShape(c, h, n, at);
    case _ =>
  }

  /** A tunnel in service goes out of it by exactly these steps: its lease is found over, it is
      refused a renewal or gets one that comes too late, its agent disconnects, a newer connection
      takes its label, or its lease is revoked. */
  lemma StepRemovesIff(c: State, e: Event, h: nat)
    requires Inv(c) && Enabled(c, e) && Current(c, h)
    ensures Current(Step(c, e), h) <==> !Removes(c, e, h, c.regs[h].expiresAt)
  {
    hide Inv, Claim, Install, Abandon, Disconnect, Expire, Renew, RevokeLease, ApplyUpdate, Visit, Leave, Reserve, Release,
      Throttle, AllEvolve, Current;
    match e
    case InstallE(k) => InstalledIff(c, h, k);
    case DisconnectE(k) => DisconnectedIff(c, h, k);
    case ExpireE(k, t) => ExpiredIff(c, h, k, t);
    case RenewE(k, answer, now, later) => RenewedIff(c, h, k, answer, now, later);
    case RevokeE(id) => RevokedIff(c, h, id);
    case PolicyE(u) => UpdatedIff(c, h, u);
    case VisitE(l, t) => VisitedIff(c, h, l, t);
    case _ =>
      StepEvolves(c, e);
      QuietAgents(c, e);
      SameAgents(c, Step(c, e), h);
  }

  // -- whole runs

  /** No step of the run takes the tunnel `h` out of service, its lease ending at `end`. */
  predicate SparedAlong(c: State, es: seq<Event>, h: nat, end: Option<int>)
    requires Run(c, es).Some?
    decreases |es|
  {
    h < |c.regs| && (es == [] || (!Removes(c, es[0], h, end) && SparedAlong(Step(c, es[0]), es[1..], h, end)))
  }

  predicate NotRenewed(es: seq<Event>, h: nat) { forall i | 0 <= i < |es| :: !(es[i].RenewE? && es[i].h == h) }

  lemma {:induction false} RunStaysStale(c: State, es: seq<Event>, h: nat)
    requires Inv(c) && Stale(c, h) && Run(c, es).Some?
    ensures Stale(Run(c, es).value, h)
    decreases |es|
  {
    hide Inv, Step, Enabled, Stale;
    if es != [] {
      StepKeeps(c, es[0]);
      StaysStale(c, es[0], h);
      RunStaysStale(Step(c, es[0]), es[1..], h);
    }
  }

  lemma ServingIsNotWaiting(c: State, h: nat)
    requires Inv(c) && Current(c, h)
    ensures c.regs[h].stage == Serving
  {
    hide RoomInv, MeterInv, GenerationInv;
  }

  lemma OutIsStale(c: State, e: Event, h: nat)
    requires Inv(c) && Enabled(c, e) && h < |c.regs| && Current(c, h) && !Current(Step(c, e), h)
    ensures Stale(Step(c, e), h)
  {
    hide Inv, Step, Enabled, Current;
    ServingIsNotWaiting(c, h);
    StepEvolves(c, e);
    assert Evolves(c.regs[h], Step(c, e).regs[h]);
  }

  lemma EndStays(c: State, e: Event, h: nat)
    requires Inv(c) && Enabled(c, e) && h < |c.regs| && !(e.RenewE? && e.h == h)
    ensures h < |Step(c, e).regs| && Step(c, e).regs[h].expiresAt == c.regs[h].expiresAt
  {
    if e.RenewE? {
      RenewedEnd(c, h, e.h, e.renewed, e.now, e.later);
      hide Renew;
    } else {
      StepEnds(c, e);
      hide Step;
    }
  }

  /** Over a run without a renewal, a tunnel is in service at the end exactly when no step of the
      run was one of those. */
  lemma {:induction false} RunRemovesIff(c: State, es: seq<Event>, h: nat, end: Option<int>)
    requires Inv(c) && h < |c.regs| && Current(c, h) && c.regs[h].expiresAt == end && Run(c, es).Some? && NotRenewed(es, h)
    ensures h < |Run(c, es).value.regs| && Run(c, es).value.regs[h].expiresAt == end
    ensures Current(Run(c, es).value, h) <==> SparedAlong(c, es, h, end)
    decreases |es|
  {
    hide Inv, Step, Enabled, Current, Removes, Stale;
    if es != [] {
      var d := Step(c, es[0]);
      StepKeeps(c, es[0]);
      StepRemovesIff(c, es[0], h);
      EndStays(c, es[0], h);
      NotRenewedOn(es, h);
      if Current(d, h) {
        RunRemovesIff(d, es[1..], h, end);
      } else {
        OutIsStale(c, es[0], h);
        RunStaysStale(d, es[1..], h);
        StaleIsOut(Run(c, es).value, h);
        RunEndStays(d, es[1..], h);
      }
    }
  }

  lemma NotRenewedOn(es: seq<Event>, h: nat)
    requires es != [] && NotRenewed(es, h)
    ensures NotRenewed(es[1..], h) && !(es[0].RenewE? && es[0].h == h)
  {
  }

  lemma StaleIsOut(c: State, h: nat)
    requires Stale(c, h)
    ensures !Current(c, h)
  {
  }

  lemma {:induction false} RunEndStays(c: State, es: seq<Event>, h: nat)
    requires Inv(c) && h < |c.regs| && Run(c, es).Some? && NotRenewed(es, h)
    ensures h < |Run(c, es).value.regs| && Run(c, es).value.regs[h].expiresAt == c.regs[h].expiresAt
    decreases |es|
  {
    hide Inv, Step, Enabled;
    if es != [] {
      StepKeeps(c, es[0]);
      EndStays(c, es[0], h);
      NotRenewedOn(es, h);
      RunEndStays(Step(c, es[0]), es[1..], h);
    }
  }

  /** A renewal prolongs the lease. A valid answer replaces its end and generation and nothing else;
      if the new end has passed by then the tunnel goes, and otherwise, up to the next renewal,
      the lease takes it out of service at the new end and not before. */
  lemma RenewalProlongs(c: State, h: nat, lease: Lease, now: int, later: int, es: seq<Event>)
    requires Inv(c) && h < |c.regs| && Current(c, h) && !c.regs[h].draining && c.regs[h].expiresAt.Some?
    requires Renews(c.regs[h], lease, now)
    requires Run(Renew(c, h, Some(lease), now, later), es).Some? && NotRenewed(es, h)
    ensures var d, end := Renew(c, h, Some(lease), now, later), lease.expiresAt;
            && (Over(end, later) ==> !Current(Run(d, es).value, h))
            && (!Over(end, later) ==>
                  && d == c.(regs := c.regs[h := Renewed(c.regs[h], lease, now)])
                  && (Current(Run(d, es).value, h) <==> SparedAlong(d, es, h, end)))
  {
    hide Inv, Run, Retire, Current, Removes, SparedAlong, Stale;
    var e := RenewE(h, Some(lease), now, later);
    var d := Renew(c, h, Some(lease), now, later);
    StepKeeps(c, e);
    StepRemovesIff(c, e, h);
    RenewedEnd(c, h, h, Some(lease), now, later);
    RemovedByRenewal(c, h, lease, now, later);
    if Current(d, h) {
      RunRemovesIff(d, es, h, lease.expiresAt);
    } else {
      OutIsStale(c, e, h);
      RunStaysStale(d, es, h);
      StaleIsOut(Run(d, es).value, h);
    }
  }

  lemma RemovedByRenewal(c: State, h: nat, lease: Lease, now: int, later: int)
    requires h < |c.regs| && !c.regs[h].draining && c.regs[h].expiresAt.Some? && Renews(c.regs[h], lease, now)
    ensures Removes(c, RenewE(h, Some(lease), now, later), h, c.regs[h].expiresAt) <==> Over(lease.expiresAt, later)
  {
  }

  /** An answer that does not renew changes nothing, and none revokes; asked too late, or for a
      tunnel that has gone or drains, it is not looked at. */
  lemma OtherAnswers(c: State, h: nat, answer: Option<Lease>, now: int, later: int)
    requires h < |c.regs|
    ensures var d, asked := Renew(c, h, answer, now, later), Current(c, h) && !c.regs[h].draining && c.regs[h].expiresAt.Some?;
            && (!asked ==> d == c)
            && (asked && answer.Some? && !Renews(c.regs[h], answer.value, now) ==> d == c)
            && (asked && answer.None? ==> !Current(d, h) && d.revocations == c.revocations + 1 && d.expirations == c.expirations)
  {
    hide Tidied;
    var r := c.regs[h].(accepting := false);
    TidiedShape(SetReg(c, h, r).(agents := c.agents - {r.subdomain}), {r.account});
  }

  /** A lease found over is counted as such. */
  lemma ExpiryCounts(c: State, h: nat, t: int)
    requires Current(c, h)
    ensures var d, over := Expire(c, h, t), !c.regs[h].draining && Over(c.regs[h].expiresAt, t);
            && d.expirations == c.expirations + (if over then 1 else 0) && d.revocations == c.revocations
            && (over ==> h < |d.regs| && !d.regs[h].accepting)
  {
    hide Tidied;
    var r := c.regs[h].(accepting := false);
    TidiedShape(SetReg(c, h, r).(agents := c.agents - {r.subdomain}), {r.account});
  }
}
