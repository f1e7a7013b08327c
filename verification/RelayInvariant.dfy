/** What every step of the relay keeps, whatever its peers, its control plane and its visitors
    do and in whatever order. */
module RelayInvariant {
  import opened Wire
  import opened Names
  import opened RelaySpec

  /** An active label's registration is serving and open to visitors, a pending one's is not;
      both belong to the label, and to one account where a label has both. */
  predicate HolderInv(regs: seq<Registration>, agents: map<Label, nat>, pending: map<Label, nat>) {
    && (forall l | l in agents ::
          agents[l] < |regs| && var r := regs[agents[l]]; r.subdomain == l && r.stage == Serving && r.accepting)
    && (forall l | l in pending ::
          pending[l] < |regs| && var r := regs[pending[l]]; r.subdomain == l && r.stage == Waiting && !r.accepting)
    && (forall l | l in agents && l in pending :: regs[agents[l]].account == regs[pending[l]].account)
  }

  /** The distinct labels in use stay within the relay's limit. */
  predicate RoomInv(maxAgents: int, agents: map<Label, nat>, pending: map<Label, nat>) {
    agents.Keys + pending.Keys == {} || |agents.Keys + pending.Keys| <= maxAgents
  }

  datatype Meter = Slots | Bytes

  function Holding(r: Registration, what: Meter): nat { if what == Slots then r.visitors else r.buffered }

  /** What account `a`'s tunnels hold, current, superseded and detached ones alike. */
  function Sum(regs: seq<Registration>, a: Account, what: Meter): nat {
    if regs == [] then 0
    else
      var r := regs[|regs| - 1];
      Sum(regs[..|regs| - 1], a, what) + if r.account == a then Holding(r, what) else 0
  }

  ghost predicate MeterInv(regs: seq<Registration>, counts: map<Account, nat>, what: Meter) {
    && (forall a: Account :: Count(counts, a) == Sum(regs, a, what))
    && (forall a | a in counts :: counts[a] > 0)
  }

  predicate GenerationInv(regs: seq<Registration>) { forall h | 0 <= h < |regs| :: regs[h].generation >= 0 }

  ghost predicate Inv(c: State) {
    && HolderInv(c.regs, c.agents, c.pending)
    && RoomInv(c.cfg.maxAgents, c.agents, c.pending)
    && MeterInv(c.regs, c.visitors, Slots)
    && MeterInv(c.regs, c.buffered, Bytes)
    && GenerationInv(c.regs)
  }

  // -- sums

  predicate SameHoldings(r: Registration, s: Registration) {
    r.account == s.account && r.visitors == s.visitors && r.buffered == s.buffered
  }

  lemma {:induction false} SumSame(regs: seq<Registration>, regs': seq<Registration>, a: Account, what: Meter)
    requires |regs| == |regs'| && forall h | 0 <= h < |regs| :: SameHoldings(regs[h], regs'[h])
    ensures Sum(regs, a, what) == Sum(regs', a, what)
  {
    if regs != [] {
      var n := |regs| - 1;
      assert SameHoldings(regs[n], regs'[n]);
      forall h | 0 <= h < n ensures SameHoldings(regs[..n][h], regs'[..n][h]) {
        assert SameHoldings(regs[h], regs'[h]);
      }
      SumSame(regs[..n], regs'[..n], a, what);
    }
  }

  lemma {:induction false} SumPut(regs: seq<Registration>, h: nat, r: Registration, a: Account, what: Meter)
    requires h < |regs| && r.account == regs[h].account
    ensures Sum(regs[h := r], a, what)
         == Sum(regs, a, what) + if r.account == a then Holding(r, what) - Holding(regs[h], what) else 0
  {
    var n := |regs| - 1;
    if h == n {
      assert regs[h := r][..n] == regs[..n];
    } else {
      assert regs[h := r][..n] == regs[..n][h := r];
      SumPut(regs[..n], h, r, a, what);
    }
  }

  lemma {:induction false} SumAt(regs: seq<Registration>, h: nat, what: Meter)
    requires h < |regs|
    ensures Holding(regs[h], what) <= Sum(regs, regs[h].account, what)
  {
    if h < |regs| - 1 { SumAt(regs[..|regs| - 1], h, what); }
  }

  lemma MeterSame(regs: seq<Registration>, regs': seq<Registration>, counts: map<Account, nat>, what: Meter)
    requires MeterInv(regs, counts, what)
    requires |regs| == |regs'| && forall h | 0 <= h < |regs| :: SameHoldings(regs[h], regs'[h])
    ensures MeterInv(regs', counts, what)
  {
    forall a: Account ensures Count(counts, a) == Sum(regs', a, what) {
      SumSame(regs, regs', a, what);
    }
  }

  lemma MeterPush(regs: seq<Registration>, r: Registration, counts: map<Account, nat>, what: Meter)
    requires MeterInv(regs, counts, what) && Holding(r, what) == 0
    ensures MeterInv(regs + [r], counts, what)
  {
    assert (regs + [r])[..|regs|] == regs;
  }

  /** One registration's holding moved, and its account's count with it. */
  lemma MeterMove(regs: seq<Registration>, h: nat, r: Registration, counts: map<Account, nat>, counts': map<Account, nat>,
                  what: Meter)
    requires MeterInv(regs, counts, what) && h < |regs| && r.account == regs[h].account
    requires var n := Sum(regs, r.account, what) - Holding(regs[h], what) + Holding(r, what);
             n >= 0 && if n == 0 then counts' == counts - {r.account} else counts' == counts[r.account := n]
    ensures MeterInv(regs[h := r], counts', what)
  {
    SumAt(regs, h, what);
    forall a: Account ensures Count(counts', a) == Sum(regs[h := r], a, what) {
      SumPut(regs, h, r, a, what);
      assert Count(counts, a) == Sum(regs, a, what);
    }
  }

  lemma MetersSame(c: State, regs': seq<Registration>)
    requires MeterInv(c.regs, c.visitors, Slots) && MeterInv(c.regs, c.buffered, Bytes)
    requires |c.regs| == |regs'| && forall h | 0 <= h < |c.regs| :: SameHoldings(c.regs[h], regs'[h])
    ensures MeterInv(regs', c.visitors, Slots) && MeterInv(regs', c.buffered, Bytes)
  {
    MeterSame(c.regs, regs', c.visitors, Slots);
    MeterSame(c.regs, regs', c.buffered, Bytes);
  }

  // -- labels

  lemma Shrink(maxAgents: int, agents: map<Label, nat>, pending: map<Label, nat>, agents': map<Label, nat>,
               pending': map<Label, nat>)
    requires RoomInv(maxAgents, agents, pending)
    requires agents'.Keys + pending'.Keys <= agents.Keys + pending.Keys
    ensures RoomInv(maxAgents, agents', pending')
  {
    Subset(agents'.Keys + pending'.Keys, agents.Keys + pending.Keys);
  }

  lemma {:induction false} Subset<T>(a: set<T>, b: set<T>)
    requires a <= b
    ensures |a| <= |b|
    decreases |a|
  {
    if a != {} {
      var x :| x in a;
      Subset(a - {x}, b - {x});
    }
  }

  lemma UnionBound<T>(a: set<T>, b: set<T>)
    ensures |a + b| <= |a| + |b|
  {
    assert |a + b| == |a| + |b| - |a * b|;
  }

  /** A step that only rewrites registrations, keeping what the invariant reads. */
  predicate SameRole(r: Registration, s: Registration) {
    r.subdomain == s.subdomain && r.account == s.account && r.stage == s.stage && r.accepting == s.accepting
  }

  // -- steps

  lemma ClaimKeeps(c: State, q: Hello)
    requires Inv(c)
    ensures Inv(Claim(c, q))
  {
    var choice := ChooseLabel(c, q);
    if choice.Chosen? && Refusal(c, q, choice.value).None? {
      var l := choice.value;
      var r := NewRegistration(c, q, l);
      MeterPush(c.regs, r, c.visitors, Slots);
      MeterPush(c.regs, r, c.buffered, Bytes);
      ClaimRoom(c, l);
      ClaimHolders(c, q, l);
    }
  }

  lemma GrowOne(a: set<Label>, b: set<Label>, l: Label, most: int)
    requires a + b == {} || |a + b| <= most
    requires l in a || |a| + |b| < most
    ensures |a + b + {l}| <= most
  {
    UnionBound(a, b);
    if l in a + b { assert a + b + {l} == a + b; }
  }

  lemma ClaimKeys(agents: map<Label, nat>, pending: map<Label, nat>, l: Label, h: nat)
    ensures agents.Keys + pending[l := h].Keys == agents.Keys + pending.Keys + {l}
    ensures |agents.Keys| == |agents| && |pending.Keys| == |pending|
  {
  }

  lemma ClaimRoom(c: State, l: Label)
    requires RoomInv(c.cfg.maxAgents, c.agents, c.pending) && RelayHasRoom(c, l)
    ensures RoomInv(c.cfg.maxAgents, c.agents, c.pending[l := |c.regs|])
  {
    ClaimKeys(c.agents, c.pending, l, |c.regs|);
    GrowOne(c.agents.Keys, c.pending.Keys, l, c.cfg.maxAgents);
  }

  lemma ClaimHolders(c: State, q: Hello, l: Label)
    requires HolderInv(c.regs, c.agents, c.pending) && Unauthorized(c, q.adm, l).None?
    ensures HolderInv(c.regs + [NewRegistration(c, q, l)], c.agents, c.pending[l := |c.regs|])
  {
  }

  predicate SubMap(m': map<Label, nat>, m: map<Label, nat>) { forall l | l in m' :: l in m && m'[l] == m[l] }

  /** What `m` still names plays the same role in `regs'`. */
  predicate RolesKept(regs: seq<Registration>, regs': seq<Registration>, m: map<Label, nat>) {
    |regs| == |regs'| && forall l | l in m :: m[l] < |regs| && SameRole(regs[m[l]], regs'[m[l]])
  }

  predicate HoldingsKept(regs: seq<Registration>, regs': seq<Registration>) {
    && |regs| == |regs'|
    && forall h | 0 <= h < |regs| :: SameHoldings(regs[h], regs'[h]) && regs[h].generation <= regs'[h].generation
  }

  lemma HolderKept(regs: seq<Registration>, regs': seq<Registration>, agents: map<Label, nat>, agents': map<Label, nat>,
                   pending: map<Label, nat>, pending': map<Label, nat>)
    requires HolderInv(regs, agents, pending) && SubMap(agents', agents) && SubMap(pending', pending)
    requires RolesKept(regs, regs', agents') && RolesKept(regs, regs', pending')
    ensures HolderInv(regs', agents', pending')
  {
  }

  lemma KeysKept(agents: map<Label, nat>, agents': map<Label, nat>, pending: map<Label, nat>, pending': map<Label, nat>)
    requires SubMap(agents', agents) && SubMap(pending', pending)
    ensures agents'.Keys + pending'.Keys <= agents.Keys + pending.Keys
  {
  }

  /** Registrations rewritten, labels at most released. */
  lemma ReleaseKeeps(c: State, d: State)
    requires Inv(c) && d.cfg == c.cfg && d.visitors == c.visitors && d.buffered == c.buffered
    requires HoldingsKept(c.regs, d.regs) && SubMap(d.agents, c.agents) && SubMap(d.pending, c.pending)
    requires RolesKept(c.regs, d.regs, d.agents) && RolesKept(c.regs, d.regs, d.pending)
    ensures Inv(d)
  {
    hide RoomInv, MeterInv, HolderInv, RolesKept, SubMap;
    HolderKept(c.regs, d.regs, c.agents, d.agents, c.pending, d.pending);
    MetersSame(c, d.regs);
    KeysKept(c.agents, d.agents, c.pending, d.pending);
    Shrink(c.cfg.maxAgents, c.agents, c.pending, d.agents, d.pending);
  }

  /** Labels name registrations of theirs. */
  lemma Bounds(c: State)
    requires Inv(c)
    ensures forall l | l in c.agents :: c.agents[l] < |c.regs| && c.regs[c.agents[l]].subdomain == l && c.regs[c.agents[l]].stage == Serving
    ensures forall l | l in c.pending :: c.pending[l] < |c.regs| && c.regs[c.pending[l]].subdomain == l && c.regs[c.pending[l]].stage == Waiting
  {
  }

  lemma SubMinus(m: map<Label, nat>, ls: set<Label>)
    ensures SubMap(m, m) && SubMap(m - ls, m)
  {
  }

  lemma RolesAt(regs: seq<Registration>, h: nat, r: Registration, m: map<Label, nat>)
    requires h < |regs| && forall l | l in m :: m[l] < |regs| && (m[l] == h ==> SameRole(regs[h], r))
    ensures RolesKept(regs, regs[h := r], m)
  {
  }

  lemma HoldingsAt(regs: seq<Registration>, h: nat, r: Registration)
    requires h < |regs| && SameHoldings(regs[h], r) && regs[h].generation <= r.generation
    ensures HoldingsKept(regs, regs[h := r])
  {
  }

  lemma TidiedShape(c: State, accounts: set<Account>)
    ensures Tidied(c, accounts) == c.(overrides := Tidied(c, accounts).overrides, schedules := Tidied(c, accounts).schedules)
  {
    hide HasWork;
  }

  /** The branch of `_install_registration` for a label that changes hands is dead. */
  lemma SameHands(c: State, h: nat)
    requires Inv(c) && Pending(c, h)
    ensures var l := c.regs[h].subdomain;
            l in c.agents ==> c.agents[l] < |c.regs| && c.regs[c.agents[l]].account == c.regs[h].account
  {
    hide RoomInv, MeterInv;
  }

  lemma InstallShape(c: State, h: nat)
    requires Inv(c) && Pending(c, h)
    ensures var l := c.regs[h].subdomain;
            Install(c, h) == c.(regs := c.regs[h := c.regs[h].(accepting := true, stage := Serving)],
                                agents := c.agents[l := h], pending := c.pending - {l})
  {
    hide Inv, Tidied;
    SameHands(c, h);
    var l := c.regs[h].subdomain;
    assert (c.agents - {l})[l := h] == c.agents[l := h];
  }

  lemma InstallLate(c: State, h: nat)
    requires h < |c.regs| && !Pending(c, h)
    ensures Install(c, h) == c.(regs := c.regs[h := c.regs[h].(stage := Done)])
  {
  }

  lemma InstalledKeys(agents: map<Label, nat>, pending: map<Label, nat>, l: Label, h: nat)
    requires l in pending
    ensures agents[l := h].Keys + (pending - {l}).Keys <= agents.Keys + pending.Keys
  {
  }

  lemma InstalledHolders(regs: seq<Registration>, agents: map<Label, nat>, pending: map<Label, nat>, h: nat)
    requires HolderInv(regs, agents, pending) && h < |regs| && Holds(pending, regs[h].subdomain, h)
    ensures var l := regs[h].subdomain;
            HolderInv(regs[h := regs[h].(accepting := true, stage := Serving)], agents[l := h], pending - {l})
  {
  }

  lemma InstalledKeeps(c: State, h: nat)
    requires Inv(c) && Pending(c, h)
    ensures var l := c.regs[h].subdomain;
            Inv(c.(regs := c.regs[h := c.regs[h].(accepting := true, stage := Serving)],
                   agents := c.agents[l := h], pending := c.pending - {l}))
  {
    hide RoomInv, MeterInv, HolderInv, GenerationInv;
    var l := c.regs[h].subdomain;
    var r := c.regs[h].(accepting := true, stage := Serving);
    InstalledHolders(c.regs, c.agents, c.pending, h);
    MeterStill(c.regs, h, r, c.visitors, Slots);
    MeterStill(c.regs, h, r, c.buffered, Bytes);
    StillGenerated(c, h, r);
    Shrink(c.cfg.maxAgents, c.agents, c.pending, c.agents[l := h], c.pending - {l}) by {
      InstalledKeys(c.agents, c.pending, l, h);
    }
  }

  lemma InstallKeeps(c: State, h: nat)
    requires Inv(c) && h < |c.regs| && c.regs[h].stage == Waiting
    ensures Inv(Install(c, h))
  {
    hide Inv, Install;
    Bounds(c);
    if Pending(c, h) {
      InstallShape(c, h);
      InstalledKeeps(c, h);
    } else {
      InstallLate(c, h);
      ReleaseKeeps(c, Install(c, h));
    }
  }

  lemma AbandonKeeps(c: State, h: nat)
    requires Inv(c) && h < |c.regs| && c.regs[h].stage == Waiting
    ensures Inv(Abandon(c, h))
  {
    hide Inv, SubMap, RolesKept, HoldingsKept;
    Bounds(c);
    var r := c.regs[h].(stage := Done);
    SubMinus(c.agents, {});
    SubMinus(c.pending, {r.subdomain});
    RolesAt(c.regs, h, r, c.agents);
    RolesAt(c.regs, h, r, if Pending(c, h) then c.pending - {r.subdomain} else c.pending);
    HoldingsAt(c.regs, h, r);
    ReleaseKeeps(c, Abandon(c, h));
  }

  lemma DisconnectKeeps(c: State, h: nat)
    requires Inv(c) && h < |c.regs| && c.regs[h].stage == Serving
    ensures Inv(Disconnect(c, h))
  {
    hide Inv, Tidied;
    Bounds(c);
    TidiedShape(SetReg(c, h, c.regs[h].(stage := Done)).(agents := c.agents - {c.regs[h].subdomain}), {c.regs[h].account});
    ReleaseKeeps(c, Disconnect(c, h));
  }

  lemma RetireKeeps(c: State, h: nat, why: Cause)
    requires Inv(c) && h < |c.regs|
    ensures Inv(Retire(c, h, why))
  {
    hide Inv, Tidied, SubMap, RolesKept, HoldingsKept;
    if Current(c, h) {
      Bounds(c);
      var r := c.regs[h].(accepting := false);
      SubMinus(c.agents, {r.subdomain});
      SubMinus(c.pending, {});
      RolesAt(c.regs, h, r, c.agents - {r.subdomain});
      RolesAt(c.regs, h, r, c.pending);
      HoldingsAt(c.regs, h, r);
      TidiedShape(SetReg(c, h, r).(agents := c.agents - {r.subdomain}), {r.account});
      ReleaseKeeps(c, Retire(c, h, why));
    }
  }

  lemma SetKeeps(c: State, h: nat, r: Registration)
    requires Inv(c) && h < |c.regs| && SameRole(c.regs[h], r) && SameHoldings(c.regs[h], r) && r.generation >= c.regs[h].generation
    ensures Inv(SetReg(c, h, r))
  {
    hide Inv;
    Bounds(c);
    ReleaseKeeps(c, SetReg(c, h, r));
  }

  lemma ExpireKeeps(c: State, h: nat, now: int)
    requires Inv(c) && h < |c.regs|
    ensures Inv(Expire(c, h, now))
  {
    RetireKeeps(c, h, LeaseOver);
  }

  lemma RenewKeeps(c: State, h: nat, renewed: Option<Lease>, now: int, later: int)
    requires Inv(c) && h < |c.regs|
    ensures Inv(Renew(c, h, renewed, now, later))
  {
    hide Inv, Retire, Expire;
    RetireKeeps(c, h, Revoked);
    if renewed.Some? && ValidRenewal(c.regs[h], renewed.value, now) {
      RenewedGeneration(c, h, renewed.value, now);
      var r := c.regs[h].(expiresAt := renewed.value.expiresAt, observedAt := Some(now), generation := renewed.value.generation);
      SetKeeps(c, h, r);
      ExpireKeeps(SetReg(c, h, r), h, later);
    }
  }

  lemma RenewedGeneration(c: State, h: nat, lease: Lease, now: int)
    requires Inv(c) && h < |c.regs| && ValidRenewal(c.regs[h], lease, now)
    ensures lease.generation >= 0
  {
  }

  lemma MinusMeet(m: map<Label, nat>, labels: set<Label>)
    ensures m - labels * m.Keys == m - labels
    ensures forall l | l in m :: l in labels * m.Keys <==> l in labels
  {
  }

  lemma DetachShape(c: State, labels: set<Label>)
    ensures var d := Detach(c, labels);
            && d == c.(regs := d.regs, agents := c.agents - labels, revocations := c.revocations + |labels * c.agents.Keys|)
            && |d.regs| == |c.regs|
            && forall h | 0 <= h < |c.regs| ::
                 d.regs[h] == if Current(c, h) && c.regs[h].subdomain in labels then c.regs[h].(accepting := false) else c.regs[h]
  {
    MinusMeet(c.agents, labels);
  }

  lemma RetireAllShape(c: State, labels: set<Label>)
    ensures var d := RetireAll(c, labels);
            && d == c.(regs := d.regs, agents := c.agents - labels, revocations := c.revocations + |labels * c.agents.Keys|,
                       overrides := d.overrides, schedules := d.schedules)
            && |d.regs| == |c.regs|
            && forall h | 0 <= h < |c.regs| ::
                 d.regs[h] == if Current(c, h) && c.regs[h].subdomain in labels then c.regs[h].(accepting := false) else c.regs[h]
  {
    hide Tidied, Detach;
    DetachShape(c, labels);
    TidiedShape(Detach(c, labels), AccountsAt(c, labels));
  }

  /** Closing what `m` names under `labels` to visitors touches nothing else that is named. */
  lemma ClosedAlone(regs: seq<Registration>, regs': seq<Registration>, m: map<Label, nat>, labels: set<Label>, o: map<Label, nat>)
    requires |regs| == |regs'|
    requires forall h | 0 <= h < |regs| ::
               regs'[h] == if Holds(m, regs[h].subdomain, h) && regs[h].subdomain in labels then regs[h].(accepting := false) else regs[h]
    requires forall l | l in m :: m[l] < |regs| && regs[m[l]].subdomain == l
    requires forall l | l in o :: o[l] < |regs| && regs[o[l]].subdomain == l && (l in m ==> m[l] != o[l])
    ensures HoldingsKept(regs, regs') && RolesKept(regs, regs', m - labels) && RolesKept(regs, regs', o)
  {
  }

  lemma RetireAllKeeps(c: State, labels: set<Label>)
    requires Inv(c)
    ensures Inv(RetireAll(c, labels))
  {
    hide Inv, RetireAll, SubMap, RolesKept, HoldingsKept;
    Bounds(c);
    RetireAllShape(c, labels);
    ClosedAlone(c.regs, RetireAll(c, labels).regs, c.agents, labels, c.pending);
    SubMinus(c.agents, labels);
    SubMinus(c.pending, {});
    ReleaseKeeps(c, RetireAll(c, labels));
  }

  lemma CancelAllShape(c: State, labels: set<Label>)
    ensures var d := CancelAll(c, labels);
            && d == c.(regs := d.regs, pending := c.pending - labels, revocations := c.revocations + |labels * c.pending.Keys|)
            && |d.regs| == |c.regs|
            && forall h | 0 <= h < |c.regs| ::
                 d.regs[h] == if Pending(c, h) && c.regs[h].subdomain in labels then c.regs[h].(accepting := false) else c.regs[h]
  {
    MinusMeet(c.pending, labels);
  }

  lemma CancelAllKeeps(c: State, labels: set<Label>)
    requires Inv(c)
    ensures Inv(CancelAll(c, labels))
  {
    hide Inv, CancelAll, SubMap, RolesKept, HoldingsKept;
    Bounds(c);
    CancelAllShape(c, labels);
    ClosedAlone(c.regs, CancelAll(c, labels).regs, c.pending, labels, c.agents);
    SubMinus(c.pending, labels);
    SubMinus(c.agents, {});
    ReleaseKeeps(c, CancelAll(c, labels));
  }

  lemma RevokeKeeps(c: State, id: LeaseId)
    requires Inv(c)
    ensures Inv(RevokeLease(c, id))
  {
    hide Inv, RetireAll, CancelAll;
    var c1 := RetireAll(c, OfLease(c.regs, c.agents, id));
    RetireAllKeeps(c, OfLease(c.regs, c.agents, id));
    CancelAllKeeps(c1, OfLease(c1.regs, c1.pending, id));
  }

  lemma {:induction false} RevokeEachKeeps(c: State, ids: seq<LeaseId>)
    requires Inv(c)
    ensures Inv(RevokeEach(c, ids))
    decreases |ids|
  {
    hide Inv, RevokeLease;
    if ids != [] {
      RevokeEachKeeps(c, ids[..|ids| - 1]);
      RevokeKeeps(RevokeEach(c, ids[..|ids| - 1]), ids[|ids| - 1]);
    }
  }

  lemma SetBudgetShape(c: State, a: Account, b: Budget)
    ensures var d := SetBudget(c, a, b);
            && d == c.(regs := d.regs, overrides := d.overrides)
            && |d.regs| == |c.regs|
            && forall h | 0 <= h < |c.regs| :: d.regs[h] == c.regs[h].(budget := d.regs[h].budget)
  {
    hide HasWork;
  }

  lemma SetBudgetKeeps(c: State, a: Account, b: Budget)
    requires Inv(c)
    ensures Inv(SetBudget(c, a, b))
  {
    hide Inv, SetBudget, SubMap;
    Bounds(c);
    SetBudgetShape(c, a, b);
    SubMinus(c.agents, {});
    SubMinus(c.pending, {});
    ReleaseKeeps(c, SetBudget(c, a, b));
  }

  lemma {:induction false} SetBudgetsKeeps(c: State, us: seq<BudgetUpdate>)
    requires Inv(c)
    ensures Inv(SetBudgets(c, us))
    decreases |us|
  {
    hide Inv, SetBudget;
    if us != [] {
      var u := us[|us| - 1];
      SetBudgetsKeeps(c, us[..|us| - 1]);
      SetBudgetKeeps(SetBudgets(c, us[..|us| - 1]), u.account, u.budget);
    }
  }

  /** Inv reads neither the budgets, the schedules nor the counters. */
  lemma CountersKeep(c: State, d: State)
    requires Inv(c) && d.cfg == c.cfg && d.regs == c.regs && d.agents == c.agents && d.pending == c.pending
    requires d.visitors == c.visitors && d.buffered == c.buffered
    ensures Inv(d)
  {
  }

  lemma UpdateKeeps(c: State, u: Update)
    requires Inv(c)
    ensures Inv(ApplyUpdate(c, u))
  {
    hide Inv, RevokeEach, SetBudgets, ValidUpdate, Named;
    RevokeEachKeeps(c, Named(u));
    SetBudgetsKeeps(RevokeEach(c, Named(u)), u.budgets);
    CountersKeep(if ValidUpdate(c.version, u) then SetBudgets(RevokeEach(c, Named(u)), u.budgets) else c, ApplyUpdate(c, u));
  }

  lemma HolderSame(c: State, h: nat, r: Registration)
    requires HolderInv(c.regs, c.agents, c.pending) && h < |c.regs| && SameRole(c.regs[h], r)
    ensures HolderInv(c.regs[h := r], c.agents, c.pending)
  {
  }

  /** The meter that does not move. */
  lemma MeterStill(regs: seq<Registration>, h: nat, r: Registration, counts: map<Account, nat>, what: Meter)
    requires MeterInv(regs, counts, what) && h < |regs|
    requires r.account == regs[h].account && Holding(r, what) == Holding(regs[h], what)
    ensures MeterInv(regs[h := r], counts, what)
  {
    forall a: Account ensures Count(counts, a) == Sum(regs[h := r], a, what) {
      SumPut(regs, h, r, a, what);
    }
  }

  lemma TakeSlotKeeps(c: State, h: nat)
    requires Inv(c) && h < |c.regs|
    ensures Inv(TakeSlot(c, h))
  {
    hide MeterInv, RoomInv, HolderInv, GenerationInv;
    var r := c.regs[h].(visitors := c.regs[h].visitors + 1);
    HolderSame(c, h, r);
    CountIs(c.regs, c.visitors, Slots, r.account);
    SumAt(c.regs, h, Slots);
    MeterMove(c.regs, h, r, c.visitors, TakeSlot(c, h).visitors, Slots);
    MeterStill(c.regs, h, r, c.buffered, Bytes);
    StillGenerated(c, h, r);
  }

  lemma VisitKeeps(c: State, l: Label, now: int)
    requires Inv(c)
    ensures Inv(Visit(c, l, now))
  {
    hide Inv, TakeSlot, Retire;
    if l in c.agents && c.agents[l] < |c.regs| {
      TakeSlotKeeps(c, c.agents[l]);
      RetireKeeps(c, c.agents[l], LeaseOver);
    }
  }

  lemma CountIs(regs: seq<Registration>, counts: map<Account, nat>, what: Meter, a: Account)
    requires MeterInv(regs, counts, what)
    ensures Count(counts, a) == Sum(regs, a, what)
  {
  }

  lemma StillGenerated(c: State, h: nat, r: Registration)
    requires GenerationInv(c.regs) && h < |c.regs| && r.generation == c.regs[h].generation
    ensures GenerationInv(c.regs[h := r])
  {
  }

  lemma LeaveShape(c: State, h: nat)
    requires h < |c.regs| && c.regs[h].visitors > 0
    ensures var d, a, r := Leave(c, h), c.regs[h].account, c.regs[h].(visitors := c.regs[h].visitors - 1);
            && d == c.(regs := c.regs[h := r], visitors := d.visitors, overrides := d.overrides, schedules := d.schedules)
            && d.visitors == if Count(c.visitors, a) <= 1 then c.visitors - {a} else c.visitors[a := Count(c.visitors, a) - 1]
  {
    hide Tidied;
    var a := c.regs[h].account;
    TidiedShape(SetReg(c, h, c.regs[h].(visitors := c.regs[h].visitors - 1)).(visitors := c.visitors - {a}), {a});
  }

  lemma ReleaseShape(c: State, h: nat, n: nat)
    requires h < |c.regs| && n <= c.regs[h].buffered
    ensures var d, a, r := Release(c, h, n), c.regs[h].account, c.regs[h].(buffered := c.regs[h].buffered - n);
            && d == c.(regs := c.regs[h := r], buffered := d.buffered, overrides := d.overrides, schedules := d.schedules)
            && d.buffered == if n == 0 then c.buffered
                             else if Count(c.buffered, a) <= n then c.buffered - {a}
                             else c.buffered[a := Count(c.buffered, a) - n]
  {
    hide Tidied;
    var a := c.regs[h].account;
    TidiedShape(SetReg(c, h, c.regs[h].(buffered := c.regs[h].buffered - n)).(buffered := c.buffered - {a}), {a});
  }

  /** The saturating branch of a release never loses or invents a unit. */
  lemma LeaveKeeps(c: State, h: nat)
    requires Inv(c) && h < |c.regs| && c.regs[h].visitors > 0
    ensures Inv(Leave(c, h))
  {
    hide MeterInv, RoomInv, HolderInv, GenerationInv, Leave;
    var r := c.regs[h].(visitors := c.regs[h].visitors - 1);
    HolderSame(c, h, r);
    SumAt(c.regs, h, Slots);
    CountIs(c.regs, c.visitors, Slots, r.account);
    LeaveShape(c, h);
    MeterMove(c.regs, h, r, c.visitors, Leave(c, h).visitors, Slots);
    MeterStill(c.regs, h, r, c.buffered, Bytes);
    StillGenerated(c, h, r);
  }

  lemma ReserveKeeps(c: State, h: nat, n: nat)
    requires Inv(c) && h < |c.regs|
    ensures Inv(Reserve(c, h, n))
  {
    hide MeterInv, RoomInv, HolderInv, GenerationInv, ReserveAllowed;
    if n > 0 && ReserveAllowed(c, h, n) {
      var r := c.regs[h].(buffered := c.regs[h].buffered + n);
      HolderSame(c, h, r);
      CountIs(c.regs, c.buffered, Bytes, r.account);
      SumAt(c.regs, h, Bytes);
      MeterMove(c.regs, h, r, c.buffered, Reserve(c, h, n).buffered, Bytes);
      MeterStill(c.regs, h, r, c.visitors, Slots);
      StillGenerated(c, h, r);
    }
  }

  lemma ReleaseBytesKeeps(c: State, h: nat, n: nat)
    requires Inv(c) && h < |c.regs| && n <= c.regs[h].buffered
    ensures Inv(Release(c, h, n))
  {
    hide MeterInv, RoomInv, HolderInv, GenerationInv, Release;
    var r := c.regs[h].(buffered := c.regs[h].buffered - n);
    HolderSame(c, h, r);
    SumAt(c.regs, h, Bytes);
    CountIs(c.regs, c.buffered, Bytes, r.account);
    ReleaseShape(c, h, n);
    MeterStill(c.regs, h, r, c.visitors, Slots);
    if n == 0 {
      MeterStill(c.regs, h, r, c.buffered, Bytes);
    } else {
      MeterMove(c.regs, h, r, c.buffered, Release(c, h, n).buffered, Bytes);
    }
    StillGenerated(c, h, r);
  }

  lemma ThrottleShape(c: State, h: nat, n: nat, now: real)
    requires h < |c.regs|
    ensures var d := Throttle(c, h, n, now); d == c.(overrides := d.overrides, schedules := d.schedules)
  {
    hide Tidied, BudgetOf, NextAt;
    TidiedShape(c, c.schedules.Keys);
  }

  lemma ThrottleKeeps(c: State, h: nat, n: nat, now: real)
    requires Inv(c) && h < |c.regs|
    ensures Inv(Throttle(c, h, n, now))
  {
    hide Inv, Throttle;
    ThrottleShape(c, h, n, now);
    CountersKeep(c, Throttle(c, h, n, now));
  }

  lemma StepKeeps(c: State, e: Event)
    requires Inv(c) && Enabled(c, e)
    ensures Inv(Step(c, e))
  {
    hide Inv, Claim, Install, Abandon, Disconnect, Expire, Renew, RevokeLease, ApplyUpdate, Visit, Leave, Reserve, Release,
      Throttle;
    match e
    case ClaimE(q) => ClaimKeeps(c, q);
    case InstallE(h) => InstallKeeps(c, h);
    case AbandonE(h) => AbandonKeeps(c, h);
    case DisconnectE(h) => DisconnectKeeps(c, h);
    case ExpireE(h, now) => ExpireKeeps(c, h, now);
    case RenewE(h, renewed, now, later) => RenewKeeps(c, h, renewed, now, later);
    case DrainingE(h) => DrainingKeeps(c, h);
    case RevokeE(id) => RevokeKeeps(c, id);
    case PolicyE(u) => UpdateKeeps(c, u);
    case VisitE(l, now) => VisitKeeps(c, l, now);
    case LeaveE(h) => LeaveKeeps(c, h);
    case ReserveE(h, n) => ReserveKeeps(c, h, n);
    case ReleaseE(h, n) => ReleaseBytesKeeps(c, h, n);
    case ThrottleE(h, n, at) => ThrottleKeeps(c, h, n, at);
  }

  lemma DrainingKeeps(c: State, h: nat)
    requires Inv(c) && h < |c.regs|
    ensures Inv(SetReg(c, h, c.regs[h].(draining := true)))
  {
    SetKeeps(c, h, c.regs[h].(draining := true));
  }

  lemma InitInv(cfg: Config)
    ensures Inv(Init(cfg))
  {
  }

  lemma {:induction false} RunKeeps(c: State, es: seq<Event>)
    requires Inv(c) && Run(c, es).Some?
    ensures Inv(Run(c, es).value)
    decreases |es|
  {
    hide Inv, Step, Enabled;
    if es != [] {
      StepKeeps(c, es[0]);
      RunKeeps(Step(c, es[0]), es[1..]);
    }
  }
}
