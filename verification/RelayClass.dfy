/** The relay as it is written: one object that updates its dictionaries, sets and counters in
    place, and answers "which registrations ..." from its reverse indexes.

    A registration is named by its creation number, `regs` holding them all, so that two maps
    sharing a number share the object. Every method's contract is a step of RelaySpec, whose
    questions are scans; `Perform` is the whole of it. */
module RelayClass {
  import opened Wire
  import opened Names
  import opened RelaySpec
  import opened RelayInvariant
  import opened RelayHistory
  import opened RelayBudgets
  import opened RelayIndex

  type Candidate = (Label, nat)

  datatype Claimed = Registered(h: nat) | Turned(reason: Reason)

  datatype Throttled = Unlimited | StartsAt(at: real) | Refused

  function LabelsOf(cs: seq<Candidate>): set<Label> { set i | 0 <= i < |cs| :: cs[i].0 }

  /** Each label of `labels` once, with what `m` has there. */
  predicate Lists(cs: seq<Candidate>, m: map<Label, nat>, labels: set<Label>) {
    && LabelsOf(cs) == labels
    && (forall i | 0 <= i < |cs| :: cs[i].0 in m && cs[i].1 == m[cs[i].0])
    && (forall i, j | 0 <= i < j < |cs| :: cs[i].0 != cs[j].0)
  }

  lemma ListsNone(m: map<Label, nat>)
    ensures Lists([], m, {})
  {
  }

  lemma ListsMore(cs: seq<Candidate>, m: map<Label, nat>, labels: set<Label>, l: Label)
    requires Lists(cs, m, labels) && l in m && l !in labels
    ensures Lists(cs + [(l, m[l])], m, labels + {l})
  {
    var ds := cs + [(l, m[l])];
    forall i | 0 <= i < |cs| ensures ds[i] == cs[i] && cs[i].0 in labels { assert cs[i].0 in LabelsOf(cs); }
    assert LabelsOf(ds) == labels + {l} by {
      assert ds[|cs|].0 == l;
      forall x | x in labels ensures x in LabelsOf(ds) {
        var i :| 0 <= i < |cs| && cs[i].0 == x;
        assert ds[i].0 == x;
      }
    }
  }

  lemma ListsAt(cs: seq<Candidate>, m: map<Label, nat>, labels: set<Label>, i: nat)
    requires Lists(cs, m, labels) && i < |cs|
    ensures cs[i].0 in m && cs[i].1 == m[cs[i].0] && cs[i].0 in labels
    ensures cs[i].0 !in LabelsOf(cs[..i]) && LabelsOf(cs[..i]) <= labels
    ensures LabelsOf(cs[..i + 1]) == LabelsOf(cs[..i]) + {cs[i].0}
  {
    forall l | l in LabelsOf(cs[..i + 1]) ensures l in LabelsOf(cs[..i]) + {cs[i].0} {
      var j :| 0 <= j < |cs[..i + 1]| && cs[..i + 1][j].0 == l;
      if j < i { assert cs[..i][j].0 == l; }
    }
    forall l | l in LabelsOf(cs[..i]) + {cs[i].0} ensures l in LabelsOf(cs[..i + 1]) {
      if l == cs[i].0 {
        assert cs[..i + 1][i].0 == l;
      } else {
        var j :| 0 <= j < |cs[..i]| && cs[..i][j].0 == l;
        assert cs[..i + 1][j].0 == l;
      }
    }
  }

  lemma ListsAll(cs: seq<Candidate>, m: map<Label, nat>, labels: set<Label>)
    requires Lists(cs, m, labels)
    ensures LabelsOf(cs[..|cs|]) == labels && LabelsOf(cs[..0]) == {} && |cs| == |labels|
  {
    assert cs[..|cs|] == cs;
    ListsSize(cs, m, labels);
  }

  lemma {:induction false} ListsSize(cs: seq<Candidate>, m: map<Label, nat>, labels: set<Label>)
    requires Lists(cs, m, labels)
    ensures |cs| == |labels|
    decreases |cs|
  {
    if cs == [] {
      assert LabelsOf(cs) == {};
    } else {
      var n := |cs| - 1;
      ListsAt(cs, m, labels, n);
      assert cs[..n + 1] == cs;
      ListsSize(cs[..n], m, LabelsOf(cs[..n]));
    }
  }

  class Relay {
    const cfg: Config

    var regs: seq<Registration>
    var agents: map<Label, nat>
    var pending: map<Label, nat>
    var accountLabels: LabelIndex
    var leaseLabels: LabelIndex
    var pendingLeaseLabels: LabelIndex
    var activeVisitors: map<Account, nat>
    var accountBuffered: map<Account, nat>
    var budgetOverrides: map<Account, Budget>
    var bandwidth: map<Account, real>
    var policyVersion: int
    var updatesApplied: nat
    var updatesRejected: nat
    var revocations: nat
    var expirations: nat

    constructor (cfg: Config)
      ensures Valid() && Abs() == Init(cfg)
    {
      this.cfg := cfg;
      regs, agents, pending := [], map[], map[];
      accountLabels, leaseLabels, pendingLeaseLabels := map[], map[], map[];
      activeVisitors, accountBuffered, budgetOverrides, bandwidth := map[], map[], map[], map[];
      policyVersion, updatesApplied, updatesRejected, revocations, expirations := 0, 0, 0, 0, 0;
      new;
      InitInv(cfg);
    }

    // -- what the fields stand for

    ghost function Abs(): State
      reads this
    {
      State(cfg, regs, agents, pending, activeVisitors, accountBuffered, budgetOverrides, bandwidth, policyVersion,
            updatesApplied, updatesRejected, revocations, expirations)
    }

    /** Each index is the inverse image of its map. */
    ghost predicate Indexed()
      reads this
    {
      && Index(accountLabels, regs, agents, ByAccount)
      && Index(leaseLabels, regs, agents, ByLease)
      && Index(pendingLeaseLabels, regs, pending, ByLease)
    }

    /** The part of the invariant that also holds in the middle of a step. */
    ghost predicate Coherent()
      reads this
    {
      && Indexed()
      && (forall l | l in agents :: agents[l] < |regs| && regs[agents[l]].subdomain == l)
      && (forall l | l in pending :: pending[l] < |regs| && regs[pending[l]].subdomain == l)
    }

    ghost predicate Valid()
      reads this
    {
      Inv(Abs()) && Indexed()
    }

    lemma ValidCoheres()
      requires Valid()
      ensures Coherent()
    {
      hide Inv, Index;
      Bounds(Abs());
    }

    // -- local work

    method AccountHasLocalWork(a: Account) returns (r: bool)
      requires Coherent()
      ensures r == HasWork(Abs(), a)
    {
      hide Index;
      LookupIsScan(accountLabels, regs, agents, ByAccount, a);
      HavingIs(regs, agents, a);
      if a in accountLabels { return true; }
      if a in activeVisitors && activeVisitors[a] > 0 { return true; }
      if a in accountBuffered && accountBuffered[a] > 0 { return true; }
      r := PendingWorkOf(a);
    }

    method PendingWorkOf(a: Account) returns (r: bool)
      requires forall l | l in pending :: pending[l] < |regs|
      ensures r == (OfAccount(regs, pending, a) != {})
    {
      var todo := pending;
      while todo != map[]
        invariant todo.Keys <= pending.Keys
        invariant forall l | l in pending && l !in todo :: regs[pending[l]].account != a
        decreases |todo|
      {
        var l :| l in todo;
        if regs[pending[l]].account == a {
          assert l in OfAccount(regs, pending, a);
          return true;
        }
        todo := todo - {l};
      }
      return false;
    }

    method DropAccountBandwidthIfIdle(a: Account)
      requires Coherent()
      modifies this`bandwidth, this`budgetOverrides
      ensures Coherent() && Abs() == DropIfIdle(old(Abs()), a) && bandwidth.Keys <= old(bandwidth).Keys
    {
      hide Index, HasWork;
      var work := AccountHasLocalWork(a);
      if work {
        TidiedBusy(Abs(), a);
        return;
      }
      TidiedIdle(Abs(), a);
      bandwidth := bandwidth - {a};
      budgetOverrides := budgetOverrides - {a};
    }

    // -- the registry

    method DeregisterIfCurrent(h: nat)
      requires Coherent() && h < |regs|
      modifies this`agents, this`leaseLabels, this`accountLabels, this`bandwidth, this`budgetOverrides
      ensures Coherent() && Abs() == Deregister(old(Abs()), h)
    {
      hide Index, DropIfIdle;
      var l := regs[h].subdomain;
      if l !in agents || agents[l] != h { return; }
      Unlist(l);
      DropAccountBandwidthIfIdle(regs[h].account);
    }

    /** Assign to fields of registration `h` that the indexes do not read. */
    method Assign(h: nat, r: Registration)
      requires Coherent() && h < |regs| && Evolves(regs[h], r)
      modifies this`regs
      ensures Coherent() && Abs() == SetReg(old(Abs()), h, r)
    {
      hide Index;
      IndexSame(accountLabels, regs, regs[h := r], agents, ByAccount);
      IndexSame(leaseLabels, regs, regs[h := r], agents, ByLease);
      IndexSame(pendingLeaseLabels, regs, regs[h := r], pending, ByLease);
      regs := regs[h := r];
    }

    method RetireRegistration(h: nat, why: Cause)
      requires Coherent() && h < |regs|
      modifies this`regs, this`agents, this`leaseLabels, this`accountLabels, this`bandwidth, this`budgetOverrides,
               this`revocations, this`expirations
      ensures Coherent() && Abs() == Retire(old(Abs()), h, why)
    {
      hide Index, Deregister, Relay.Coherent;
      var l := regs[h].subdomain;
      if l !in agents || agents[l] != h { return; }
      Assign(h, regs[h].(accepting := false));
      DeregisterIfCurrent(h);
      CountRetired(why);
    }

    method CountRetired(why: Cause)
      requires Coherent()
      modifies this`revocations, this`expirations
      ensures Coherent()
      ensures Abs() == if why == Revoked then old(Abs()).(revocations := old(revocations) + 1)
                       else old(Abs()).(expirations := old(expirations) + 1)
    {
      hide Index;
      if why == Revoked { revocations := revocations + 1; } else { expirations := expirations + 1; }
    }

    method DropPendingIfCurrent(h: nat)
      requires Coherent() && h < |regs|
      modifies this`pending, this`pendingLeaseLabels
      ensures Coherent() && Abs() == DropPending(old(Abs()), h)
    {
      hide Index;
      var l := regs[h].subdomain;
      if l in pending && pending[l] == h {
        IndexRemove(pendingLeaseLabels, regs, pending, ByLease, l);
        pendingLeaseLabels := WithoutLabel(pendingLeaseLabels, regs[h].lease, l);
        pending := pending - {l};
      }
    }

    method RetirePendingRegistration(h: nat) returns (done: bool)
      requires Coherent() && h < |regs|
      modifies this`regs, this`pending, this`pendingLeaseLabels, this`revocations
      ensures Coherent() && done == Pending(old(Abs()), h)
      ensures var c := old(Abs());
              Abs() == if !Pending(c, h) then c
                       else c.(regs := c.regs[h := c.regs[h].(accepting := false)], pending := c.pending - {c.regs[h].subdomain},
                               revocations := c.revocations + 1)
    {
      hide Index;
      var l := regs[h].subdomain;
      if l !in pending || pending[l] != h { return false; }
      Assign(h, regs[h].(accepting := false));
      DropPendingIfCurrent(h);
      revocations := revocations + 1;
      return true;
    }

    /** `_registrations_for_lease_index`, over either map. Nothing in the index is ever stale. */
    method RegistrationsForLease(id: LeaseId, index: LabelIndex, m: map<Label, nat>)
      returns (candidates: seq<Candidate>, index': LabelIndex)
      requires Index(index, regs, m, ByLease) && forall l | l in m :: m[l] < |regs|
      ensures Lists(candidates, m, OfLease(regs, m, id)) && index' == index
    {
      hide Index, Lists;
      LookupIsScan(index, regs, m, ByLease, id);
      HavingIs(regs, m, id);
      index' := index;
      if id !in index {
        candidates := ScanForLease(id, m);
        return;
      }
      candidates := [];
      ListsNone(m);
      var todo, stale := index[id], {};
      assert index[id] - todo == {};
      while todo != {}
        invariant todo <= index[id] && stale == {}
        invariant Lists(candidates, m, index[id] - todo)
        decreases |todo|
      {
        var l :| l in todo;
        if l !in m || regs[m[l]].lease != id {
          stale := stale + {l};
        } else {
          ListsMore(candidates, m, index[id] - todo, l);
          assert index[id] - todo + {l} == index[id] - (todo - {l});
          candidates := candidates + [(l, m[l])];
        }
        todo := todo - {l};
      }
      assert index[id] - todo == index[id];
      index' := if index[id] - stale == {} then index - {id} else index[id := index[id] - stale];
    }

    method ScanForLease(id: LeaseId, m: map<Label, nat>) returns (candidates: seq<Candidate>)
      requires forall l | l in m :: m[l] < |regs|
      ensures Lists(candidates, m, OfLease(regs, m, id))
    {
      hide Lists;
      candidates := [];
      ListsNone(m);
      var todo := m;
      assert OfLease(regs, m, id) - todo.Keys == {};
      while todo != map[]
        invariant todo.Keys <= m.Keys
        invariant Lists(candidates, m, OfLease(regs, m, id) - todo.Keys)
        decreases |todo|
      {
        var l :| l in todo;
        ghost var found := OfLease(regs, m, id);
        if regs[m[l]].lease == id {
          ListsMore(candidates, m, found - todo.Keys, l);
          assert found - todo.Keys + {l} == found - (todo - {l}).Keys;
          candidates := candidates + [(l, m[l])];
        } else {
          assert found - todo.Keys == found - (todo - {l}).Keys;
        }
        todo := todo - {l};
      }
      assert OfLease(regs, m, id) - todo.Keys == OfLease(regs, m, id);
    }

    /** `revoke_lease`; None for the error on an unknown action. */
    method RevokeLeaseId(id: LeaseId, action: string) returns (revoked: Option<nat>)
      requires Coherent()
      modifies this`regs, this`agents, this`pending, this`leaseLabels, this`accountLabels, this`pendingLeaseLabels,
               this`bandwidth, this`budgetOverrides, this`revocations, this`expirations
      ensures Coherent()
      ensures revoked.Some? <==> ValidAction(action)
      ensures Abs() == if ValidAction(action) then RevokeLease(old(Abs()), id) else old(Abs())
      ensures revoked.Some? && id != "" ==>
                revoked.value == |OfLease(old(regs), old(agents), id)| + |OfLease(old(regs), old(pending), id)|
    {
      hide Index, RetireAll, CancelAll, OfLease;
      if action != "drain" && action != "close" { return None; }
      if id == "" { return Some(0); }
      var n := RevokeActive(id);
      label active:
      PendingLeases(old(Abs()), OfLease(old(regs), old(agents), id), id);
      var k := RevokePending(id);
      return Some(n + k);
    }

    method RevokeActive(id: LeaseId) returns (revoked: nat)
      requires Coherent()
      modifies this`regs, this`agents, this`leaseLabels, this`accountLabels, this`bandwidth, this`budgetOverrides,
               this`revocations, this`expirations
      ensures Coherent() && Abs() == RetireAll(old(Abs()), OfLease(old(regs), old(agents), id))
      ensures revoked == |OfLease(old(regs), old(agents), id)|
    {
      hide Index, RetireAll, Retire, Lists, LabelsOf, Inv;
      var candidates: seq<Candidate>;
      candidates, leaseLabels := RegistrationsForLease(id, leaseLabels, agents);
      revoked := 0;
      ghost var c, m, labels := Abs(), agents, OfLease(regs, agents, id);
      ListsAll(candidates, m, labels);
      RetireNone(c);
      for i := 0 to |candidates|
        invariant Coherent() && revoked == i
        invariant Abs() == RetireAll(c, LabelsOf(candidates[..i]))
      {
        ListsAt(candidates, m, labels, i);
        RetireOneMore(c, LabelsOf(candidates[..i]), candidates[i].0);
        RetireRegistration(candidates[i].1, Revoked);
        revoked := revoked + 1;
      }
    }

    method RevokePending(id: LeaseId) returns (revoked: nat)
      requires Coherent()
      modifies this`regs, this`pending, this`pendingLeaseLabels, this`revocations
      ensures Coherent() && Abs() == CancelAll(old(Abs()), OfLease(old(regs), old(pending), id))
      ensures revoked == |OfLease(old(regs), old(pending), id)|
    {
      hide Index, CancelAll, Lists, LabelsOf;
      var candidates: seq<Candidate>;
      candidates, pendingLeaseLabels := RegistrationsForLease(id, pendingLeaseLabels, pending);
      revoked := 0;
      ghost var c, m, labels := Abs(), pending, OfLease(regs, pending, id);
      ListsAll(candidates, m, labels);
      RetireNone(c);
      for i := 0 to |candidates|
        invariant Coherent() && revoked == i
        invariant Abs() == CancelAll(c, LabelsOf(candidates[..i]))
      {
        ListsAt(candidates, m, labels, i);
        CancelOneMore(c, LabelsOf(candidates[..i]), candidates[i].0);
        var done := RetirePendingRegistration(candidates[i].1);
        if done { revoked := revoked + 1; }
      }
    }

    // -- admission

    method AuthorizeClaim(adm: Admission, l: Label) returns (error: Option<Reason>)
      requires Coherent()
      ensures error == Unauthorized(Abs(), adm, l)
    {
      hide Index;
      if adm.allowedLabel.Some? {
        var allowed := Fold(adm.allowedLabel.value);
        if !ValidLabel(allowed) || l != allowed { return Some(SubdomainNotAllowed); }
      }
      if l in agents && regs[agents[l]].account != adm.account { return Some(SubdomainTaken); }
      if l in pending { return Some(SubdomainPending); }
      var owned := OwnedLabels(adm.account);
      if l !in owned && |owned| >= adm.maxTunnels { return Some(TunnelLimit); }
      return None;
    }

    method OwnedLabels(a: Account) returns (owned: set<Label>)
      requires Coherent()
      ensures owned == Owned(Abs(), a)
    {
      hide Index, OfAccount;
      LookupIsScan(accountLabels, regs, agents, ByAccount, a);
      HavingIs(regs, agents, a);
      var waiting := PendingLabelsOf(a);
      owned := At(accountLabels, a) + waiting;
    }

    method PendingLabelsOf(a: Account) returns (labels: set<Label>)
      requires forall l | l in pending :: pending[l] < |regs|
      ensures labels == OfAccount(regs, pending, a)
    {
      labels := {};
      var todo := pending;
      ghost var found := OfAccount(regs, pending, a);
      assert found - todo.Keys == {};
      while todo != map[]
        invariant todo.Keys <= pending.Keys && labels == found - todo.Keys
        decreases |todo|
      {
        var l :| l in todo;
        if regs[pending[l]].account == a {
          assert found - todo.Keys + {l} == found - (todo - {l}).Keys;
          labels := labels + {l};
        } else {
          assert found - todo.Keys == found - (todo - {l}).Keys;
        }
        todo := todo - {l};
      }
      assert found - todo.Keys == found;
    }

    method AssignLabel(q: Hello) returns (choice: Choice)
      ensures choice == ChooseLabel(Abs(), q)
    {
      if !cfg.hostRouted {
        return if q.requested.Some? then NoLabel(SubdomainUnsupported) else Chosen(DEFAULT_LABEL);
      }
      if q.requested.Some? {
        return if ValidLabel(q.requested.value) then Chosen(q.requested.value) else NoLabel(InvalidSubdomain);
      }
      var i := 0;
      while i < ASSIGN_ATTEMPTS && i < |q.picks|
        invariant 0 <= i <= ASSIGN_ATTEMPTS && i <= |q.picks|
        invariant FirstFree(Abs(), q.picks, ASSIGN_ATTEMPTS) == FirstFree(Abs(), q.picks[i..], ASSIGN_ATTEMPTS - i)
      {
        var l := q.picks[i];
        if l !in agents && l !in pending { return Chosen(l); }
        i := i + 1;
      }
      return NoLabel(NoFreeSubdomain);
    }

    /** The first locked section of `_serve_agent`: the new registration, or why there is none. */
    method ClaimLabel(q: Hello) returns (claimed: Claimed)
      requires Coherent()
      modifies this`regs, this`pending, this`pendingLeaseLabels
      ensures Coherent() && Abs() == Claim(old(Abs()), q)
      ensures claimed == match ChooseLabel(old(Abs()), q)
                         case NoLabel(reason) => Turned(reason)
                         case Chosen(l) => (match Refusal(old(Abs()), q, l)
                                            case Some(reason) => Turned(reason)
                                            case None => Registered(|old(regs)|))
      ensures claimed.Registered? ==> Pending(Abs(), claimed.h)
    {
      hide Index, ChooseLabel, Unauthorized, RelayHasRoom;
      var choice := AssignLabel(q);
      if choice.NoLabel? { return Turned(choice.reason); }
      var l := choice.value;
      var error := AuthorizeClaim(q.adm, l);
      if error.Some? { return Turned(error.value); }
      var room := GlobalAgentBudgetOk(l);
      if !room { return Turned(ServerTunnelLimit); }
      if !q.urlOk { return Turned(HttpsUnavailable); }
      if !q.reconnectOk { return Turned(ReconnectLimit); }
      if Expired(q.adm.expiresAt, q.now) { return Turned(LeaseExpired); }
      NotWaiting(Abs(), q.adm, l);
      var budget := if q.adm.account in budgetOverrides then budgetOverrides[q.adm.account] else q.adm.budget;
      claimed := Registered(|regs|);
      AddPending(l, Registration(l, q.adm.account, q.adm.credential, q.adm.lease, budget, false, false, q.adm.expiresAt,
                                 if q.adm.expiresAt.Some? then Some(q.now) else None, q.adm.generation, Waiting, 0, 0));
    }

    method GlobalAgentBudgetOk(l: Label) returns (ok: bool)
      ensures ok == RelayHasRoom(Abs(), l)
    {
      return l in agents || |agents| + |pending| < cfg.maxAgents;
    }

    method AddPending(l: Label, r: Registration)
      requires Coherent() && l !in pending && r.subdomain == l
      modifies this`regs, this`pending, this`pendingLeaseLabels
      ensures Coherent()
      ensures Abs() == old(Abs()).(regs := old(regs) + [r], pending := old(pending)[l := |old(regs)|])
    {
      hide Index;
      AddRecord(r);
      var h := |regs| - 1;
      IndexAdd(pendingLeaseLabels, regs, pending, ByLease, l, h);
      pendingLeaseLabels := WithLabel(pendingLeaseLabels, r.lease, l);
      pending := pending[l := h];
    }

    method AddRecord(r: Registration)
      requires Coherent()
      modifies this`regs
      ensures Coherent() && Abs() == old(Abs()).(regs := old(regs) + [r])
    {
      hide Index;
      EvolvePush(regs, r);
      IndexSame(accountLabels, regs, regs + [r], agents, ByAccount);
      IndexSame(leaseLabels, regs, regs + [r], agents, ByLease);
      IndexSame(pendingLeaseLabels, regs, regs + [r], pending, ByLease);
      regs := regs + [r];
    }

    /** The label leaves the registry and both its indexes. */
    method Unlist(l: Label)
      requires Coherent() && l in agents
      modifies this`agents, this`leaseLabels, this`accountLabels
      ensures Coherent() && Abs() == old(Abs()).(agents := old(agents) - {l})
    {
      hide Index;
      var r := regs[agents[l]];
      IndexRemove(accountLabels, regs, agents, ByAccount, l);
      IndexRemove(leaseLabels, regs, agents, ByLease, l);
      agents := agents - {l};
      leaseLabels := WithoutLabel(leaseLabels, r.lease, l);
      accountLabels := WithoutLabel(accountLabels, r.account, l);
    }

    method Enlist(l: Label, h: nat)
      requires Coherent() && l !in agents && h < |regs| && regs[h].subdomain == l
      modifies this`agents, this`leaseLabels, this`accountLabels
      ensures Coherent() && Abs() == old(Abs()).(agents := old(agents)[l := h])
    {
      hide Index;
      IndexAdd(accountLabels, regs, agents, ByAccount, l, h);
      IndexAdd(leaseLabels, regs, agents, ByLease, l, h);
      agents := agents[l := h];
      accountLabels := WithLabel(accountLabels, regs[h].account, l);
      leaseLabels := WithLabel(leaseLabels, regs[h].lease, l);
    }

    /** The account reclaims its label: newest wins. */
    method Reclaim(l: Label, h: nat)
      requires Coherent() && l in agents && h < |regs| && regs[h].subdomain == l
      requires regs[agents[l]].account == regs[h].account
      modifies this`agents, this`leaseLabels, this`accountLabels
      ensures Coherent() && Abs() == old(Abs()).(agents := old(agents)[l := h])
    {
      hide Index;
      IndexMove(leaseLabels, regs, agents, ByLease, l, h);
      IndexSwap(accountLabels, regs, agents, ByAccount, l, h);
      leaseLabels := WithoutLabel(leaseLabels, regs[agents[l]].lease, l);
      agents := agents[l := h];
      accountLabels := WithLabel(accountLabels, regs[h].account, l);
      leaseLabels := WithLabel(leaseLabels, regs[h].lease, l);
    }

    method InstallRegistration(h: nat)
      requires Coherent() && h < |regs|
      modifies this`agents, this`leaseLabels, this`accountLabels, this`bandwidth, this`budgetOverrides
      ensures Coherent() && Abs() == Replace(old(Abs()), h)
    {
      hide Index, Tidied;
      var l := regs[h].subdomain;
      ReplaceShape(Abs(), h);
      if l !in agents {
        Enlist(l, h);
      } else if regs[agents[l]].account == regs[h].account {
        Reclaim(l, h);
      } else {
        var previous := regs[agents[l]].account;
        Unlist(l);
        TidiedShape(Abs(), {previous});
        DropAccountBandwidthIfIdle(previous);
        Enlist(l, h);
      }
    }

    /** The last locked section of `_serve_agent`: whether the slot was still there, and which
        registration was superseded. */
    method InstallPending(h: nat) returns (installed: bool, superseded: Option<nat>)
      requires Coherent() && h < |regs| && regs[h].stage == Waiting
      modifies this`regs, this`agents, this`pending, this`leaseLabels, this`accountLabels, this`pendingLeaseLabels,
               this`bandwidth, this`budgetOverrides
      ensures Coherent() && Abs() == Install(old(Abs()), h)
      ensures installed == Pending(old(Abs()), h)
      ensures superseded == var l := old(regs)[h].subdomain;
                            if installed && l in old(agents) then Some(old(agents)[l]) else None
    {
      hide Index, Replace;
      var l := regs[h].subdomain;
      if l !in pending || pending[l] != h {
        Assign(h, regs[h].(stage := Done));
        return false, None;
      }
      superseded := if l in agents then Some(agents[l]) else None;
      installed := true;
      DropPendingIfCurrent(h);
      Assign(h, regs[h].(accepting := true, stage := Serving));
      InstallRegistration(h);
    }

    method AbandonPending(h: nat)
      requires Coherent() && h < |regs| && regs[h].stage == Waiting
      modifies this`regs, this`pending, this`pendingLeaseLabels
      ensures Coherent() && Abs() == Abandon(old(Abs()), h)
    {
      Assign(h, regs[h].(stage := Done));
      DropPendingIfCurrent(h);
    }

    /** The end of `_serve_agent`. */
    method DisconnectAgent(h: nat)
      requires Coherent() && h < |regs| && regs[h].stage == Serving
      modifies this`regs, this`agents, this`leaseLabels, this`accountLabels, this`bandwidth, this`budgetOverrides
      ensures Coherent() && Abs() == Disconnect(old(Abs()), h)
    {
      hide Index, Deregister;
      Assign(h, regs[h].(stage := Done));
      DeregisterIfCurrent(h);
    }

    // -- leases

    method ExpireLease(h: nat, now: int)
      requires Coherent() && h < |regs|
      modifies this`regs, this`agents, this`leaseLabels, this`accountLabels, this`bandwidth, this`budgetOverrides,
               this`revocations, this`expirations
      ensures Coherent() && Abs() == Expire(old(Abs()), h, now)
    {
      hide Index, Retire;
      if !regs[h].draining && Expired(regs[h].expiresAt, now) { RetireRegistration(h, LeaseOver); }
    }

    /** `_try_renew_lease`, once the answer is in. */
    method RenewLease(h: nat, renewed: Option<Lease>, now: int, later: int)
      requires Coherent() && h < |regs|
      modifies this`regs, this`agents, this`leaseLabels, this`accountLabels, this`bandwidth, this`budgetOverrides,
               this`revocations, this`expirations
      ensures Coherent() && Abs() == Renew(old(Abs()), h, renewed, now, later)
    {
      hide Index, Retire, Expire;
      var r := regs[h];
      if r.subdomain !in agents || agents[r.subdomain] != h || r.draining || r.expiresAt.None? { return; }
      if renewed.None? {
        RetireRegistration(h, Revoked);
      } else if ValidRenewal(r, renewed.value, now) {
        Assign(h, r.(expiresAt := renewed.value.expiresAt, observedAt := Some(now), generation := renewed.value.generation));
        ExpireLease(h, later);
      }
    }

    // -- policy updates

    method ValidPolicyUpdate(u: Update) returns (ok: bool)
      ensures ok == ValidUpdate(policyVersion, u)
      ensures ok ==> forall i | 0 <= i < |u.revocations| :: ValidAction(u.revocations[i].action)
    {
      if u.version <= policyVersion { return false; }
      if |u.revoke| > MAX_REVOKE_LEASE_IDS { return false; }
      var names := CheckNames(u);
      if names.None? { return false; }
      var budgets := CheckBudgets(u.budgets);
      return budgets;
    }

    /** The two lists of leases share one set of names seen. */
    method CheckNames(u: Update) returns (seen: Option<set<LeaseId>>)
      ensures seen.Some? <==>
              && |u.revocations| <= MAX_LEASE_REVOCATIONS
              && (forall i | 0 <= i < |Named(u)| :: Named(u)[i] != "") && Distinct(Named(u))
              && (forall i | 0 <= i < |u.revocations| :: ValidAction(u.revocations[i].action))
    {
      ghost var ids := Named(u);
      var revoked: set<LeaseId> := {};
      for i := 0 to |u.revoke|
        invariant NewNames(ids[..i], revoked)
      {
        var id := u.revoke[i];
        if id == "" || id in revoked {
          NameClash(ids, i, revoked);
          return None;
        }
        NewName(ids, i, revoked);
        revoked := revoked + {id};
      }
      if |u.revocations| > MAX_LEASE_REVOCATIONS { return None; }
      seen := CheckRevocations(u, revoked);
    }

    method CheckRevocations(u: Update, names: set<LeaseId>) returns (seen: Option<set<LeaseId>>)
      requires NewNames(Named(u)[..|u.revoke|], names)
      ensures seen.Some? <==>
              && (forall i | 0 <= i < |Named(u)| :: Named(u)[i] != "") && Distinct(Named(u))
              && (forall i | 0 <= i < |u.revocations| :: ValidAction(u.revocations[i].action))
    {
      hide NewNames, Distinct;
      ghost var ids, n := Named(u), |u.revoke|;
      var revoked := names;
      for i := 0 to |u.revocations|
        invariant NewNames(ids[..n + i], revoked)
        invariant forall j | 0 <= j < i :: ValidAction(u.revocations[j].action)
      {
        var id := u.revocations[i].lease;
        assert id == ids[n + i];
        if id == "" {
          NameClash(ids, n + i, revoked);
          return None;
        }
        if u.revocations[i].action != "drain" && u.revocations[i].action != "close" { return None; }
        if id in revoked {
          NameClash(ids, n + i, revoked);
          return None;
        }
        NewName(ids, n + i, revoked);
        revoked := revoked + {id};
      }
      assert ids[..n + |u.revocations|] == ids;
      NamesNew(ids, revoked);
      return Some(revoked);
    }

    method CheckBudgets(us: seq<BudgetUpdate>) returns (ok: bool)
      ensures ok <==>
              && |us| <= MAX_ACCOUNT_BUDGETS
              && (forall i | 0 <= i < |us| :: us[i].account != "" && ValidBudget(us[i].budget))
              && (forall i, j | 0 <= i < j < |us| :: us[i].account != us[j].account)
    {
      hide ValidBudget;
      if |us| > MAX_ACCOUNT_BUDGETS { return false; }
      var seen: set<Account> := {};
      for i := 0 to |us|
        invariant seen == set j | 0 <= j < i :: us[j].account
        invariant forall j | 0 <= j < i :: us[j].account != "" && ValidBudget(us[j].budget)
        invariant forall j, k | 0 <= j < k < i :: us[j].account != us[k].account
      {
        var b := us[i];
        if b.account == "" || b.account in seen || !ValidBudget(b.budget) { return false; }
        seen := seen + {b.account};
      }
      return true;
    }

    method SetAccountBudget(a: Account, b: Budget)
      requires Coherent()
      modifies this`regs, this`budgetOverrides
      ensures Coherent() && Abs() == SetBudget(old(Abs()), a, b)
    {
      hide Index, HasWork, Rebudgeted;
      var work := AccountHasLocalWork(a);
      if !work {
        budgetOverrides := budgetOverrides - {a};
        return;
      }
      SetBudgetIs(Abs(), a, b);
      budgetOverrides := budgetOverrides[a := b];
      BudgetTunnels(a, b);
    }

    method BudgetTunnels(a: Account, b: Budget)
      requires Coherent()
      modifies this`regs
      ensures Coherent() && Abs() == old(Abs()).(regs := regs) && Rebudgeted(old(regs), agents, regs, a, b, {})
    {
      hide Index, OfAccount, Rebudgeted, Evolves;
      LookupIsScan(accountLabels, regs, agents, ByAccount, a);
      HavingIs(regs, agents, a);
      var todo := At(accountLabels, a);
      RebudgetNone(regs, agents, a, b);
      while todo != {}
        invariant Coherent() && Abs() == old(Abs()).(regs := regs)
        invariant todo <= OfAccount(old(regs), agents, a)
        invariant Rebudgeted(old(regs), agents, regs, a, b, todo)
        decreases |todo|
      {
        var l :| l in todo;
        RebudgetOne(old(regs), agents, regs, a, b, todo, l);
        if l in agents { Assign(agents[l], regs[agents[l]].(budget := b)); }
        todo := todo - {l};
      }
    }

    method ApplyPolicyUpdate(u: Update) returns (ok: bool)
      requires Coherent()
      modifies this`regs, this`agents, this`pending, this`leaseLabels, this`accountLabels, this`pendingLeaseLabels,
               this`bandwidth, this`budgetOverrides, this`revocations, this`expirations, this`policyVersion,
               this`updatesApplied, this`updatesRejected
      ensures Coherent() && Abs() == ApplyUpdate(old(Abs()), u)
      ensures ok == ValidUpdate(old(policyVersion), u)
      ensures !ok ==>
                && updatesRejected == old(updatesRejected) + 1
                && unchanged(`regs, `agents, `pending, `accountLabels, `leaseLabels, `pendingLeaseLabels, `activeVisitors,
                             `accountBuffered, `budgetOverrides, `bandwidth, `policyVersion, `updatesApplied, `revocations,
                             `expirations)
      ensures ok ==>
                && policyVersion == u.version > old(policyVersion) && updatesApplied == old(updatesApplied) + 1
                && updatesRejected == old(updatesRejected)
                && agents == old(agents) - OfLeases(old(regs), old(agents), Named(u))
                && pending == old(pending) - OfLeases(old(regs), old(pending), Named(u))
                && Pushed(Abs(), u.budgets)
    {
      hide Index, ValidUpdate, RevokeLease, RevokeEach, SetBudget, SetBudgets, Named, Pushed, OfLeases, Relay.Coherent;
      ok := ValidPolicyUpdate(u);
      if !ok {
        CountRejected();
        return;
      }
      UpdateApplied(Abs(), u);
      RevokeNamed(u);
      SetAllBudgets(u.budgets);
      SetVersion(u.version);
    }

    method CountRejected()
      requires Coherent()
      modifies this`updatesRejected
      ensures Coherent() && Abs() == old(Abs()).(rejected := old(updatesRejected) + 1)
    {
      hide Index;
      updatesRejected := updatesRejected + 1;
    }

    method SetVersion(version: int)
      requires Coherent()
      modifies this`policyVersion, this`updatesApplied
      ensures Coherent() && Abs() == old(Abs()).(version := version, applied := old(updatesApplied) + 1)
    {
      hide Index;
      policyVersion := version;
      updatesApplied := updatesApplied + 1;
    }

    method RevokeNamed(u: Update)
      requires Coherent() && forall i | 0 <= i < |u.revocations| :: ValidAction(u.revocations[i].action)
      modifies this`regs, this`agents, this`pending, this`leaseLabels, this`accountLabels, this`pendingLeaseLabels,
               this`bandwidth, this`budgetOverrides, this`revocations, this`expirations
      ensures Coherent() && Abs() == RevokeEach(old(Abs()), Named(u))
    {
      hide Index, RevokeLease, RevokeEach;
      ghost var c, ids := Abs(), Leases(u.revocations);
      RevokeNone(c);
      for i := 0 to |u.revoke|
        invariant Coherent() && Abs() == RevokeEach(c, u.revoke[..i])
      {
        RevokeNext(c, u.revoke, i);
        var _ := RevokeLeaseId(u.revoke[i], "drain");
      }
      assert u.revoke[..|u.revoke|] == u.revoke;
      RevokeOnes(u.revocations);
      RevokeEachMore(c, u.revoke, ids);
    }

    method RevokeOnes(rs: seq<Revocation>)
      requires Coherent() && forall i | 0 <= i < |rs| :: ValidAction(rs[i].action)
      modifies this`regs, this`agents, this`pending, this`leaseLabels, this`accountLabels, this`pendingLeaseLabels,
               this`bandwidth, this`budgetOverrides, this`revocations, this`expirations
      ensures Coherent() && Abs() == RevokeEach(old(Abs()), Leases(rs))
    {
      hide Index, RevokeLease, RevokeEach;
      ghost var c, ids := Abs(), Leases(rs);
      RevokeNone(c);
      for i := 0 to |rs|
        invariant Coherent() && Abs() == RevokeEach(c, ids[..i])
      {
        RevokeNext(c, ids, i);
        var _ := RevokeLeaseId(rs[i].lease, rs[i].action);
      }
      assert ids[..|rs|] == ids;
    }

    method SetAllBudgets(us: seq<BudgetUpdate>)
      requires Coherent()
      modifies this`regs, this`budgetOverrides
      ensures Coherent() && Abs() == SetBudgets(old(Abs()), us)
    {
      hide Index, SetBudget;
      ghost var c := Abs();
      for i := 0 to |us|
        invariant Coherent() && Abs() == SetBudgets(c, us[..i])
      {
        assert us[..i + 1][..i] == us[..i];
        SetAccountBudget(us[i].account, us[i].budget);
      }
      assert us[..|us|] == us;
    }

    // -- visitors, buffers and bandwidth

    function AccountBudget(h: nat): (b: Budget)
      requires h < |regs|
      reads this
      ensures b == BudgetOf(Abs(), h)
    {
      if regs[h].account in budgetOverrides then budgetOverrides[regs[h].account] else regs[h].budget
    }

    /** The tunnel the visitor was let in to, or none. */
    method AdmitVisitor(l: Label, now: int) returns (admitted: Option<nat>)
      requires Coherent()
      modifies this`regs, this`agents, this`leaseLabels, this`accountLabels, this`bandwidth, this`budgetOverrides,
               this`revocations, this`expirations, this`activeVisitors
      ensures Coherent() && Abs() == Visit(old(Abs()), l, now)
      ensures admitted == if Admits(old(Abs()), l, now) then Some(old(agents)[l]) else None
    {
      hide Index, Retire;
      if l !in agents { return None; }
      var h := agents[l];
      if !regs[h].accepting || regs[h].draining { return None; }
      if Expired(regs[h].expiresAt, now) {
        RetireRegistration(h, LeaseOver);
        return None;
      }
      var a, limit := regs[h].account, AccountBudget(h).maxVisitors;
      var active := if a in activeVisitors then activeVisitors[a] else 0;
      if limit.Some? && active >= limit.value { return None; }
      activeVisitors := activeVisitors[a := active + 1];
      Assign(h, regs[h].(visitors := regs[h].visitors + 1));
      return Some(h);
    }

    method ReleaseVisitor(h: nat)
      requires Coherent() && h < |regs| && regs[h].visitors > 0
      modifies this`regs, this`activeVisitors, this`bandwidth, this`budgetOverrides
      ensures Coherent() && Abs() == Leave(old(Abs()), h)
    {
      hide Index, DropIfIdle;
      var a := regs[h].account;
      Assign(h, regs[h].(visitors := regs[h].visitors - 1));
      var current := if a in activeVisitors then activeVisitors[a] else 0;
      if current <= 1 {
        activeVisitors := activeVisitors - {a};
        DropAccountBandwidthIfIdle(a);
      } else {
        activeVisitors := activeVisitors[a := current - 1];
      }
    }

    method TryReserveBuffer(h: nat, n: nat) returns (ok: bool)
      requires Coherent() && h < |regs|
      modifies this`regs, this`accountBuffered
      ensures Coherent() && Abs() == Reserve(old(Abs()), h, n)
      ensures ok == (n == 0 || ReserveAllowed(old(Abs()), h, n))
    {
      hide Index;
      if n <= 0 { return true; }
      var a, limit := regs[h].account, AccountBudget(h).maxBufferedBytes;
      var current := if a in accountBuffered then accountBuffered[a] else 0;
      if limit.Some? && (limit.value < 0 || current + n > limit.value) { return false; }
      accountBuffered := accountBuffered[a := current + n];
      Assign(h, regs[h].(buffered := regs[h].buffered + n));
      return true;
    }

    method ReleaseBuffer(h: nat, n: nat)
      requires Coherent() && h < |regs| && n <= regs[h].buffered
      modifies this`regs, this`accountBuffered, this`bandwidth, this`budgetOverrides
      ensures Coherent() && Abs() == Release(old(Abs()), h, n)
    {
      hide Index, DropIfIdle;
      var a := regs[h].account;
      Assign(h, regs[h].(buffered := regs[h].buffered - n));
      if n <= 0 { return; }
      var current := if a in accountBuffered then accountBuffered[a] else 0;
      if current <= n {
        accountBuffered := accountBuffered - {a};
        DropAccountBandwidthIfIdle(a);
      } else {
        accountBuffered := accountBuffered[a := current - n];
      }
    }

    method SweepIdleBandwidth()
      requires Coherent()
      modifies this`bandwidth, this`budgetOverrides
      ensures Coherent() && Abs() == Tidied(old(Abs()), old(bandwidth).Keys) && bandwidth.Keys <= old(bandwidth).Keys
    {
      hide Index, Tidied;
      ghost var c := Abs();
      var all := bandwidth.Keys;
      var todo := all;
      TidiedNone(c);
      assert all - todo == {};
      while todo != {}
        invariant todo <= all && Coherent() && Abs() == Tidied(c, all - todo) && bandwidth.Keys <= all
        decreases |todo|
      {
        var a :| a in todo;
        TidiedOneMore(c, all - todo, a);
        assert all - todo + {a} == all - (todo - {a});
        DropAccountBandwidthIfIdle(a);
        todo := todo - {a};
      }
      assert all - todo == all;
    }

    /** When the chunk may start, unless the account has no limit or may send nothing. */
    method ThrottleBytes(h: nat, n: nat, now: real) returns (t: Throttled)
      requires Coherent() && h < |regs|
      modifies this`bandwidth, this`budgetOverrides
      ensures Coherent() && Abs() == Throttle(old(Abs()), h, n, now)
      ensures var a, limit := regs[h].account, old(BudgetOf(Abs(), h).maxBytesPerSec);
              && (t.Unlimited? <==> n == 0 || limit.None?)
              && (t.Refused? <==> n > 0 && limit.Some? && (limit.value <= 0 || a !in bandwidth))
              && (t.StartsAt? ==>
                    && t.at == Max(if a in old(bandwidth) then old(bandwidth)[a] else 0.0, now)
                    && bandwidth[a] == t.at + n as real / limit.value as real)
    {
      hide Index, Tidied;
      var a, limit := regs[h].account, AccountBudget(h).maxBytesPerSec;
      if n <= 0 || limit.None? { return Unlimited; }
      if limit.value <= 0 { return Refused; }
      if a !in bandwidth && |bandwidth| >= BANDWIDTH_MAX_ACCOUNTS {
        TidiedShape(Abs(), bandwidth.Keys);
        SweepIdleBandwidth();
      }
      if a !in bandwidth && |bandwidth| >= BANDWIDTH_MAX_ACCOUNTS { return Refused; }
      var nextAt := if a in bandwidth then bandwidth[a] else 0.0;
      var start := Max(nextAt, now);
      bandwidth := bandwidth[a := NextAt(nextAt, now, n, limit.value)];
      return StartsAt(start);
    }

    method MarkDraining(h: nat)
      requires Coherent() && h < |regs|
      modifies this`regs
      ensures Coherent() && Abs() == SetReg(old(Abs()), h, old(regs)[h].(draining := true))
    {
      Assign(h, regs[h].(draining := true));
    }

    // -- any task's next step

    /** Whatever step is taken, the object with its indexes takes the same step as the value
        without. */
    method Perform(e: Event)
      requires Valid() && Enabled(Abs(), e)
      modifies this
      ensures Valid() && Abs() == Step(old(Abs()), e)
    {
      hide Inv, Index, Claim, Install, Abandon, Disconnect, Expire, Renew, RevokeLease, ApplyUpdate, Visit, Leave, Reserve,
        Release, Throttle;
      ValidCoheres();
      StepKeeps(Abs(), e);
      match e {
        case ClaimE(q) => var _ := ClaimLabel(q);
        case InstallE(h) => var _, _ := InstallPending(h);
        case AbandonE(h) => AbandonPending(h);
        case DisconnectE(h) => DisconnectAgent(h);
        case ExpireE(h, now) => ExpireLease(h, now);
        case RenewE(h, renewed, now, later) => RenewLease(h, renewed, now, later);
        case DrainingE(h) => MarkDraining(h);
        case RevokeE(id) => var _ := RevokeLeaseId(id, "close");
        case PolicyE(u) => var _ := ApplyPolicyUpdate(u);
        case VisitE(l, now) => var _ := AdmitVisitor(l, now);
        case LeaveE(h) => ReleaseVisitor(h);
        case ReserveE(h, n) => var _ := TryReserveBuffer(h, n);
        case ReleaseE(h, n) => ReleaseBuffer(h, n);
        case ThrottleE(h, n, at) => var _ := ThrottleBytes(h, n, at);
      }
    }

    /** Any interleaving of steps ends where the values do, the indexes exact throughout. */
    method PerformAll(es: seq<Event>)
      requires Valid() && Run(Abs(), es).Some?
      modifies this
      ensures Valid() && Run(old(Abs()), es) == Some(Abs())
    {
      hide Inv, Index, Step, Enabled;
      for i := 0 to |es|
        invariant Valid() && Run(Abs(), es[i..]) == Run(old(Abs()), es)
      {
        assert es[i..] != [] && es[i..][0] == es[i] && es[i..][1..] == es[i + 1..];
        Perform(es[i]);
      }
    }
  }

  /** The label's tunnel takes the visitor. */
  predicate Admits(c: State, l: Label, now: int) {
    && l in c.agents && c.agents[l] < |c.regs|
    && var r := c.regs[c.agents[l]];
    r.accepting && !r.draining && !Expired(r.expiresAt, now) && VisitorAllowed(c, c.agents[l])
  }

  lemma TidiedBusy(c: State, a: Account)
    requires HasWork(c, a)
    ensures DropIfIdle(c, a) == c
  {
    hide HasWork;
    MinusNone(c.overrides);
    MinusNone(c.schedules);
    assert (set x | x in {a} && !HasWork(c, x)) == {};
  }

  lemma TidiedIdle(c: State, a: Account)
    requires !HasWork(c, a)
    ensures DropIfIdle(c, a) == c.(overrides := c.overrides - {a}, schedules := c.schedules - {a})
  {
    hide HasWork;
    assert (set x | x in {a} && !HasWork(c, x)) == {a};
  }

  /** Retiring tunnels leaves every pending slot under its lease. */
  lemma PendingLeases(c: State, labels: set<Label>, id: LeaseId)
    ensures var d := RetireAll(c, labels);
            d.pending == c.pending && OfLease(d.regs, d.pending, id) == OfLease(c.regs, c.pending, id)
  {
    hide RetireAll;
    RetireAllShape(c, labels);
  }

  lemma TidiedOneMore(c: State, done: set<Account>, a: Account)
    ensures DropIfIdle(Tidied(c, done), a) == Tidied(c, done + {a})
  {
    hide HasWork;
    TidiedIs(c, done);
    TidyTwice(c, c, done, a);
  }

  lemma NotWaiting(c: State, adm: Admission, l: Label)
    requires Unauthorized(c, adm, l).None?
    ensures l !in c.pending
  {
  }

  lemma EvolvePush(regs: seq<Registration>, r: Registration)
    ensures AllEvolve(regs, regs + [r])
  {
  }

  /** `_install_registration` in its three cases. */
  lemma ReplaceShape(c: State, h: nat)
    requires h < |c.regs|
    ensures var l := c.regs[h].subdomain;
            if l in c.agents && c.agents[l] < |c.regs| && c.regs[c.agents[l]].account != c.regs[h].account
            then var d := DropIfIdle(c.(agents := c.agents - {l}), c.regs[c.agents[l]].account);
                 Replace(c, h) == d.(agents := d.agents[l := h])
            else Replace(c, h) == c.(agents := c.agents[l := h])
  {
    hide Tidied;
    var l := c.regs[h].subdomain;
    assert (c.agents - {l})[l := h] == c.agents[l := h];
  }

  /** The names checked so far: none empty, none twice, and collected in `seen`. */
  predicate NewNames(ids: seq<LeaseId>, seen: set<LeaseId>) {
    Distinct(ids) && "" !in ids && seen == set i | 0 <= i < |ids| :: ids[i]
  }

  lemma NewName(ids: seq<LeaseId>, i: nat, seen: set<LeaseId>)
    requires i < |ids| && NewNames(ids[..i], seen) && ids[i] != "" && ids[i] !in seen
    ensures NewNames(ids[..i + 1], seen + {ids[i]})
  {
    var next := ids[..i + 1];
    assert next == ids[..i] + [ids[i]];
    forall x | x in seen + {ids[i]} ensures exists j :: 0 <= j < |next| && next[j] == x {
      if x == ids[i] {
        assert next[i] == x;
      } else {
        var j :| 0 <= j < |ids[..i]| && ids[..i][j] == x;
        assert next[j] == x;
      }
    }
  }

  lemma NameClash(ids: seq<LeaseId>, i: nat, seen: set<LeaseId>)
    requires i < |ids| && NewNames(ids[..i], seen) && (ids[i] == "" || ids[i] in seen)
    ensures !(forall j | 0 <= j < |ids| :: ids[j] != "") || !Distinct(ids)
  {
    if ids[i] != "" {
      var j :| 0 <= j < |ids[..i]| && ids[..i][j] == ids[i];
      assert ids[j] == ids[i];
    }
  }

  lemma RevokeNone(c: State)
    ensures RevokeEach(c, []) == c
  {
  }

  lemma RevokeNext(c: State, ids: seq<LeaseId>, i: nat)
    requires i < |ids|
    ensures RevokeEach(c, ids[..i + 1]) == RevokeLease(RevokeEach(c, ids[..i]), ids[i])
  {
    hide RevokeLease;
    assert ids[..i + 1][..i] == ids[..i];
  }

  lemma {:induction false} RevokeEachMore(c: State, ids: seq<LeaseId>, more: seq<LeaseId>)
    ensures RevokeEach(RevokeEach(c, ids), more) == RevokeEach(c, ids + more)
    decreases |more|
  {
    hide RevokeLease;
    if more == [] {
      assert ids + more == ids;
    } else {
      var n := |more| - 1;
      assert (ids + more)[..|ids| + n] == ids + more[..n];
      RevokeEachMore(c, ids, more[..n]);
    }
  }

  lemma NamesNew(ids: seq<LeaseId>, seen: set<LeaseId>)
    requires NewNames(ids, seen)
    ensures (forall i | 0 <= i < |ids| :: ids[i] != "") && Distinct(ids)
  {
  }

  /** Account `a`'s tunnels have budget `b`, except those at `todo`. */
  predicate Rebudgeted(was: seq<Registration>, agents: map<Label, nat>, regs: seq<Registration>, a: Account, b: Budget, todo: set<Label>) {
    && |regs| == |was|
    && forall h | 0 <= h < |regs| ::
         regs[h] == if Holds(agents, was[h].subdomain, h) && was[h].account == a && was[h].subdomain !in todo
                    then was[h].(budget := b) else was[h]
  }

  lemma SetBudgetIs(c: State, a: Account, b: Budget)
    requires HasWork(c, a)
    ensures forall regs | Rebudgeted(c.regs, c.agents, regs, a, b, {}) ::
              SetBudget(c, a, b) == c.(overrides := c.overrides[a := b], regs := regs)
  {
    hide HasWork;
    forall regs | Rebudgeted(c.regs, c.agents, regs, a, b, {}) ensures SetBudget(c, a, b).regs == regs {
    }
  }

  lemma RebudgetNone(regs: seq<Registration>, agents: map<Label, nat>, a: Account, b: Budget)
    requires forall l | l in agents :: agents[l] < |regs| && regs[agents[l]].subdomain == l
    ensures Rebudgeted(regs, agents, regs, a, b, OfAccount(regs, agents, a))
  {
    forall h | 0 <= h < |regs| && Holds(agents, regs[h].subdomain, h) && regs[h].account == a
      ensures regs[h].subdomain in OfAccount(regs, agents, a)
    {
    }
  }

  lemma RebudgetOne(was: seq<Registration>, agents: map<Label, nat>, regs: seq<Registration>, a: Account, b: Budget,
                    todo: set<Label>, l: Label)
    requires forall x | x in agents :: agents[x] < |regs| && regs[agents[x]].subdomain == x
    requires Rebudgeted(was, agents, regs, a, b, todo) && l in todo && todo <= OfAccount(was, agents, a)
    ensures l in agents && Evolves(regs[agents[l]], regs[agents[l]].(budget := b))
    ensures Rebudgeted(was, agents, regs[agents[l] := regs[agents[l]].(budget := b)], a, b, todo - {l})
  {
    assert l in OfAccount(was, agents, a);
  }
}
