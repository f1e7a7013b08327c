/** Which accounts the relay remembers a budget or a schedule for, what an account's totals are,
    and two runs on which the obvious claims fail. */
module RelayTidy {
  import opened Wire
  import opened Names
  import opened RelaySpec
  import opened RelayInvariant
  import opened RelayHistory
  import opened RelayBudgets

  /** The relay keeps a pushed budget or a schedule for account `a`. */
  predicate Remembered(c: State, a: Account) { a in c.overrides || a in c.schedules }

  predicate TidyAt(c: State, a: Account) { Remembered(c, a) ==> HasWork(c, a) }

  /** Budgets and schedules are kept only for accounts with local work. */
  ghost predicate Tidy(c: State) { forall a: Account :: TidyAt(c, a) }

  /** A step that adds to no account's memory and takes work only from accounts it then tidies. */
  predicate TidiesAfter(c: State, d: State, a: Account) {
    (Remembered(d, a) ==> Remembered(c, a)) && (HasWork(c, a) && !HasWork(d, a) ==> !Remembered(d, a))
  }

  lemma Tidies(c: State, d: State, a: Account)
    requires TidyAt(c, a) && TidiesAfter(c, d, a)
    ensures TidyAt(d, a)
  {
    hide HasWork, Remembered;
  }

  /** Accounts outside `accounts` lose no work when the labels, slots and bytes of `freed` go. */
  lemma FreedTidies(c: State, freed: State, accounts: set<Account>, a: Account)
    requires freed.overrides == c.overrides && freed.schedules == c.schedules
    requires a !in accounts && HasWork(c, a) ==> HasWork(freed, a)
    ensures TidiesAfter(c, Tidied(freed, accounts), a)
  {
    hide HasWork, Tidied;
    TidiedWork(freed, accounts, a);
  }

  /** What account `a` has besides the label `l`. */
  lemma OtherWork(c: State, freed: State, l: Label, a: Account)
    requires |freed.regs| == |c.regs| && forall h | 0 <= h < |c.regs| :: freed.regs[h].account == c.regs[h].account
    requires freed.agents == c.agents - {l} && freed.pending == c.pending
    requires freed.visitors == c.visitors && freed.buffered == c.buffered
    requires l in c.agents ==> c.agents[l] < |c.regs| && c.regs[c.agents[l]].account != a
    ensures HasWork(c, a) ==> HasWork(freed, a)
  {
    assert OfAccount(freed.regs, freed.agents, a) == OfAccount(c.regs, c.agents, a);
    assert OfAccount(freed.regs, freed.pending, a) == OfAccount(c.regs, c.pending, a);
  }

  lemma RetireTidies(c: State, h: nat, why: Cause, a: Account)
    requires h < |c.regs| && TidyAt(c, a)
    ensures TidyAt(Retire(c, h, why), a)
  {
    hide HasWork, Tidied;
    if Current(c, h) {
      var r := c.regs[h].(accepting := false);
      var freed := SetReg(c, h, r).(agents := c.agents - {r.subdomain});
      if a != r.account { OtherWork(c, freed, r.subdomain, a); }
      FreedTidies(c, freed, {r.account}, a);
      TidiedShape(freed, {r.account});
      var d := Tidied(freed, {r.account});
      Tidies(c, d, a);
      SameWork(d, Retire(c, h, why), a);
    }
  }

  lemma DisconnectTidies(c: State, h: nat, a: Account)
    requires h < |c.regs| && TidyAt(c, a)
    ensures TidyAt(Disconnect(c, h), a)
  {
    hide HasWork, Tidied;
    var r := c.regs[h].(stage := Done);
    SameWork(c, SetReg(c, h, r), a);
    if Current(c, h) {
      var freed := SetReg(c, h, r).(agents := c.agents - {r.subdomain});
      if a != r.account { OtherWork(c, freed, r.subdomain, a); }
      FreedTidies(c, freed, {r.account}, a);
      Tidies(c, Disconnect(c, h), a);
    }
  }

  lemma SetTidies(c: State, h: nat, r: Registration, a: Account)
    requires h < |c.regs| && r.account == c.regs[h].account && TidyAt(c, a)
    ensures TidyAt(SetReg(c, h, r), a)
  {
    hide HasWork;
    SameWork(c, SetReg(c, h, r), a);
  }

  lemma RenewTidies(c: State, h: nat, renewed: Option<Lease>, now: int, later: int, a: Account)
    requires h < |c.regs| && TidyAt(c, a)
    ensures TidyAt(Renew(c, h, renewed, now, later), a)
  {
    hide TidyAt, Retire;
    RetireTidies(c, h, Revoked, a);
    if renewed.Some? && ValidRenewal(c.regs[h], renewed.value, now) {
      var r := c.regs[h].(expiresAt := renewed.value.expiresAt, observedAt := Some(now), generation := renewed.value.generation);
      SetTidies(c, h, r, a);
      RetireTidies(SetReg(c, h, r), h, LeaseOver, a);
    }
  }

  lemma InstallTidies(c: State, h: nat, a: Account)
    requires Inv(c) && h < |c.regs| && TidyAt(c, a)
    ensures TidyAt(Install(c, h), a)
  {
    hide Inv, HasWork, Install;
    if Pending(c, h) {
      InstallShape(c, h);
      SameHands(c, h);
      InstallWork(c, h, a);
    } else {
      InstallLate(c, h);
      SameWork(c, Install(c, h), a);
    }
  }

  /** The work behind a pending slot becomes the work behind a tunnel. */
  lemma InstallWork(c: State, h: nat, a: Account)
    requires Inv(c) && Pending(c, h)
    ensures HasWork(c, a) ==> HasWork(Install(c, h), a)
  {
    hide RoomInv, MeterInv, GenerationInv, Install;
    InstallShape(c, h);
    var d, l := Install(c, h), c.regs[h].subdomain;
    if a == c.regs[h].account {
      assert l in OfAccount(d.regs, d.agents, a);
    } else {
      assert OfAccount(d.regs, d.agents, a) == OfAccount(c.regs, c.agents, a);
      assert OfAccount(d.regs, d.pending, a) == OfAccount(c.regs, c.pending, a);
    }
  }

  lemma ClaimTidies(c: State, q: Hello, a: Account)
    requires Inv(c) && TidyAt(c, a)
    ensures TidyAt(Claim(c, q), a)
  {
    hide Inv, Claim;
    Bounds(c);
    ClaimShape(c, q);
    var d := Claim(c, q);
    if d != c {
      assert OfAccount(d.regs, d.agents, a) == OfAccount(c.regs, c.agents, a);
      forall l | l in OfAccount(c.regs, c.pending, a) ensures l in OfAccount(d.regs, d.pending, a) {}
    }
  }

  lemma VisitTidies(c: State, l: Label, now: int, a: Account)
    requires TidyAt(c, a)
    ensures TidyAt(Visit(c, l, now), a)
  {
    hide HasWork, Retire;
    if l in c.agents && c.agents[l] < |c.regs| {
      RetireTidies(c, c.agents[l], LeaseOver, a);
      MoreWork(c, TakeSlot(c, c.agents[l]), a);
    }
  }

  /** Slots and bytes taken add work. */
  lemma MoreWork(c: State, d: State, a: Account)
    requires |d.regs| == |c.regs| && forall h | 0 <= h < |c.regs| :: d.regs[h].account == c.regs[h].account
    requires d.agents == c.agents && d.pending == c.pending
    requires Count(d.visitors, a) >= Count(c.visitors, a) && Count(d.buffered, a) >= Count(c.buffered, a)
    ensures HasWork(c, a) ==> HasWork(d, a)
  {
    assert OfAccount(d.regs, d.agents, a) == OfAccount(c.regs, c.agents, a);
    assert OfAccount(d.regs, d.pending, a) == OfAccount(c.regs, c.pending, a);
  }

  lemma LeaveTidies(c: State, h: nat, a: Account)
    requires h < |c.regs| && c.regs[h].visitors > 0 && TidyAt(c, a)
    ensures TidyAt(Leave(c, h), a)
  {
    hide HasWork, Tidied;
    var r := c.regs[h];
    var c1 := SetReg(c, h, r.(visitors := r.visitors - 1));
    var few := c1.(visitors := c.visitors - {r.account});
    if Count(c.visitors, r.account) <= 1 {
      if a != r.account { MoreWork(c, few, a); }
      FreedTidies(c, few, {r.account}, a);
      Tidies(c, Leave(c, h), a);
    } else {
      WorkByCount(c, Leave(c, h), a);
    }
  }

  /** Counts that stay above zero where they were keep the work. */
  lemma WorkByCount(c: State, d: State, a: Account)
    requires |d.regs| == |c.regs| && forall h | 0 <= h < |c.regs| :: d.regs[h].account == c.regs[h].account
    requires d.agents == c.agents && d.pending == c.pending
    requires Count(c.visitors, a) > 0 ==> Count(d.visitors, a) > 0
    requires Count(c.buffered, a) > 0 ==> Count(d.buffered, a) > 0
    ensures HasWork(c, a) ==> HasWork(d, a)
  {
    assert OfAccount(d.regs, d.agents, a) == OfAccount(c.regs, c.agents, a);
    assert OfAccount(d.regs, d.pending, a) == OfAccount(c.regs, c.pending, a);
  }

  lemma ReserveTidies(c: State, h: nat, n: nat, a: Account)
    requires h < |c.regs| && TidyAt(c, a)
    ensures TidyAt(Reserve(c, h, n), a)
  {
    hide HasWork, ReserveAllowed;
    if n > 0 && ReserveAllowed(c, h, n) { MoreWork(c, Reserve(c, h, n), a); }
  }

  lemma ReleaseTidies(c: State, h: nat, n: nat, a: Account)
    requires h < |c.regs| && n <= c.regs[h].buffered && TidyAt(c, a)
    ensures TidyAt(Release(c, h, n), a)
  {
    hide HasWork, Tidied;
    var r := c.regs[h];
    var c1 := SetReg(c, h, r.(buffered := r.buffered - n));
    if n > 0 && Count(c.buffered, r.account) <= n {
      var few := c1.(buffered := c.buffered - {r.account});
      if a != r.account { MoreWork(c, few, a); }
      FreedTidies(c, few, {r.account}, a);
      Tidies(c, Release(c, h, n), a);
    } else {
      WorkByCount(c, Release(c, h, n), a);
    }
  }

  /** A pump throttles only while its visitor holds a slot, so a schedule starts with work. */
  lemma ThrottleTidies(c: State, h: nat, n: nat, now: real, a: Account)
    requires Inv(c) && h < |c.regs| && c.regs[h].visitors > 0 && TidyAt(c, a)
    ensures TidyAt(Throttle(c, h, n, now), a)
  {
    hide Inv, HasWork, Tidied, BudgetOf, NextAt;
    SlotIsWork(c, h);
    TidiedWork(c, c.schedules.Keys, a);
    TidiedShape(c, c.schedules.Keys);
    SameWork(c, Throttle(c, h, n, now), a);
  }

  lemma SlotIsWork(c: State, h: nat)
    requires Inv(c) && h < |c.regs| && c.regs[h].visitors > 0
    ensures HasWork(c, c.regs[h].account)
  {
    hide RoomInv, HolderInv, GenerationInv;
    SumAt(c.regs, h, Slots);
    CountIs(c.regs, c.visitors, Slots, c.regs[h].account);
  }

  // -- pending slots

  /** Account `a` has something besides its pending slots among `labels`. */
  predicate BusyElsewhere(c: State, a: Account, labels: set<Label>) {
    || OfAccount(c.regs, c.agents, a) != {}
    || Count(c.visitors, a) > 0
    || Count(c.buffered, a) > 0
    || OfAccount(c.regs, c.pending, a) - labels != {}
  }

  lemma PendingWork(c: State, d: State, labels: set<Label>, a: Account)
    requires |d.regs| == |c.regs| && forall h | 0 <= h < |c.regs| :: d.regs[h].account == c.regs[h].account
    requires d.agents == c.agents && d.pending == c.pending - labels && d.visitors == c.visitors && d.buffered == c.buffered
    ensures HasWork(d, a) <==> BusyElsewhere(c, a, labels)
  {
    assert OfAccount(d.regs, d.agents, a) == OfAccount(c.regs, c.agents, a);
    assert OfAccount(d.regs, d.pending, a) == OfAccount(c.regs, c.pending, a) - labels;
  }

  /** Dropping a pending slot is the one place that forgets to tidy: the result is tidy exactly
      when the slot's account is not remembered or has something else going on. */
  lemma AbandonTidyIff(c: State, h: nat)
    requires Tidy(c) && Pending(c, h)
    ensures var a := c.regs[h].account;
            Tidy(Abandon(c, h)) <==> !Remembered(c, a) || BusyElsewhere(c, a, {c.regs[h].subdomain})
  {
    hide HasWork, BusyElsewhere;
    var d, r := Abandon(c, h), c.regs[h];
    forall a: Account ensures HasWork(d, a) <==> BusyElsewhere(c, a, {r.subdomain}) {
      PendingWork(c, d, {r.subdomain}, a);
    }
    forall a: Account | a != r.account ensures TidyAt(c, a) ==> TidyAt(d, a) {
      OthersBusy(c, r.subdomain, a);
    }
    if !Remembered(c, r.account) || BusyElsewhere(c, r.account, {r.subdomain}) {
      forall a: Account ensures TidyAt(d, a) { assert TidyAt(c, a); }
    } else {
      assert !TidyAt(d, r.account);
    }
  }

  lemma OthersBusy(c: State, l: Label, a: Account)
    requires l in c.pending ==> c.pending[l] < |c.regs| && c.regs[c.pending[l]].account != a
    ensures HasWork(c, a) ==> BusyElsewhere(c, a, {l})
  {
    assert OfAccount(c.regs, c.pending, a) - {l} == OfAccount(c.regs, c.pending, a);
  }

  /** An account that has lost nothing by the retirement of `labels`. */
  lemma OthersWork(c: State, d: State, labels: set<Label>, a: Account)
    requires |d.regs| == |c.regs| && forall h | 0 <= h < |c.regs| :: d.regs[h].account == c.regs[h].account
    requires d.agents == c.agents - labels && d.pending == c.pending && d.visitors == c.visitors && d.buffered == c.buffered
    requires a !in AccountsAt(c, labels)
    ensures HasWork(c, a) ==> HasWork(d, a)
  {
    assert OfAccount(d.regs, d.agents, a) == OfAccount(c.regs, c.agents, a);
    assert OfAccount(d.regs, d.pending, a) == OfAccount(c.regs, c.pending, a);
  }

  lemma AbandonedLate(c: State, h: nat)
    requires h < |c.regs| && !Pending(c, h)
    ensures Abandon(c, h) == SetReg(c, h, c.regs[h].(stage := Done))
  {
  }

  // -- totals

  /** A reservation is granted exactly when the account's total, over all its tunnels, would stay
      within the limit then in force; granted, it counts in full, and refused, nothing changes. */
  lemma ReservationIff(c: State, h: nat, n: nat)
    requires Inv(c) && h < |c.regs| && n > 0
    ensures var d, a, limit := Reserve(c, h, n), c.regs[h].account, BudgetOf(c, h).maxBufferedBytes;
            if limit.None? || Sum(c.regs, a, Bytes) + n <= limit.value
            then |d.regs| == |c.regs| && d.regs[h] == c.regs[h].(buffered := c.regs[h].buffered + n)
                 && Sum(d.regs, a, Bytes) == Sum(c.regs, a, Bytes) + n
            else d == c
  {
    hide Inv, BudgetOf, Sum, ReserveAllowed;
    var a := c.regs[h].account;
    RoomIff(c, h, n);
    SumPut(c.regs, h, c.regs[h].(buffered := c.regs[h].buffered + n), a, Bytes);
  }

  lemma RoomIff(c: State, h: nat, n: nat)
    requires Inv(c) && h < |c.regs| && n > 0
    ensures var limit := BudgetOf(c, h).maxBufferedBytes;
            ReserveAllowed(c, h, n) <==> limit.None? || Sum(c.regs, c.regs[h].account, Bytes) + n <= limit.value
  {
    hide Inv, BudgetOf, Sum;
    BytesIs(c, c.regs[h].account);
  }

  /** A visitor of label `l` is let in exactly when the label has a tunnel that is neither draining
      nor past its lease and the account has a slot left within the limit in force; it then takes
      that slot on that tunnel. Otherwise nobody's slots change. */
  lemma VisitorIff(c: State, l: Label, now: int)
    requires Inv(c)
    ensures var d := Visit(c, l, now);
            if l in c.agents && Admits(c, c.agents[l], now)
            then var h := c.agents[l];
                 && |d.regs| == |c.regs| && d.regs[h] == c.regs[h].(visitors := c.regs[h].visitors + 1)
                 && Sum(d.regs, c.regs[h].account, Slots) == Sum(c.regs, c.regs[h].account, Slots) + 1
                 && d.agents == c.agents
            else d.visitors == c.visitors && |d.regs| == |c.regs| && forall k | 0 <= k < |c.regs| :: d.regs[k].visitors == c.regs[k].visitors
  {
    hide Inv, Retire, BudgetOf, Sum;
    if l in c.agents {
      OpenToVisitors(c, l);
      var h := c.agents[l];
      SlotsIs(c, c.regs[h].account);
      SumPut(c.regs, h, c.regs[h].(visitors := c.regs[h].visitors + 1), c.regs[h].account, Slots);
      RetireLeavesSlots(c, h);
    }
  }

  /** The tunnel takes one more visitor. */
  predicate Admits(c: State, h: nat, now: int) {
    && h < |c.regs| && !c.regs[h].draining
    && (c.regs[h].expiresAt.Some? ==> now < c.regs[h].expiresAt.value)
    && var limit := BudgetOf(c, h).maxVisitors;
       limit.Some? ==> Sum(c.regs, c.regs[h].account, Slots) + 1 <= limit.value
  }

  lemma OpenToVisitors(c: State, l: Label)
    requires Inv(c) && l in c.agents
    ensures c.agents[l] < |c.regs| && c.regs[c.agents[l]].accepting && c.regs[c.agents[l]].subdomain == l
  {
    hide RoomInv, MeterInv, GenerationInv;
  }

  lemma BytesIs(c: State, a: Account)
    requires Inv(c)
    ensures Count(c.buffered, a) == Sum(c.regs, a, Bytes) >= 0
  {
    hide RoomInv, HolderInv, GenerationInv;
    CountIs(c.regs, c.buffered, Bytes, a);
  }

  lemma SlotsIs(c: State, a: Account)
    requires Inv(c)
    ensures Count(c.visitors, a) == Sum(c.regs, a, Slots)
  {
    hide RoomInv, HolderInv, GenerationInv;
    CountIs(c.regs, c.visitors, Slots, a);
  }

  lemma RetireLeavesSlots(c: State, h: nat)
    requires h < |c.regs|
    ensures var d := Retire(c, h, LeaseOver);
            d.visitors == c.visitors && |d.regs| == |c.regs| && forall k | 0 <= k < |c.regs| :: d.regs[k].visitors == c.regs[k].visitors
  {
    hide Tidied;
    var r := c.regs[h].(accepting := false);
    TidiedShape(SetReg(c, h, r).(agents := c.agents - {r.subdomain}), {r.account});
  }

  /** A slot given back is one less in the account's total. */
  lemma SlotReturned(c: State, h: nat)
    requires Inv(c) && h < |c.regs| && c.regs[h].visitors > 0
    ensures var d, a := Leave(c, h), c.regs[h].account;
            && |d.regs| == |c.regs| && d.regs[h].visitors == c.regs[h].visitors - 1
            && Count(d.visitors, a) == Count(c.visitors, a) - 1
            && forall x | x != a :: Count(d.visitors, x) == Count(c.visitors, x)
  {
    hide Inv, Leave, Sum;
    LeaveShape(c, h);
    SlotsIs(c, c.regs[h].account);
    SumAt(c.regs, h, Slots);
  }

  /** And so is every byte. */
  lemma BytesReturned(c: State, h: nat, n: nat)
    requires Inv(c) && h < |c.regs| && n <= c.regs[h].buffered
    ensures var d, a := Release(c, h, n), c.regs[h].account;
            && |d.regs| == |c.regs| && d.regs[h].buffered == c.regs[h].buffered - n
            && Count(d.buffered, a) == Count(c.buffered, a) - n
            && forall x | x != a :: Count(d.buffered, x) == Count(c.buffered, x)
  {
    hide Inv, Release, Sum;
    ReleaseShape(c, h, n);
    BytesIs(c, c.regs[h].account);
    SumAt(c.regs, h, Bytes);
  }

  /** Nothing is left over: an account none of whose tunnels holds anything has no entry. */
  lemma NothingLeftOver(c: State, a: Account)
    requires Inv(c) && forall h | 0 <= h < |c.regs| && c.regs[h].account == a :: c.regs[h].visitors == 0 && c.regs[h].buffered == 0
    ensures a !in c.visitors && a !in c.buffered
  {
    hide RoomInv, HolderInv, GenerationInv;
    CountIs(c.regs, c.visitors, Slots, a);
    CountIs(c.regs, c.buffered, Bytes, a);
    SumNothing(c.regs, a, Slots);
    SumNothing(c.regs, a, Bytes);
  }

  lemma {:induction false} SumNothing(regs: seq<Registration>, a: Account, what: Meter)
    requires forall h | 0 <= h < |regs| && regs[h].account == a :: Holding(regs[h], what) == 0
    ensures Sum(regs, a, what) == 0
  {
    if regs != [] { SumNothing(regs[..|regs| - 1], a, what); }
  }

  // -- two runs

  function AnyBudget(): Budget { Budget(None, None, None, None) }

  function SomeHello(): Hello {
    Hello(Some("a"), [], Admission("acct", None, "lease", None, 0, AnyBudget(), 1, None), true, true, 0)
  }

  /** With the one claim pending. */
  function Claimed(): State { Claim(Init(Config(1, true)), SomeHello()) }

  lemma ClaimedShape()
    ensures var c := Claimed();
            && |c.regs| == 1 && c.regs[0].account == "acct" && c.regs[0].subdomain == "a" && c.regs[0].stage == Waiting
            && c.pending == map["a" := 0] && c.agents == map[] && c.visitors == map[] && c.buffered == map[]
            && c.overrides == map[] && c.version == 0 && c.cfg == Config(1, true)
  {
    assert ChooseLabel(Init(Config(1, true)), SomeHello()) == Chosen("a");
  }

  function SomePush(): Update { Update(1, [], [], [BudgetUpdate("acct", AnyBudget())]) }

  lemma PushIs(c: State)
    requires c.pending == map["a" := 0] && |c.regs| == 1 && c.regs[0].account == "acct" && c.version == 0
    ensures HasWork(c, "acct")
    ensures ApplyUpdate(c, SomePush()) == SetBudget(c, "acct", AnyBudget()).(version := 1, applied := c.applied + 1)
  {
    hide SetBudget;
    assert "a" in OfAccount(c.regs, c.pending, "acct");
    var us := SomePush().budgets;
    assert us[..0] == [] && SetBudgets(c, []) == c && SetBudgets(c, us) == SetBudget(c, "acct", AnyBudget());
    assert RevokeEach(c, []) == c && Named(SomePush()) == [];
    BudgetWork(c, "acct", AnyBudget(), "acct");
    SetBudgetShape(c, "acct", AnyBudget());
  }

  /** A pushed budget outlives the pending slot it was kept for. */
  lemma BudgetOutlivesPending()
    ensures var es := [ClaimE(SomeHello()), PolicyE(SomePush()), AbandonE(0)];
            var d := Run(Init(Config(1, true)), es);
            d.Some? && "acct" in d.value.overrides && !HasWork(d.value, "acct")
  {
    hide Claim, HasWork, SetBudget, ApplyUpdate;
    ClaimedShape();
    var c := Claimed();
    var d := ApplyUpdate(c, SomePush());
    PushIs(c);
    SetBudgetShape(c, "acct", AnyBudget());
    SetBudgetGoverns(c, "acct", AnyBudget());
    PendingWork(d, Abandon(d, 0), {"a"}, "acct");
  }

  /** Reclaiming a label takes a second entry: with room for one agent there are two. */
  lemma EntriesExceedLimit()
    ensures var es := [ClaimE(SomeHello()), InstallE(0), ClaimE(SomeHello())];
            var d := Run(Init(Config(1, true)), es);
            d.Some? && |d.value.agents| + |d.value.pending| > d.value.cfg.maxAgents
  {
    hide Claim, Install, Inv;
    ClaimedShape();
    var c := Claimed();
    InitInv(Config(1, true));
    ClaimKeeps(Init(Config(1, true)), SomeHello());
    InstallShape(c, 0);
    Reclaims(Install(c, 0));
  }

  lemma Reclaims(c: State)
    requires c.cfg == Config(1, true) && c.agents == map["a" := 0] && c.pending == map[]
    requires |c.regs| == 1 && c.regs[0].account == "acct"
    ensures var d := Claim(c, SomeHello()); d.cfg == c.cfg && |d.agents| == 1 && |d.pending| == 1
  {
    assert "a" in OfAccount(c.regs, c.agents, "acct");
    assert ChooseLabel(c, SomeHello()) == Chosen("a") && Refusal(c, SomeHello(), "a") == None;
  }
}
