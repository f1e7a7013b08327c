/** The relay's tunnel registry and budgets as a value, without the reverse indexes, and its
    atomic steps.

    `regs` holds every TunnelRegistration ever built, in creation order; the registry maps a
    label to an index into it, which stands for the object's identity. Everything that asks
    "which registrations ..." is written here as a scan of the maps. Times are integers. */
module RelaySpec {
  import opened Wire
  import opened Names

  type Label = string
  type Account = string
  type LeaseId = string

  const DEFAULT_LABEL := "default"
  const ASSIGN_ATTEMPTS := 100
  const MAX_REVOKE_LEASE_IDS := 10000
  const MAX_LEASE_REVOCATIONS := 10000
  const MAX_ACCOUNT_BUDGETS := 4096
  const BANDWIDTH_MAX_ACCOUNTS := 65536

  /** A limit of None is unlimited. */
  datatype Budget = Budget(
    maxVisitors: Option<int>,
    maxBytesPerSec: Option<int>,
    maxReconnectsPerMin: Option<int>,
    maxBufferedBytes: Option<int>)

  /** Where the connection's handler is: holding a pending slot, running its multiplexer, or
      past both. */
  datatype Stage = Waiting | Serving | Done

  datatype Registration = Registration(
    subdomain: Label,
    account: Account,
    credential: Option<string>,
    lease: LeaseId,
    budget: Budget,
    accepting: bool,
    draining: bool,
    expiresAt: Option<int>,
    observedAt: Option<int>,
    generation: int,
    stage: Stage,
    visitors: nat,          // visitor slots held on this tunnel
    buffered: nat)          // bytes its multiplexer holds of the account's buffer

  datatype Config = Config(maxAgents: int, hostRouted: bool)

  datatype State = State(
    cfg: Config,
    regs: seq<Registration>,
    agents: map<Label, nat>,
    pending: map<Label, nat>,
    visitors: map<Account, nat>,
    buffered: map<Account, nat>,
    overrides: map<Account, Budget>,
    schedules: map<Account, real>,      // when the account's next chunk may start
    version: int,
    applied: nat,
    rejected: nat,
    revocations: nat,
    expirations: nat)

  function Init(cfg: Config): State {
    State(cfg, [], map[], map[], map[], map[], map[], map[], 0, 0, 0, 0, 0)
  }

  function Count(m: map<Account, nat>, a: Account): nat { if a in m then m[a] else 0 }

  /** `l`'s entry of `m` is registration `h`. */
  predicate Holds(m: map<Label, nat>, l: Label, h: nat) { l in m && m[l] == h }

  predicate Current(c: State, h: nat) { h < |c.regs| && Holds(c.agents, c.regs[h].subdomain, h) }
  predicate Pending(c: State, h: nat) { h < |c.regs| && Holds(c.pending, c.regs[h].subdomain, h) }

  /** The labels of `m` whose registration belongs to account `a`, or to lease `id`. */
  function OfAccount(regs: seq<Registration>, m: map<Label, nat>, a: Account): set<Label> {
    set l | l in m && m[l] < |regs| && regs[m[l]].account == a
  }

  function OfLease(regs: seq<Registration>, m: map<Label, nat>, id: LeaseId): set<Label> {
    set l | l in m && m[l] < |regs| && regs[m[l]].lease == id
  }

  /** `_account_has_local_work` */
  predicate HasWork(c: State, a: Account) {
    || OfAccount(c.regs, c.agents, a) != {}
    || Count(c.visitors, a) > 0
    || Count(c.buffered, a) > 0
    || OfAccount(c.regs, c.pending, a) != {}
  }

  /** Forget the budget and the schedule of each account in `accounts` that has no local work. */
  function Tidied(c: State, accounts: set<Account>): State {
    var idle := set a | a in accounts && !HasWork(c, a);
    c.(overrides := c.overrides - idle, schedules := c.schedules - idle)
  }

  function DropIfIdle(c: State, a: Account): State { Tidied(c, {a}) }

  // -- budgets

  function BudgetFor(c: State, a: Account, default: Budget): Budget {
    if a in c.overrides then c.overrides[a] else default
  }

  function BudgetOf(c: State, h: nat): Budget
    requires h < |c.regs|
  {
    BudgetFor(c, c.regs[h].account, c.regs[h].budget)
  }

  predicate ValidLimit(v: Option<int>) { v.Some? ==> v.value >= 0 }

  predicate ValidBudget(b: Budget) {
    && ValidLimit(b.maxVisitors) && ValidLimit(b.maxBytesPerSec)
    && ValidLimit(b.maxReconnectsPerMin) && ValidLimit(b.maxBufferedBytes)
  }

  // -- admission

  datatype Admission = Admission(
    account: Account,
    credential: Option<string>,
    lease: LeaseId,
    expiresAt: Option<int>,
    generation: nat,
    budget: Budget,
    maxTunnels: int,
    allowedLabel: Option<string>)

  /** A hello that has been authenticated, its label folded. `picks` are the random labels drawn, `urlOk` says the
      scheme can be served, `reconnectOk` is the answer of the reconnect limiter. */
  datatype Hello = Hello(
    requested: Option<Label>,
    picks: seq<Label>,
    adm: Admission,
    urlOk: bool,
    reconnectOk: bool,
    now: int)

  datatype Reason =
    | SubdomainUnsupported | InvalidSubdomain | NoFreeSubdomain
    | SubdomainNotAllowed | SubdomainTaken | SubdomainPending | TunnelLimit
    | ServerTunnelLimit | HttpsUnavailable | ReconnectLimit | LeaseExpired

  predicate Free(c: State, l: Label) { l !in c.agents && l !in c.pending }

  function FirstFree(c: State, picks: seq<Label>, attempts: nat): Option<Label> {
    if picks == [] || attempts == 0 then None
    else if Free(c, picks[0]) then Some(picks[0])
    else FirstFree(c, picks[1..], attempts - 1)
  }

  datatype Choice = Chosen(value: Label) | NoLabel(reason: Reason)

  function ChooseLabel(c: State, q: Hello): Choice {
    if c.cfg.hostRouted then
      if q.requested.Some? then
        if ValidLabel(q.requested.value) then Chosen(q.requested.value) else NoLabel(InvalidSubdomain)
      else
        var pick := FirstFree(c, q.picks, ASSIGN_ATTEMPTS);
        if pick.Some? then Chosen(pick.value) else NoLabel(NoFreeSubdomain)
    else if q.requested.Some? then NoLabel(SubdomainUnsupported)
    else Chosen(DEFAULT_LABEL)
  }

  /** The distinct labels account `a` holds, active or pending. */
  function Owned(c: State, a: Account): set<Label> {
    OfAccount(c.regs, c.agents, a) + OfAccount(c.regs, c.pending, a)
  }

  /** `_authorize_claim` */
  function Unauthorized(c: State, adm: Admission, l: Label): Option<Reason> {
    if adm.allowedLabel.Some? && (!ValidLabel(Fold(adm.allowedLabel.value)) || l != Fold(adm.allowedLabel.value)) then
      Some(SubdomainNotAllowed)
    else if l in c.agents && c.agents[l] < |c.regs| && c.regs[c.agents[l]].account != adm.account then Some(SubdomainTaken)
    else if l in c.pending then Some(SubdomainPending)
    else if l !in Owned(c, adm.account) && |Owned(c, adm.account)| >= adm.maxTunnels then Some(TunnelLimit)
    else None
  }

  /** `_global_agent_budget_ok` */
  predicate RelayHasRoom(c: State, l: Label) {
    l in c.agents || |c.agents| + |c.pending| < c.cfg.maxAgents
  }

  predicate Expired(expiresAt: Option<int>, now: int) { expiresAt.Some? && expiresAt.value <= now }

  /** Why the claim of label `l` is turned away, in the order the checks are made. */
  function Refusal(c: State, q: Hello, l: Label): Option<Reason> {
    var unauthorized := Unauthorized(c, q.adm, l);
    if unauthorized.Some? then unauthorized
    else if !RelayHasRoom(c, l) then Some(ServerTunnelLimit)
    else if !q.urlOk then Some(HttpsUnavailable)
    else if !q.reconnectOk then Some(ReconnectLimit)
    else if Expired(q.adm.expiresAt, q.now) then Some(LeaseExpired)
    else None
  }

  function NewRegistration(c: State, q: Hello, l: Label): Registration {
    Registration(l, q.adm.account, q.adm.credential, q.adm.lease, BudgetFor(c, q.adm.account, q.adm.budget), false, false,
                 q.adm.expiresAt, if q.adm.expiresAt.Some? then Some(q.now) else None, q.adm.generation, Waiting, 0, 0)
  }

  /** The first locked section of `_serve_agent`: a pending slot, or nothing. */
  function Claim(c: State, q: Hello): State {
    match ChooseLabel(c, q)
    case NoLabel(_) => c
    case Chosen(l) =>
      if Refusal(c, q, l).Some? then c
      else c.(regs := c.regs + [NewRegistration(c, q, l)], pending := c.pending[l := |c.regs|])
  }

  function SetReg(c: State, h: nat, r: Registration): State
    requires h < |c.regs|
  {
    c.(regs := c.regs[h := r])
  }

  /** `_install_registration`, with its branch for a label that changes hands. */
  function Replace(c: State, h: nat): State
    requires h < |c.regs|
  {
    var l := c.regs[h].subdomain;
    var freed := c.(agents := c.agents - {l});
    var c1 :=
      if l in c.agents && c.agents[l] < |c.regs| && c.regs[c.agents[l]].account != c.regs[h].account
      then DropIfIdle(freed, c.regs[c.agents[l]].account) else freed;
    c1.(agents := c1.agents[l := h])
  }

  /** The last locked section: the slot becomes the label's tunnel, unless it was taken away. */
  function Install(c: State, h: nat): State
    requires h < |c.regs|
  {
    var r := c.regs[h];
    if !Pending(c, h) then SetReg(c, h, r.(stage := Done))
    else Replace(SetReg(c, h, r.(accepting := true, stage := Serving)).(pending := c.pending - {r.subdomain}), h)
  }

  /** `_drop_pending_if_current` */
  function DropPending(c: State, h: nat): State
    requires h < |c.regs|
  {
    if Pending(c, h) then c.(pending := c.pending - {c.regs[h].subdomain}) else c
  }

  /** The event sink or the ready message failed. */
  function Abandon(c: State, h: nat): State
    requires h < |c.regs|
  {
    DropPending(SetReg(c, h, c.regs[h].(stage := Done)), h)
  }

  /** `_deregister_if_current` */
  function Deregister(c: State, h: nat): State
    requires h < |c.regs|
  {
    if Current(c, h) then DropIfIdle(c.(agents := c.agents - {c.regs[h].subdomain}), c.regs[h].account) else c
  }

  function Disconnect(c: State, h: nat): State
    requires h < |c.regs|
  {
    Deregister(SetReg(c, h, c.regs[h].(stage := Done)), h)
  }

  // -- leases

  datatype Cause = Revoked | LeaseOver

  /** `_retire_registration` */
  function Retire(c: State, h: nat, why: Cause): State
    requires h < |c.regs|
  {
    if !Current(c, h) then c
    else
      var c1 := Deregister(SetReg(c, h, c.regs[h].(accepting := false)), h);
      if why == Revoked then c1.(revocations := c1.revocations + 1) else c1.(expirations := c1.expirations + 1)
  }

  /** The renewal loop, or a visitor, finds the lease over. */
  function Expire(c: State, h: nat, now: int): State
    requires h < |c.regs|
  {
    if !c.regs[h].draining && Expired(c.regs[h].expiresAt, now) then Retire(c, h, LeaseOver) else c
  }

  datatype Lease = Lease(id: LeaseId, account: Account, credential: Option<string>, generation: int, expiresAt: Option<int>)

  predicate ValidRenewal(r: Registration, lease: Lease, now: int) {
    && lease.id == r.lease && lease.account == r.account && lease.credential == r.credential
    && lease.generation >= r.generation
    && lease.expiresAt.Some? && lease.expiresAt.value > now
  }

  /** The result of a renewal arrives; `later` is the clock when the new lease is in place. */
  function Renew(c: State, h: nat, renewed: Option<Lease>, now: int, later: int): State
    requires h < |c.regs|
  {
    var r := c.regs[h];
    if !Current(c, h) || r.draining || r.expiresAt.None? then c
    else if renewed.None? then Retire(c, h, Revoked)
    else if !ValidRenewal(r, renewed.value, now) then c
    else
      var c1 := SetReg(c, h, r.(expiresAt := renewed.value.expiresAt, observedAt := Some(now), generation := renewed.value.generation));
      Expire(c1, h, later)
  }

  /** Take every active registration among `labels` out of the registry. */
  function Detach(c: State, labels: set<Label>): State {
    var hit := labels * c.agents.Keys;
    var regs := seq(|c.regs|, h requires 0 <= h < |c.regs| =>
                  if Current(c, h) && c.regs[h].subdomain in hit then c.regs[h].(accepting := false) else c.regs[h]);
    c.(regs := regs, agents := c.agents - hit, revocations := c.revocations + |hit|)
  }

  function AccountsAt(c: State, labels: set<Label>): set<Account> {
    set l | l in labels && l in c.agents && c.agents[l] < |c.regs| :: c.regs[c.agents[l]].account
  }

  /** Retire every active registration among `labels`, all at once. */
  function RetireAll(c: State, labels: set<Label>): State {
    Tidied(Detach(c, labels), AccountsAt(c, labels))
  }

  /** Take the pending slot of each of `labels` away. */
  function CancelAll(c: State, labels: set<Label>): State {
    var hit := labels * c.pending.Keys;
    var regs := seq(|c.regs|, h requires 0 <= h < |c.regs| =>
                  if Pending(c, h) && c.regs[h].subdomain in hit then c.regs[h].(accepting := false) else c.regs[h]);
    c.(regs := regs, pending := c.pending - hit, revocations := c.revocations + |hit|)
  }

  /** `revoke_lease`: every tunnel under the lease goes, then every pending slot. */
  function RevokeLease(c: State, id: LeaseId): State {
    if id == "" then c
    else
      var c1 := RetireAll(c, OfLease(c.regs, c.agents, id));
      CancelAll(c1, OfLease(c1.regs, c1.pending, id))
  }

  // -- policy updates

  datatype Revocation = Revocation(lease: LeaseId, action: string)
  datatype BudgetUpdate = BudgetUpdate(account: Account, budget: Budget)
  datatype Update = Update(version: int, revoke: seq<LeaseId>, revocations: seq<Revocation>, budgets: seq<BudgetUpdate>)

  function Leases(rs: seq<Revocation>): (r: seq<LeaseId>)
    ensures |r| == |rs| && forall i | 0 <= i < |rs| :: r[i] == rs[i].lease
  {
    seq(|rs|, i requires 0 <= i < |rs| => rs[i].lease)
  }

  /** The leases an update names, in order. */
  function Named(u: Update): seq<LeaseId> { u.revoke + Leases(u.revocations) }

  predicate Distinct<T(==)>(s: seq<T>) { forall i, j | 0 <= i < j < |s| :: s[i] != s[j] }

  predicate ValidAction(a: string) { a == "drain" || a == "close" }

  /** `_valid_policy_update` */
  predicate ValidUpdate(version: int, u: Update) {
    && u.version > version
    && |u.revoke| <= MAX_REVOKE_LEASE_IDS
    && |u.revocations| <= MAX_LEASE_REVOCATIONS
    && |u.budgets| <= MAX_ACCOUNT_BUDGETS
    && (forall i | 0 <= i < |Named(u)| :: Named(u)[i] != "")
    && Distinct(Named(u))
    && (forall i | 0 <= i < |u.revocations| :: ValidAction(u.revocations[i].action))
    && (forall i | 0 <= i < |u.budgets| :: u.budgets[i].account != "" && ValidBudget(u.budgets[i].budget))
    && (forall i, j | 0 <= i < j < |u.budgets| :: u.budgets[i].account != u.budgets[j].account)
  }

  function RevokeEach(c: State, ids: seq<LeaseId>): State
    decreases |ids|
  {
    if ids == [] then c else RevokeLease(RevokeEach(c, ids[..|ids| - 1]), ids[|ids| - 1])
  }

  /** `_set_account_budget` */
  function SetBudget(c: State, a: Account, b: Budget): State {
    if !HasWork(c, a) then c.(overrides := c.overrides - {a})
    else
      c.(overrides := c.overrides[a := b],
         regs := seq(|c.regs|, h requires 0 <= h < |c.regs| =>
                   if Current(c, h) && c.regs[h].account == a then c.regs[h].(budget := b) else c.regs[h]))
  }

  function SetBudgets(c: State, us: seq<BudgetUpdate>): State
    decreases |us|
  {
    if us == [] then c
    else var u := us[|us| - 1]; SetBudget(SetBudgets(c, us[..|us| - 1]), u.account, u.budget)
  }

  /** `_apply_policy_update` */
  function ApplyUpdate(c: State, u: Update): State {
    if !ValidUpdate(c.version, u) then c.(rejected := c.rejected + 1)
    else
      var c1 := SetBudgets(RevokeEach(c, Named(u)), u.budgets);
      c1.(version := u.version, applied := c1.applied + 1)
  }

  // -- visitors, buffers and bandwidth

  predicate VisitorAllowed(c: State, h: nat)
    requires h < |c.regs|
  {
    var limit := BudgetOf(c, h).maxVisitors;
    limit.None? || Count(c.visitors, c.regs[h].account) < limit.value
  }

  function TakeSlot(c: State, h: nat): State
    requires h < |c.regs|
  {
    var r := c.regs[h];
    SetReg(c, h, r.(visitors := r.visitors + 1)).(visitors := c.visitors[r.account := Count(c.visitors, r.account) + 1])
  }

  /** `_select_agent_for_visitor` once the label is known, and the account's slot. */
  function Visit(c: State, l: Label, now: int): State {
    if l !in c.agents || c.agents[l] >= |c.regs| then c
    else
      var h := c.agents[l];
      if !c.regs[h].accepting || c.regs[h].draining then c
      else if Expired(c.regs[h].expiresAt, now) then Retire(c, h, LeaseOver)
      else if !VisitorAllowed(c, h) then c
      else TakeSlot(c, h)
  }

  /** `_release_visitor_budget`; the count saturates. */
  function Leave(c: State, h: nat): State
    requires h < |c.regs| && c.regs[h].visitors > 0
  {
    var r := c.regs[h];
    var c1 := SetReg(c, h, r.(visitors := r.visitors - 1));
    if Count(c.visitors, r.account) <= 1 then DropIfIdle(c1.(visitors := c1.visitors - {r.account}), r.account)
    else c1.(visitors := c1.visitors[r.account := Count(c.visitors, r.account) - 1])
  }

  predicate ReserveAllowed(c: State, h: nat, n: nat)
    requires h < |c.regs|
  {
    var limit := BudgetOf(c, h).maxBufferedBytes;
    limit.None? || (ValidLimit(limit) && Count(c.buffered, c.regs[h].account) + n <= limit.value)
  }

  /** `_try_reserve_account_buffer` */
  function Reserve(c: State, h: nat, n: nat): State
    requires h < |c.regs|
  {
    var r := c.regs[h];
    if n == 0 || !ReserveAllowed(c, h, n) then c
    else SetReg(c, h, r.(buffered := r.buffered + n)).(buffered := c.buffered[r.account := Count(c.buffered, r.account) + n])
  }

  /** `_release_account_buffer`; the count saturates. */
  function Release(c: State, h: nat, n: nat): State
    requires h < |c.regs| && n <= c.regs[h].buffered
  {
    var r := c.regs[h];
    var c1 := SetReg(c, h, r.(buffered := r.buffered - n));
    if n == 0 then c1
    else if Count(c.buffered, r.account) <= n then DropIfIdle(c1.(buffered := c1.buffered - {r.account}), r.account)
    else c1.(buffered := c1.buffered[r.account := Count(c.buffered, r.account) - n])
  }

  function Max(a: real, b: real): real { if a < b then b else a }

  /** A schedule's next start, after a chunk of `n` bytes at `limit` bytes a second. */
  function NextAt(nextAt: real, now: real, n: nat, limit: int): real
    requires limit > 0
  {
    Max(nextAt, now) + n as real / limit as real
  }

  /** The locked part of `_throttle_account_bytes`, with the schedule it finds or makes. */
  function Throttle(c: State, h: nat, n: nat, now: real): State
    requires h < |c.regs|
  {
    var a := c.regs[h].account;
    var limit := BudgetOf(c, h).maxBytesPerSec;
    if n == 0 || limit.None? || limit.value <= 0 then c
    else
      var c1 := if a !in c.schedules && |c.schedules| >= BANDWIDTH_MAX_ACCOUNTS then Tidied(c, c.schedules.Keys) else c;
      if a !in c1.schedules && |c1.schedules| >= BANDWIDTH_MAX_ACCOUNTS then c1
      else c1.(schedules := c1.schedules[a := NextAt(if a in c1.schedules then c1.schedules[a] else 0.0, now, n, limit.value)])
  }

  // -- events

  datatype Event =
    | ClaimE(q: Hello)
    | InstallE(h: nat)
    | AbandonE(h: nat)
    | DisconnectE(h: nat)
    | ExpireE(h: nat, now: int)
    | RenewE(h: nat, renewed: Option<Lease>, now: int, later: int)
    | DrainingE(h: nat)
    | RevokeE(id: LeaseId)
    | PolicyE(u: Update)
    | VisitE(l: Label, now: int)
    | LeaveE(h: nat)
    | ReserveE(h: nat, n: nat)
    | ReleaseE(h: nat, n: nat)
    | ThrottleE(h: nat, n: nat, chunkAt: real)

  /** When a task can take the step. A relay pump throttles while its visitor holds a slot. */
  predicate Enabled(c: State, e: Event) {
    match e
    case InstallE(h) => h < |c.regs| && c.regs[h].stage == Waiting
    case AbandonE(h) => h < |c.regs| && c.regs[h].stage == Waiting
    case DisconnectE(h) => h < |c.regs| && c.regs[h].stage == Serving
    case ExpireE(h, _) => h < |c.regs|
    case RenewE(h, _, _, _) => h < |c.regs|
    case DrainingE(h) => h < |c.regs|
    case LeaveE(h) => h < |c.regs| && c.regs[h].visitors > 0
    case ReserveE(h, _) => h < |c.regs| && c.regs[h].stage == Serving
    case ReleaseE(h, n) => h < |c.regs| && n <= c.regs[h].buffered
    case ThrottleE(h, _, _) => h < |c.regs| && c.regs[h].visitors > 0
    case _ => true
  }

  function Step(c: State, e: Event): State
    requires Enabled(c, e)
  {
    match e
    case ClaimE(q) => Claim(c, q)
    case InstallE(h) => Install(c, h)
    case AbandonE(h) => Abandon(c, h)
    case DisconnectE(h) => Disconnect(c, h)
    case ExpireE(h, now) => Expire(c, h, now)
    case RenewE(h, renewed, now, later) => Renew(c, h, renewed, now, later)
    case DrainingE(h) => SetReg(c, h, c.regs[h].(draining := true))
    case RevokeE(id) => RevokeLease(c, id)
    case PolicyE(u) => ApplyUpdate(c, u)
    case VisitE(l, now) => Visit(c, l, now)
    case LeaveE(h) => Leave(c, h)
    case ReserveE(h, n) => Reserve(c, h, n)
    case ReleaseE(h, n) => Release(c, h, n)
    case ThrottleE(h, n, at) => Throttle(c, h, n, at)
  }

  function Run(c: State, es: seq<Event>): Option<State>
    decreases |es|
  {
    if es == [] then Some(c)
    else if Enabled(c, es[0]) then Run(Step(c, es[0]), es[1..])
    else None
  }
}
