/** The byte-rate schedule of an account, under a constant limit of `limit` bytes a second and
    over one schedule's lifetime. `first` is when the schedule's first chunk could start. */
module Bandwidth {
  import opened Wire
  import opened RelaySpec
  import opened RelayInvariant

  datatype Chunk = Chunk(at: real, n: nat)

  /** When the next chunk could start, after the chunks `cs`. */
  function NextFree(first: real, cs: seq<Chunk>, limit: int): real
    requires limit > 0
  {
    if cs == [] then first
    else var c := cs[|cs| - 1]; NextAt(NextFree(first, cs[..|cs| - 1], limit), c.at, c.n, limit)
  }

  /** When chunk `j` is let through: on arrival, or as soon as the schedule is free. */
  function ReleasedAt(first: real, cs: seq<Chunk>, limit: int, j: nat): real
    requires limit > 0 && j < |cs|
  {
    Max(NextFree(first, cs[..j], limit), cs[j].at)
  }

  /** The bytes of the chunks from `i` up to but not including `j`. */
  function Between(cs: seq<Chunk>, i: nat, j: nat): nat
    requires i <= j <= |cs|
    decreases j
  {
    if i == j then 0 else Between(cs, i, j - 1) + cs[j - 1].n
  }

  /** How long `n` bytes take. */
  function Cost(n: nat, limit: int): real
    requires limit > 0
  {
    n as real / limit as real
  }

  lemma CostAdds(m: nat, n: nat, limit: int)
    requires limit > 0
    ensures Cost(m + n, limit) == Cost(m, limit) + Cost(n, limit)
    ensures Cost(0, limit) == 0.0 && 0.0 <= Cost(n, limit)
  {
  }

  lemma PrefixFree(first: real, cs: seq<Chunk>, limit: int, j: nat)
    requires limit > 0 && j < |cs|
    ensures NextFree(first, cs[..j + 1], limit) == ReleasedAt(first, cs, limit, j) + Cost(cs[j].n, limit)
  {
    assert cs[..j + 1][..j] == cs[..j];
  }

  /** No chunk leaves earlier than any earlier arrival and the bytes since then allow. */
  lemma {:induction false} NotBefore(first: real, cs: seq<Chunk>, limit: int, i: nat, j: nat)
    requires limit > 0 && i <= j < |cs|
    ensures ReleasedAt(first, cs, limit, j) >= cs[i].at + Cost(Between(cs, i, j), limit)
    ensures ReleasedAt(first, cs, limit, j) >= ReleasedAt(first, cs, limit, i) + Cost(Between(cs, i, j), limit)
    decreases j
  {
    if i < j {
      NotBefore(first, cs, limit, i, j - 1);
      PrefixFree(first, cs, limit, j - 1);
      CostAdds(Between(cs, i, j - 1), cs[j - 1].n, limit);
    } else {
      CostAdds(0, 0, limit);
    }
  }

  /** Some arrival explains when chunk `j` leaves. */
  predicate Explains(first: real, cs: seq<Chunk>, limit: int, i: nat, j: nat)
    requires limit > 0 && i <= j < |cs|
  {
    ReleasedAt(first, cs, limit, j) == cs[i].at + Cost(Between(cs, i, j), limit)
  }

  lemma {:induction false} NotDelayed(first: real, cs: seq<Chunk>, limit: int, j: nat) returns (i: nat)
    requires limit > 0 && j < |cs| && first <= cs[0].at
    ensures i <= j && Explains(first, cs, limit, i, j)
    decreases j
  {
    CostAdds(0, 0, limit);
    if j == 0 || ReleasedAt(first, cs, limit, j) == cs[j].at {
      return j;
    }
    PrefixFree(first, cs, limit, j - 1);
    i := NotDelayed(first, cs, limit, j - 1);
    CostAdds(Between(cs, i, j - 1), cs[j - 1].n, limit);
  }

  /** The release time of chunk `j` is the greatest of "arrival of i, plus the time of all the
      bytes from i up to j", over the chunks i up to j: no request waits for less, or longer. */
  lemma ReleaseIsMaxPlus(first: real, cs: seq<Chunk>, limit: int, j: nat)
    requires limit > 0 && j < |cs| && first <= cs[0].at
    ensures forall i | 0 <= i <= j :: ReleasedAt(first, cs, limit, j) >= cs[i].at + Cost(Between(cs, i, j), limit)
    ensures exists i | 0 <= i <= j :: Explains(first, cs, limit, i, j)
  {
    forall i | 0 <= i <= j ensures ReleasedAt(first, cs, limit, j) >= cs[i].at + Cost(Between(cs, i, j), limit) {
      NotBefore(first, cs, limit, i, j);
    }
    var i := NotDelayed(first, cs, limit, j);
  }

  lemma PaidFor(bytes: nat, limit: int, span: real)
    requires limit > 0 && Cost(bytes, limit) <= span
    ensures bytes as real <= limit as real * span
  {
    var rate := limit as real;
    assert bytes as real == bytes as real / rate * rate;
  }

  /** What leaves within any `span` seconds is at most the limit's worth and one chunk. */
  lemma RateBound(first: real, cs: seq<Chunk>, limit: int, i: nat, j: nat, span: real)
    requires limit > 0 && i <= j < |cs|
    requires ReleasedAt(first, cs, limit, j) - ReleasedAt(first, cs, limit, i) <= span
    ensures Between(cs, i, j + 1) as real <= limit as real * span + cs[j].n as real
  {
    hide Cost, ReleasedAt;
    NotBefore(first, cs, limit, i, j);
    PaidFor(Between(cs, i, j), limit, span);
  }

  /** Chunks leave in the order the schedule took them. */
  lemma InOrder(first: real, cs: seq<Chunk>, limit: int, i: nat, j: nat)
    requires limit > 0 && i <= j < |cs|
    ensures ReleasedAt(first, cs, limit, i) <= ReleasedAt(first, cs, limit, j)
  {
    NotBefore(first, cs, limit, i, j);
    CostAdds(0, Between(cs, i, j), limit);
  }

  // -- the relay's account

  predicate Shrinks(m: map<Account, real>, m': map<Account, real>) { forall x | x in m' :: x in m && m'[x] == m[x] }

  lemma TidiedShrinks(c: State, accounts: set<Account>)
    ensures Shrinks(c.schedules, Tidied(c, accounts).schedules)
  {
    hide HasWork;
  }

  lemma RetireShrinks(c: State, h: nat, why: Cause)
    requires h < |c.regs|
    ensures Shrinks(c.schedules, Retire(c, h, why).schedules)
  {
    hide Tidied;
    var r := c.regs[h].(accepting := false);
    TidiedShrinks(SetReg(c, h, r).(agents := c.agents - {r.subdomain}), {r.account});
  }

  lemma RevokeShrinks(c: State, id: LeaseId)
    ensures Shrinks(c.schedules, RevokeLease(c, id).schedules)
  {
    hide Tidied, Detach, CancelAll;
    var labels := OfLease(c.regs, c.agents, id);
    DetachShape(c, labels);
    TidiedShrinks(Detach(c, labels), AccountsAt(c, labels));
    var c1 := RetireAll(c, labels);
    CancelAllShape(c1, OfLease(c1.regs, c1.pending, id));
  }

  lemma {:induction false} RevokeEachShrinks(c: State, ids: seq<LeaseId>)
    ensures Shrinks(c.schedules, RevokeEach(c, ids).schedules)
    decreases |ids|
  {
    hide RevokeLease;
    if ids != [] {
      RevokeEachShrinks(c, ids[..|ids| - 1]);
      RevokeShrinks(RevokeEach(c, ids[..|ids| - 1]), ids[|ids| - 1]);
    }
  }

  lemma UpdateShrinks(c: State, u: Update)
    ensures Shrinks(c.schedules, ApplyUpdate(c, u).schedules)
  {
    hide RevokeEach, SetBudgets, Named, ValidUpdate;
    RevokeEachShrinks(c, Named(u));
    BudgetsNoSchedules(RevokeEach(c, Named(u)), u.budgets);
  }

  lemma {:induction false} BudgetsNoSchedules(c: State, us: seq<BudgetUpdate>)
    ensures SetBudgets(c, us).schedules == c.schedules
    decreases |us|
  {
    hide SetBudget;
    if us != [] {
      BudgetsNoSchedules(c, us[..|us| - 1]);
      SetBudgetShape(SetBudgets(c, us[..|us| - 1]), us[|us| - 1].account, us[|us| - 1].budget);
    }
  }

  lemma ReplaceShrinks(c: State, h: nat)
    requires h < |c.regs|
    ensures Shrinks(c.schedules, Replace(c, h).schedules)
  {
    hide Tidied;
    var l := c.regs[h].subdomain;
    if l in c.agents && c.agents[l] < |c.regs| {
      TidiedShrinks(c.(agents := c.agents - {l}), {c.regs[c.agents[l]].account});
    }
  }

  lemma InstallShrinks(c: State, h: nat)
    requires h < |c.regs|
    ensures Shrinks(c.schedules, Install(c, h).schedules)
  {
    hide Replace;
    var r := c.regs[h];
    ReplaceShrinks(SetReg(c, h, r.(accepting := true, stage := Serving)).(pending := c.pending - {r.subdomain}), h);
  }

  lemma DisconnectShrinks(c: State, h: nat)
    requires h < |c.regs|
    ensures Shrinks(c.schedules, Disconnect(c, h).schedules)
  {
    hide Tidied;
    var r := c.regs[h].(stage := Done);
    TidiedShrinks(SetReg(c, h, r).(agents := c.agents - {r.subdomain}), {r.account});
  }

  lemma RenewShrinks(c: State, h: nat, renewed: Option<Lease>, now: int, later: int)
    requires h < |c.regs|
    ensures Shrinks(c.schedules, Renew(c, h, renewed, now, later).schedules)
  {
    hide Retire;
    RetireShrinks(c, h, Revoked);
    if renewed.Some? && ValidRenewal(c.regs[h], renewed.value, now) {
      var r := c.regs[h].(expiresAt := renewed.value.expiresAt, observedAt := Some(now), generation := renewed.value.generation);
      RetireShrinks(SetReg(c, h, r), h, LeaseOver);
    }
  }

  lemma LeaveShrinks(c: State, h: nat)
    requires h < |c.regs| && c.regs[h].visitors > 0
    ensures Shrinks(c.schedules, Leave(c, h).schedules)
  {
    hide Tidied;
    var r := c.regs[h];
    TidiedShrinks(SetReg(c, h, r.(visitors := r.visitors - 1)).(visitors := c.visitors - {r.account}), {r.account});
  }

  lemma ReleaseShrinks(c: State, h: nat, n: nat)
    requires h < |c.regs| && n <= c.regs[h].buffered
    ensures Shrinks(c.schedules, Release(c, h, n).schedules)
  {
    hide Tidied;
    var r := c.regs[h];
    TidiedShrinks(SetReg(c, h, r.(buffered := r.buffered - n)).(buffered := c.buffered - {r.account}), {r.account});
  }

  /** Only its own account's chunks move a schedule; anything else leaves it or forgets it. */
  lemma StepShrinks(c: State, e: Event)
    requires Enabled(c, e) && !e.ThrottleE?
    ensures Shrinks(c.schedules, Step(c, e).schedules)
  {
    hide Install, Disconnect, Retire, Renew, RevokeLease, ApplyUpdate, Leave, Release, Claim;
    match e
    case ClaimE(q) => ClaimNoSchedules(c, q);
    case InstallE(h) => InstallShrinks(c, h);
    case DisconnectE(h) => DisconnectShrinks(c, h);
    case ExpireE(h, now) => RetireShrinks(c, h, LeaseOver);
    case RenewE(h, renewed, now, later) => RenewShrinks(c, h, renewed, now, later);
    case RevokeE(id) => RevokeShrinks(c, id);
    case PolicyE(u) => UpdateShrinks(c, u);
    case VisitE(l, now) => if l in c.agents && c.agents[l] < |c.regs| { RetireShrinks(c, c.agents[l], LeaseOver); }
    case LeaveE(h) => LeaveShrinks(c, h);
    case ReleaseE(h, n) => ReleaseShrinks(c, h, n);
    case _ =>
  }

  lemma ClaimNoSchedules(c: State, q: Hello)
    ensures Claim(c, q).schedules == c.schedules
  {
    hide ChooseLabel, Refusal, NewRegistration;
  }

  /** What a throttle step does to account `a`'s schedule while it has one. */
  lemma ThrottleMoves(c: State, h: nat, n: nat, at: real, a: Account)
    requires h < |c.regs| && a in c.schedules && a in Throttle(c, h, n, at).schedules
    ensures var limit := BudgetOf(c, h).maxBytesPerSec;
            Throttle(c, h, n, at).schedules[a] ==
              if c.regs[h].account == a && n > 0 && limit.Some? && limit.value > 0
              then NextAt(c.schedules[a], at, n, limit.value) else c.schedules[a]
  {
    hide Tidied, NextAt, BudgetOf;
    TidiedShrinks(c, c.schedules.Keys);
  }

  /** The chunk that a step brings to account `a`. */
  function Arrival(c: State, e: Event, a: Account): seq<Chunk>
    requires Enabled(c, e)
  {
    if e.ThrottleE? && c.regs[e.h].account == a && e.n > 0 then [Chunk(e.chunkAt, e.n)] else []
  }

  /** The chunks that a run brings to account `a`, whichever of its tunnels they use. */
  function Arrivals(c: State, es: seq<Event>, a: Account): seq<Chunk>
    requires Run(c, es).Some?
    decreases |es|
  {
    if es == [] then [] else Arrival(c, es[0], a) + Arrivals(Step(c, es[0]), es[1..], a)
  }

  /** Along the run account `a` has its schedule, and its chunks are under `limit`. */
  predicate OneSchedule(c: State, es: seq<Event>, a: Account, limit: int)
    requires Run(c, es).Some?
    decreases |es|
  {
    && a in c.schedules
    && (es != [] ==>
          && (Arrival(c, es[0], a) != [] ==> BudgetOf(c, es[0].h).maxBytesPerSec == Some(limit))
          && OneSchedule(Step(c, es[0]), es[1..], a, limit))
  }

  lemma StillScheduled(c: State, es: seq<Event>, a: Account, limit: int)
    requires Run(c, es).Some? && OneSchedule(c, es, a, limit)
    ensures a in c.schedules
  {
  }

  lemma {:induction false} FreeAfter(first: real, cs: seq<Chunk>, ds: seq<Chunk>, limit: int)
    requires limit > 0
    ensures NextFree(first, cs + ds, limit) == NextFree(NextFree(first, cs, limit), ds, limit)
    decreases |ds|
  {
    if ds == [] {
      assert cs + ds == cs;
    } else {
      assert (cs + ds)[..|cs + ds| - 1] == cs + ds[..|ds| - 1];
      FreeAfter(first, cs, ds[..|ds| - 1], limit);
    }
  }

  /** Whatever else the relay does meanwhile, the account's schedule is that of its own chunks,
      so the bounds above hold of all its tunnels together. */
  lemma {:induction false} RunSchedule(c: State, es: seq<Event>, a: Account, limit: int)
    requires limit > 0 && Run(c, es).Some? && OneSchedule(c, es, a, limit)
    ensures a in Run(c, es).value.schedules
    ensures Run(c, es).value.schedules[a] == NextFree(c.schedules[a], Arrivals(c, es, a), limit)
    decreases |es|
  {
    hide Step, Enabled, NextAt, BudgetOf;
    if es != [] {
      var d := Step(c, es[0]);
      StillScheduled(d, es[1..], a, limit);
      RunSchedule(d, es[1..], a, limit);
      StepSchedule(c, es[0], a, limit);
      FreeAfter(c.schedules[a], Arrival(c, es[0], a), Arrivals(d, es[1..], a), limit);
    }
  }

  lemma StepSchedule(c: State, e: Event, a: Account, limit: int)
    requires limit > 0 && Enabled(c, e) && a in c.schedules && a in Step(c, e).schedules
    requires Arrival(c, e, a) != [] ==> BudgetOf(c, e.h).maxBytesPerSec == Some(limit)
    ensures Step(c, e).schedules[a] == NextFree(c.schedules[a], Arrival(c, e, a), limit)
  {
    hide NextAt, BudgetOf, Throttle, Step;
    if e.ThrottleE? {
      ThrottleStep(c, e);
      ThrottleMoves(c, e.h, e.n, e.chunkAt, a);
      NextFreeOne(c.schedules[a], Chunk(e.chunkAt, e.n), limit);
    } else {
      StepShrinks(c, e);
    }
  }

  lemma ThrottleStep(c: State, e: Event)
    requires Enabled(c, e) && e.ThrottleE?
    ensures Step(c, e) == Throttle(c, e.h, e.n, e.chunkAt)
  {
  }

  lemma NextFreeOne(first: real, chunk: Chunk, limit: int)
    requires limit > 0
    ensures NextFree(first, [chunk], limit) == NextAt(first, chunk.at, chunk.n, limit)
    ensures NextFree(first, [], limit) == first
  {
  }

  /** The chunk that makes the account's schedule: it could have started at time 0. */
  lemma FirstChunk(c: State, e: Event, a: Account, limit: int)
    requires limit > 0 && Enabled(c, e) && Arrival(c, e, a) != [] && BudgetOf(c, e.h).maxBytesPerSec == Some(limit)
    requires a !in c.schedules && a in Step(c, e).schedules
    ensures Step(c, e).schedules[a] == NextFree(0.0, Arrival(c, e, a), limit)
  {
    hide NextAt, BudgetOf, Tidied;
    ThrottleStep(c, e);
    TidiedShrinks(c, c.schedules.Keys);
    NextFreeOne(0.0, Chunk(e.chunkAt, e.n), limit);
  }

  /** When the throttle lets a chunk of the account through. */
  function LetThrough(c: State, e: Event, a: Account): real
    requires Enabled(c, e) && Arrival(c, e, a) != []
  {
    Max(if a in c.schedules then c.schedules[a] else 0.0, e.chunkAt)
  }

  /** The whole of it, from the account's first chunk on: whatever the relay does in between, a
      chunk leaves at the greatest of "arrival of i, plus the time of all the account's bytes from
      i up to it", over all the chunks of all its tunnels since the schedule was made. */
  lemma ChunkLeavesAt(c: State, first: Event, es: seq<Event>, last: Event, a: Account, limit: int)
    requires limit > 0 && Enabled(c, first) && Arrival(c, first, a) != [] && first.chunkAt >= 0.0
    requires BudgetOf(c, first.h).maxBytesPerSec == Some(limit) && a !in c.schedules
    requires Run(Step(c, first), es).Some? && OneSchedule(Step(c, first), es, a, limit)
    requires var z := Run(Step(c, first), es).value; Enabled(z, last) && Arrival(z, last, a) != []
    ensures var d := Step(c, first);
            var z := Run(d, es).value;
            var cs := Arrival(c, first, a) + Arrivals(d, es, a) + Arrival(z, last, a);
            var j := |cs| - 1;
            && LetThrough(z, last, a) == ReleasedAt(0.0, cs, limit, j)
            && (forall i | 0 <= i <= j :: LetThrough(z, last, a) >= cs[i].at + Cost(Between(cs, i, j), limit))
            && exists i | 0 <= i <= j :: LetThrough(z, last, a) == cs[i].at + Cost(Between(cs, i, j), limit)
  {
    hide Step, Enabled, BudgetOf, NextAt, Cost, Run;
    var d := Step(c, first);
    var z := Run(d, es).value;
    var before := Arrival(c, first, a) + Arrivals(d, es, a);
    var cs := before + Arrival(z, last, a);
    StillScheduled(d, es, a, limit);
    FirstChunk(c, first, a, limit);
    RunSchedule(d, es, a, limit);
    FreeAfter(0.0, Arrival(c, first, a), Arrivals(d, es, a), limit);
    assert cs[..|cs| - 1] == before;
    assert cs[0] == Arrival(c, first, a)[0];
    ReleaseIsMaxPlus(0.0, cs, limit, |cs| - 1);
    var i :| 0 <= i <= |cs| - 1 && Explains(0.0, cs, limit, i, |cs| - 1);
  }

  // -- schedules that are dropped

  /** Along the run every chunk of account `a` arrives at time 0 or later, is under `limit`, and is
      let through. */
  predicate Limited(c: State, es: seq<Event>, a: Account, limit: int)
    requires Run(c, es).Some?
    decreases |es|
  {
    es != [] ==>
      && (Arrival(c, es[0], a) != [] ==>
            && BudgetOf(c, es[0].h).maxBytesPerSec == Some(limit) && es[0].chunkAt >= 0.0
            && a in Step(c, es[0]).schedules)
      && Limited(Step(c, es[0]), es[1..], a, limit)
  }

  /** When each of the account's chunks leaves. */
  function Departures(c: State, es: seq<Event>, a: Account): seq<real>
    requires Run(c, es).Some?
    decreases |es|
  {
    if es == [] then []
    else
      (if Arrival(c, es[0], a) != [] then [LetThrough(c, es[0], a)] else []) + Departures(Step(c, es[0]), es[1..], a)
  }

  /** The chunks leave as one schedule, never dropped, would let them. */
  predicate Paced(first: real, cs: seq<Chunk>, limit: int, times: seq<real>)
    requires limit > 0
  {
    |times| == |cs| && forall j | 0 <= j < |cs| :: times[j] == ReleasedAt(first, cs, limit, j)
  }

  /** No chunk comes to a schedule that has been dropped before that schedule would have been free,
      which is at `free`. */
  predicate NoEarlyReturn(c: State, es: seq<Event>, a: Account, limit: int, free: real)
    requires limit > 0 && Run(c, es).Some?
    decreases |es|
  {
    if es == [] then true
    else if Arrival(c, es[0], a) == [] then NoEarlyReturn(Step(c, es[0]), es[1..], a, limit, free)
    else
      && (a in c.schedules || free <= es[0].chunkAt)
      && NoEarlyReturn(Step(c, es[0]), es[1..], a, limit, NextAt(free, es[0].chunkAt, es[0].n, limit))
  }

  lemma ReleasedLater(first: real, chunk: Chunk, cs: seq<Chunk>, limit: int, j: nat)
    requires limit > 0 && j < |cs|
    ensures ReleasedAt(first, [chunk] + cs, limit, j + 1) == ReleasedAt(NextAt(first, chunk.at, chunk.n, limit), cs, limit, j)
    ensures ReleasedAt(first, [chunk] + cs, limit, 0) == Max(first, chunk.at)
  {
    hide NextAt;
    assert ([chunk] + cs)[..j + 1] == [chunk] + cs[..j];
    FreeAfter(first, [chunk], cs[..j], limit);
    NextFreeOne(first, chunk, limit);
    assert ([chunk] + cs)[..0] == [];
  }

  lemma PacedCons(first: real, chunk: Chunk, cs: seq<Chunk>, limit: int, t: real, times: seq<real>)
    requires limit > 0
    ensures Paced(first, [chunk] + cs, limit, [t] + times) <==>
              t == Max(first, chunk.at) && Paced(NextAt(first, chunk.at, chunk.n, limit), cs, limit, times)
  {
    hide NextAt, ReleasedAt, Max;
    var all, whole, next := [chunk] + cs, [t] + times, NextAt(first, chunk.at, chunk.n, limit);
    FirstReleased(first, chunk, cs, limit);
    if |times| == |cs| {
      forall j | 0 <= j < |cs|
        ensures ReleasedAt(first, all, limit, j + 1) == ReleasedAt(next, cs, limit, j) && whole[j + 1] == times[j]
      {
        ReleasedLater(first, chunk, cs, limit, j);
      }
      if Paced(first, all, limit, whole) {
        assert whole[0] == ReleasedAt(first, all, limit, 0);
        forall j | 0 <= j < |cs| ensures times[j] == ReleasedAt(next, cs, limit, j) {
          assert whole[j + 1] == ReleasedAt(first, all, limit, j + 1);
        }
      }
      if t == Max(first, chunk.at) && Paced(next, cs, limit, times) {
        forall j | 0 <= j < |all| ensures whole[j] == ReleasedAt(first, all, limit, j) {
          if j > 0 { assert whole[j] == times[j - 1] == ReleasedAt(next, cs, limit, j - 1); }
        }
      }
    }
  }

  lemma FirstReleased(first: real, chunk: Chunk, cs: seq<Chunk>, limit: int)
    requires limit > 0
    ensures ReleasedAt(first, [chunk] + cs, limit, 0) == Max(first, chunk.at)
  {
    assert ([chunk] + cs)[..0] == [];
  }

  /** A step without a chunk of the account leaves its schedule or drops it. */
  lemma OthersSchedule(c: State, e: Event, a: Account)
    requires Enabled(c, e) && Arrival(c, e, a) == [] && a in Step(c, e).schedules
    ensures a in c.schedules && Step(c, e).schedules[a] == c.schedules[a]
  {
    hide Step, Throttle;
    if e.ThrottleE? {
      ThrottleStep(c, e);
      ThrottleOthers(c, e.h, e.n, e.chunkAt, a);
    } else {
      StepShrinks(c, e);
    }
  }

  lemma ThrottleOthers(c: State, h: nat, n: nat, at: real, a: Account)
    requires h < |c.regs| && (n == 0 || c.regs[h].account != a) && a in Throttle(c, h, n, at).schedules
    ensures a in c.schedules && Throttle(c, h, n, at).schedules[a] == c.schedules[a]
  {
    hide Tidied, NextAt, BudgetOf;
    TidiedShrinks(c, c.schedules.Keys);
  }

  /** What a chunk does: it leaves, and the schedule moves on, as if the schedule had not been
      dropped, exactly when it has not or would be free by now. */
  lemma ChunkStep(c: State, e: Event, a: Account, limit: int, free: real)
    requires limit > 0 && Enabled(c, e) && Arrival(c, e, a) != [] && BudgetOf(c, e.h).maxBytesPerSec == Some(limit)
    requires e.chunkAt >= 0.0 && a in Step(c, e).schedules && free >= 0.0 && (a in c.schedules ==> c.schedules[a] == free)
    ensures LetThrough(c, e, a) == Max(free, e.chunkAt) <==> a in c.schedules || free <= e.chunkAt
    ensures a in c.schedules || free <= e.chunkAt ==> Step(c, e).schedules[a] == NextAt(free, e.chunkAt, e.n, limit)
  {
    hide BudgetOf, Step, NextFree, Throttle;
    if a in c.schedules {
      ThrottleStep(c, e);
      ThrottleMoves(c, e.h, e.n, e.chunkAt, a);
    } else {
      FirstChunk(c, e, a, limit);
      NextFreeOne(0.0, Chunk(e.chunkAt, e.n), limit);
    }
  }

  /** The account's chunks leave as one schedule would let them, over the whole of a run in which
      the relay may drop and remake it, exactly when none returns early. `free` is when the
      schedule the account had at the start, if any, is free. */
  lemma {:induction false} PacedIff(c: State, es: seq<Event>, a: Account, limit: int, free: real)
    requires limit > 0 && Run(c, es).Some? && Limited(c, es, a, limit)
    requires free >= 0.0 && (a in c.schedules ==> c.schedules[a] == free)
    ensures Paced(free, Arrivals(c, es, a), limit, Departures(c, es, a)) <==> NoEarlyReturn(c, es, a, limit, free)
    decreases |es|
  {
    hide Step, Enabled, BudgetOf, Paced, NextAt, Max, LetThrough;
    if es == [] {
      NonePaced(free, limit);
    } else {
      var e, d := es[0], Step(c, es[0]);
      var cs, times := Arrivals(d, es[1..], a), Departures(d, es[1..], a);
      if Arrival(c, e, a) == [] {
        if a in d.schedules { OthersSchedule(c, e, a); }
        PacedIff(d, es[1..], a, limit, free);
        assert [] + cs == cs && [] + times == times;
      } else {
        var next := NextAt(free, e.chunkAt, e.n, limit);
        ChunkStep(c, e, a, limit, free);
        PacedCons(free, Chunk(e.chunkAt, e.n), cs, limit, LetThrough(c, e, a), times);
        if a in c.schedules || free <= e.chunkAt {
          NotBack(free, e.chunkAt, e.n, limit);
          PacedIff(d, es[1..], a, limit, next);
        }
      }
    }
  }

  lemma NonePaced(first: real, limit: int)
    requires limit > 0
    ensures Paced(first, [], limit, [])
  {
  }

  lemma NotBack(free: real, at: real, n: nat, limit: int)
    requires limit > 0 && free >= 0.0
    ensures NextAt(free, at, n, limit) >= 0.0
  {
    CostAdds(0, n, limit);
  }

  /** So the rate bound holds over the whole run, whatever schedules it drops, when none of the
      account's chunks returns early. */
  lemma RunRateBound(c: State, es: seq<Event>, a: Account, limit: int, free: real, i: nat, j: nat, span: real)
    requires limit > 0 && Run(c, es).Some? && Limited(c, es, a, limit) && NoEarlyReturn(c, es, a, limit, free)
    requires free >= 0.0 && (a in c.schedules ==> c.schedules[a] == free)
    requires i <= j < |Departures(c, es, a)| && Departures(c, es, a)[j] - Departures(c, es, a)[i] <= span
    ensures |Arrivals(c, es, a)| == |Departures(c, es, a)|
    ensures Between(Arrivals(c, es, a), i, j + 1) as real <= limit as real * span + Arrivals(c, es, a)[j].n as real
  {
    hide Run, Limited, NoEarlyReturn, Arrivals, Departures, ReleasedAt;
    PacedIff(c, es, a, limit, free);
    RateBound(free, Arrivals(c, es, a), limit, i, j, span);
  }

  // -- a run that passes the bound

  /** One byte a second. */
  function SlowBudget(): Budget { Budget(None, Some(1), None, None) }

  function SlowHello(): Hello {
    Hello(Some("a"), [], Admission("acct", None, "lease", None, 0, SlowBudget(), 1, None), true, true, 0)
  }

  /** An agent comes, its one visitor sends 100 bytes at time `at`, and both go. */
  function Round(k: nat, at: real): seq<Event> {
    [ClaimE(SlowHello()), InstallE(k), VisitE("a", 0), ThrottleE(k, 100, at), LeaveE(k), DisconnectE(k)]
  }

  /** A relay at rest, `k` connections having come and gone. */
  predicate AtRest(c: State, k: nat) {
    && c.cfg == Config(1, true) && |c.regs| == k && c.agents == map[] && c.pending == map[] && c.visitors == map[]
    && c.buffered == map[] && c.overrides == map[] && c.schedules == map[]
  }

  /** The connection's record, in stage `stage`, with its visitor or without. */
  predicate Ours(r: Registration, stage: Stage, visitors: nat) {
    && r.subdomain == "a" && r.account == "acct" && r.budget == SlowBudget() && r.stage == stage && r.visitors == visitors
    && r.expiresAt == None && !r.draining && r.accepting == (stage == Serving)
  }

  predicate Held(c: State, k: nat, stage: Stage, visitors: nat, schedules: map<Account, real>) {
    && c.cfg == Config(1, true) && |c.regs| == k + 1 && Ours(c.regs[k], stage, visitors)
    && c.agents == (if stage == Serving then map["a" := k] else map[])
    && c.pending == (if stage == Waiting then map["a" := k] else map[])
    && c.visitors == (if visitors > 0 then map["acct" := visitors] else map[])
    && c.buffered == map[] && c.overrides == map[] && c.schedules == schedules
  }

  lemma Comes(c: State, k: nat)
    requires AtRest(c, k)
    ensures Held(Claim(c, SlowHello()), k, Waiting, 0, map[])
  {
    assert ChooseLabel(c, SlowHello()) == Chosen("a");
    assert OfAccount(c.regs, c.agents, "acct") == {} && OfAccount(c.regs, c.pending, "acct") == {};
    assert Refusal(c, SlowHello(), "a") == None;
  }

  lemma Opens(c: State, k: nat)
    requires Held(c, k, Waiting, 0, map[])
    ensures Held(Install(c, k), k, Serving, 0, map[]) && Held(Visit(Install(c, k), "a", 0), k, Serving, 1, map[])
  {
    hide HasWork;
    assert Pending(c, k);
  }

  lemma Sends(c: State, k: nat, at: real)
    requires Held(c, k, Serving, 1, map[]) && at >= 0.0
    ensures Held(Throttle(c, k, 100, at), k, Serving, 1, map["acct" := at + 100.0])
  {
    hide HasWork;
    assert BudgetOf(c, k).maxBytesPerSec == Some(1);
  }

  lemma Leaves(c: State, k: nat, free: real)
    requires Held(c, k, Serving, 1, map["acct" := free])
    ensures Held(Leave(c, k), k, Serving, 0, map["acct" := free])
  {
    var d := SetReg(c, k, c.regs[k].(visitors := 0)).(visitors := map[]);
    assert "a" in OfAccount(d.regs, d.agents, "acct");
    assert HasWork(d, "acct");
    assert c.visitors - {"acct"} == map[];
    assert (set x: Account | x in {"acct"} && !HasWork(d, x)) == {};
    assert d.schedules - {} == d.schedules && d.overrides - {} == d.overrides;
  }

  lemma Goes(c: State, k: nat, free: real)
    requires Held(c, k, Serving, 0, map["acct" := free])
    ensures AtRest(Disconnect(c, k), k + 1)
  {
    var d := SetReg(c, k, c.regs[k].(stage := Done)).(agents := map[]);
    assert Current(c, k) && c.agents - {"a"} == map[];
    assert !HasWork(d, "acct");
    assert (set x: Account | x in {"acct"} && !HasWork(d, x)) == {"acct"};
    assert d.schedules - {"acct"} == map[];
  }

  /** One step before a run. */
  lemma Before(c: State, e: Event, es: seq<Event>, a: Account, limit: int)
    requires Enabled(c, e) && Run(Step(c, e), es).Some?
    ensures var d, all := Step(c, e), [e] + es;
            && Run(c, all) == Run(d, es)
            && Arrivals(c, all, a) == Arrival(c, e, a) + Arrivals(d, es, a)
            && Departures(c, all, a) == (if Arrival(c, e, a) != [] then [LetThrough(c, e, a)] else []) + Departures(d, es, a)
            && (Limited(c, all, a, limit) <==>
                  && (Arrival(c, e, a) != [] ==>
                        BudgetOf(c, e.h).maxBytesPerSec == Some(limit) && e.chunkAt >= 0.0 && a in d.schedules)
                  && Limited(d, es, a, limit))
  {
    hide Step, Enabled, BudgetOf, LetThrough;
    assert ([e] + es)[1..] == es;
  }

  /** What a round adds to the run that follows it. */
  ghost predicate Adds(c: State, k: nat, at: real, z: State, rest: seq<Event>)
    requires Run(z, rest).Some?
  {
    var all := Round(k, at) + rest;
    && Run(c, all) == Run(z, rest)
    && Arrivals(c, all, "acct") == [Chunk(at, 100)] + Arrivals(z, rest, "acct")
    && Departures(c, all, "acct") == [at] + Departures(z, rest, "acct")
    && (Limited(z, rest, "acct", 1) ==> Limited(c, all, "acct", 1))
  }

  lemma RoundThen(c: State, k: nat, at: real, rest: seq<Event>) returns (z: State)
    requires AtRest(c, k) && at >= 0.0
    ensures AtRest(z, k + 1)
    ensures Run(z, rest).Some? ==> Adds(c, k, at, z, rest)
  {
    hide Claim, Install, Visit, Throttle, Leave, Disconnect, BudgetOf, Run, Arrivals, Departures, Limited, ChooseLabel;
    var c1 := Claim(c, SlowHello());
    Comes(c, k);
    var c2 := Install(c1, k);
    var c3 := Visit(c2, "a", 0);
    Opens(c1, k);
    var c4 := Throttle(c3, k, 100, at);
    Sends(c3, k, at);
    var c5 := Leave(c4, k);
    Leaves(c4, k, at + 100.0);
    z := Disconnect(c5, k);
    Goes(c5, k, at + 100.0);
    SlowIs(c3, k);
    if Run(z, rest).Some? {
      var e1, e2, e3, e4, e5, e6 :=
        ClaimE(SlowHello()), InstallE(k), VisitE("a", 0), ThrottleE(k, 100, at), LeaveE(k), DisconnectE(k);
      Before(c5, e6, rest, "acct", 1);
      Before(c4, e5, [e6] + rest, "acct", 1);
      Before(c3, e4, [e5] + ([e6] + rest), "acct", 1);
      Before(c2, e3, [e4] + ([e5] + ([e6] + rest)), "acct", 1);
      Before(c1, e2, [e3] + ([e4] + ([e5] + ([e6] + rest))), "acct", 1);
      Before(c, e1, [e2] + ([e3] + ([e4] + ([e5] + ([e6] + rest)))), "acct", 1);
      assert Round(k, at) + rest == [e1] + ([e2] + ([e3] + ([e4] + ([e5] + ([e6] + rest)))));
    }
  }

  lemma SlowIs(c: State, k: nat)
    requires Held(c, k, Serving, 1, map[])
    ensures BudgetOf(c, k).maxBytesPerSec == Some(1)
  {
  }

  /** The bound does not hold across a schedule that is dropped and remade. At one byte a second,
      an agent that comes back gets 200 bytes through in one second. */
  lemma GapPassesBound()
    ensures var c, es := Init(Config(1, true)), Round(0, 0.0) + Round(1, 1.0);
            && Run(c, es).Some? && Limited(c, es, "acct", 1)
            && Departures(c, es, "acct") == [0.0, 1.0]
            && Arrivals(c, es, "acct") == [Chunk(0.0, 100), Chunk(1.0, 100)]
            && Between(Arrivals(c, es, "acct"), 0, 2) as real > 1.0 * 1.0 + 100.0
            && !NoEarlyReturn(c, es, "acct", 1, 0.0)
  {
    hide Run, Arrivals, Departures, Limited, NoEarlyReturn, Round, NextAt, ReleasedAt;
    var c := Init(Config(1, true));
    var none: seq<Event> := [];
    var z := RoundThen(c, 0, 0.0, Round(1, 1.0));
    var z' := RoundThen(z, 1, 1.0, none);
    Nothing(z');
    assert Round(1, 1.0) + none == Round(1, 1.0);
    var cs := [Chunk(0.0, 100), Chunk(1.0, 100)];
    assert [Chunk(0.0, 100)] + ([Chunk(1.0, 100)] + []) == cs;
    assert [0.0] + ([1.0] + []) == [0.0, 1.0];
    TwoChunks(cs);
    PacedIff(c, Round(0, 0.0) + Round(1, 1.0), "acct", 1, 0.0);
  }

  lemma Nothing(c: State)
    ensures Run(c, []) == Some(c) && Arrivals(c, [], "acct") == [] && Departures(c, [], "acct") == [] && Limited(c, [], "acct", 1)
  {
  }

  lemma TwoChunks(cs: seq<Chunk>)
    requires cs == [Chunk(0.0, 100), Chunk(1.0, 100)]
    ensures Between(cs, 0, 2) == 200 && !Paced(0.0, cs, 1, [0.0, 1.0])
  {
    assert Between(cs, 0, 1) == 100;
    assert cs[..1] == [cs[0]];
    NextFreeOne(0.0, cs[0], 1);
    assert NextAt(0.0, 0.0, 100, 1) == 100.0;
    assert ReleasedAt(0.0, cs, 1, 1) == 100.0;
  }
}
