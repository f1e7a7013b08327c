/** The relay together with the multiplexers of all its tunnels: what the relay has booked for an
    account is what the account's multiplexers hold, whoever they belong to by now. */
module Tunnels {
  import opened Wire
  import M = MuxSpec
  import MI = MuxInvariant
  import SL = StreamLife
  import R = RelaySpec
  import RI = RelayInvariant
  import RH = RelayHistory

  /** `muxes[h]` is the multiplexer of registration `h`; superseded and detached ones stay. */
  datatype Whole = Whole(relay: R.State, muxes: seq<M.Conn>)

  datatype Event = Relay(re: R.Event) | Mux(h: nat, me: M.Event)

  /** The bytes for which the step asks the account's buffer callback, if it reaches it. */
  function Asks(c: M.Conn, e: M.Event): Option<nat> {
    if e.Recv? && e.m.Binary? && Decode(e.m.bytes).Some? then
      var f := Decode(e.m.bytes).value;
      if f.ftype == DATA && f.sid != 0 && M.Registered(c, f.sid) then Some(|f.payload|) else None
    else None
  }

  predicate Enabled(w: Whole, e: Event) {
    && |w.muxes| == |w.relay.regs|
    && match e
       case Relay(re) => !re.ReserveE? && !re.ReleaseE? && R.Enabled(w.relay, re)
       case Mux(h, me) =>
         && h < |w.muxes| && M.Enabled(w.muxes[h], me)
         && (me.Recv? ==> w.relay.regs[h].stage == R.Serving)
         && (Asks(w.muxes[h], me).Some? ==> me.reserveOk == R.ReserveAllowed(w.relay, h, Asks(w.muxes[h], me).value))
  }

  /** What the relay has booked for a registration is what its multiplexer holds. */
  predicate Agree(w: Whole) {
    |w.muxes| == |w.relay.regs| && forall h | 0 <= h < |w.muxes| :: w.relay.regs[h].buffered == w.muxes[h].reserved
  }

  ghost predicate Inv(w: Whole) {
    && RI.Inv(w.relay) && Agree(w)
    && forall h | 0 <= h < |w.muxes| :: MI.Inv(w.muxes[h])
  }

  /** The bookings a multiplexer's step makes: one reservation, or the releases it adds up to. */
  function Booked(relay: R.State, h: nat, more: int): R.State
    requires h < |relay.regs| && -more <= relay.regs[h].buffered
  {
    if more > 0 then R.Reserve(relay, h, more) else R.Release(relay, h, -more)
  }

  /** `cfg` is what a new connection has negotiated. */
  ghost function Step(w: Whole, e: Event, cfg: M.Config): Whole
    requires Enabled(w, e) && Inv(w)
  {
    match e
    case Relay(re) =>
      var relay := R.Step(w.relay, re);
      Whole(relay, if |relay.regs| > |w.muxes| then w.muxes + [M.Init(cfg)] else w.muxes)
    case Mux(h, me) =>
      var c := M.Step(w.muxes[h], me);
      HeldAfter(w, h, me);
      Whole(Booked(w.relay, h, c.reserved - w.muxes[h].reserved), w.muxes[h := c])
  }

  lemma HeldAfter(w: Whole, h: nat, me: M.Event)
    requires Inv(w) && h < |w.muxes| && M.Enabled(w.muxes[h], me)
    ensures MI.Inv(M.Step(w.muxes[h], me)) && h < |w.relay.regs|
    ensures w.muxes[h].reserved - M.Step(w.muxes[h], me).reserved <= w.relay.regs[h].buffered
  {
    hide MI.Inv, RI.Inv, M.Step, M.Enabled;
    MI.StepKeeps(w.muxes[h], me);
    ReservedIsBuffered(M.Step(w.muxes[h], me));
  }

  // -- what a multiplexer's step reserves

  lemma CloseReserves(c: M.Conn, h: nat, lane: M.Lane)
    requires MI.Inv(c) && h < |c.objs|
    ensures M.CloseLocal(c, h, lane).reserved <= c.reserved
  {
    hide MI.Inv;
    MI.StreamAt(c, h);
    MI.NonNegative(c.objs[h], c.cfg);
    hide MI.StreamInv;
  }

  lemma {:induction false} AbortReserves(c: M.Conn, hs: seq<nat>)
    requires MI.Inv(c) && M.Below(hs, |c.objs|)
    ensures M.AbortEach(c, hs).reserved <= c.reserved
    decreases |hs|
  {
    hide MI.Inv, M.CloseLocal;
    if hs != [] {
      CloseReserves(c, hs[0], M.LaneReset);
      MI.CloseKeeps(c, hs[0], M.LaneReset);
      SL.CloseShape(c, hs[0], M.LaneReset);
      AbortReserves(M.CloseLocal(c, hs[0], M.LaneReset), hs[1..]);
    }
  }

  lemma FeedReserves(c: M.Conn, h: nat, data: seq<byte>, ok: bool)
    requires h < |c.objs|
    ensures var d := M.Feed(c, h, data, ok); d.reserved <= c.reserved || (ok && d.reserved == c.reserved + |data|)
  {
  }

  lemma ResetsNothing(c: M.Conn, id: u32)
    ensures M.SendReset(c, id).reserved == c.reserved && M.Ignore(c).reserved == c.reserved
  {
  }

  lemma FrameReserves(c: M.Conn, f: Frame, ok: bool)
    requires MI.Inv(c)
    ensures var d := M.Dispatch(c, f, ok);
            || d.reserved <= c.reserved
            || (f.ftype == DATA && f.sid != 0 && M.Registered(c, f.sid) && ok && d.reserved == c.reserved + |f.payload|)
  {
    hide MI.Inv, M.CloseLocal, M.Feed, M.SendReset, M.Ignore, M.FeedEof, M.Grant;
    ResetsNothing(c, f.sid);
    if M.Registered(c, f.sid) {
      var h := c.reg[f.sid];
      CloseReserves(c, h, M.LaneReset);
      FeedReserves(c, h, f.payload, ok);
      ResetsNothing(M.CloseLocal(c, h, M.LaneReset), f.sid);
    }
  }

  lemma ReadReserves(c: M.Conn, h: nat)
    requires h < |c.objs| && c.objs[h].incoming != []
    ensures M.Read(c, h).reserved <= c.reserved
  {
  }

  lemma TaskReserves(c: M.Conn, h: nat, view: seq<byte>)
    requires h < |c.objs|
    ensures M.SendLoop(c, h, view).reserved == c.reserved && M.Ack(c, h).reserved == c.reserved
  {
    hide M.SendStep, M.Acked, Pack32;
  }

  /** A step reserves only for data it has asked about, and was told it could. */
  lemma StepReserves(c: M.Conn, e: M.Event)
    requires MI.Inv(c) && M.Enabled(c, e)
    ensures var d := M.Step(c, e);
            || d.reserved <= c.reserved
            || (Asks(c, e).Some? && e.reserveOk && d.reserved == c.reserved + Asks(c, e).value)
  {
    hide MI.Inv, M.Dispatch, M.CloseLocal, M.Ignore, M.AbortEach, M.Read, M.SendLoop, M.Ack;
    match e
    case Recv(m, ok) =>
      ResetsNothing(c, 0);
      if m.Binary? && Decode(m.bytes).Some? { FrameReserves(c, Decode(m.bytes).value, ok); }
    case RunEnd(hs) => AbortReserves(c, hs);
    case OpenE =>
      if !M.OpenRefused(c) {
        MI.AllocateKeeps(c);
        CloseReserves(M.Allocate(c), |c.objs|, M.LaneEof);
      }
    case StartSendE(h, data) => TaskReserves(c, h, data);
    case ResumeE(h) => TaskReserves(c, h, c.objs[h].sender.view);
    case WakeE(h) => TaskReserves(c, h, c.objs[h].sender.view);
    case AckE(h) => TaskReserves(c, h, []);
    case ReadE(h) => ReadReserves(c, h);
    case CloseE(h) => CloseReserves(c, h, M.LaneEof);
    case ResetE(h) => CloseReserves(c, h, M.LaneReset);
    case _ =>
  }

  lemma ReservedIsBuffered(c: M.Conn)
    requires MI.Inv(c)
    ensures c.reserved == c.buffered >= 0
  {
    hide MI.StreamsInv, MI.RegInv, MI.IdInv, MI.ResetInv, MI.DrainInv, MI.OutInv, MI.EndedInv;
    forall h | 0 <= h < |c.objs| ensures c.objs[h].recvBuffered >= 0 {
      MI.StreamAt(c, h);
      MI.NonNegative(c.objs[h], c.cfg);
    }
    SumNonNegative(c.objs);
  }

  lemma {:induction false} SumNonNegative(objs: seq<M.Stream>)
    requires forall h | 0 <= h < |objs| :: objs[h].recvBuffered >= 0
    ensures MI.SumBuffered(objs) >= 0
  {
    if objs != [] { SumNonNegative(objs[..|objs| - 1]); }
  }

  // -- what the relay's own steps book

  /** No registration's booking moves. */
  predicate SameBytes(regs: seq<R.Registration>, regs': seq<R.Registration>) {
    |regs| <= |regs'| && forall h | 0 <= h < |regs| :: regs'[h].buffered == regs[h].buffered
  }

  lemma RetireBytes(c: R.State, h: nat, why: R.Cause)
    requires h < |c.regs|
    ensures SameBytes(c.regs, R.Retire(c, h, why).regs) && |R.Retire(c, h, why).regs| == |c.regs|
  {
    hide R.Tidied;
    var r := c.regs[h].(accepting := false);
    RI.TidiedShape(R.SetReg(c, h, r).(agents := c.agents - {r.subdomain}), {r.account});
  }

  lemma RevokeBytes(c: R.State, id: R.LeaseId)
    ensures var d := R.RevokeLease(c, id); SameBytes(c.regs, d.regs) && |d.regs| == |c.regs|
  {
    hide R.RetireAll, R.CancelAll, R.OfLease;
    var labels := R.OfLease(c.regs, c.agents, id);
    var c1 := R.RetireAll(c, labels);
    RI.RetireAllShape(c, labels);
    RI.CancelAllShape(c1, R.OfLease(c1.regs, c1.pending, id));
  }

  lemma {:induction false} RevokeEachBytes(c: R.State, ids: seq<R.LeaseId>)
    ensures var d := R.RevokeEach(c, ids); SameBytes(c.regs, d.regs) && |d.regs| == |c.regs|
    decreases |ids|
  {
    hide R.RevokeLease;
    if ids != [] {
      RevokeEachBytes(c, ids[..|ids| - 1]);
      RevokeBytes(R.RevokeEach(c, ids[..|ids| - 1]), ids[|ids| - 1]);
    }
  }

  lemma {:induction false} BudgetBytes(c: R.State, us: seq<R.BudgetUpdate>)
    ensures var d := R.SetBudgets(c, us); SameBytes(c.regs, d.regs) && |d.regs| == |c.regs|
    decreases |us|
  {
    hide R.SetBudget;
    if us != [] {
      BudgetBytes(c, us[..|us| - 1]);
      RI.SetBudgetShape(R.SetBudgets(c, us[..|us| - 1]), us[|us| - 1].account, us[|us| - 1].budget);
    }
  }

  lemma UpdateBytes(c: R.State, u: R.Update)
    ensures var d := R.ApplyUpdate(c, u); SameBytes(c.regs, d.regs) && |d.regs| == |c.regs|
  {
    hide R.RevokeEach, R.SetBudgets, R.ValidUpdate, R.Named;
    RevokeEachBytes(c, R.Named(u));
    BudgetBytes(R.RevokeEach(c, R.Named(u)), u.budgets);
  }

  lemma InstallBytes(c: R.State, h: nat)
    requires RI.Inv(c) && h < |c.regs|
    ensures var d := R.Install(c, h); SameBytes(c.regs, d.regs) && |d.regs| == |c.regs|
  {
    hide RI.Inv, R.Install;
    if R.Pending(c, h) { RI.InstallShape(c, h); } else { RI.InstallLate(c, h); }
  }

  lemma DisconnectBytes(c: R.State, h: nat)
    requires h < |c.regs|
    ensures var d := R.Disconnect(c, h); SameBytes(c.regs, d.regs) && |d.regs| == |c.regs|
  {
    hide R.Tidied;
    var r := c.regs[h].(stage := R.Done);
    RI.TidiedShape(R.SetReg(c, h, r).(agents := c.agents - {r.subdomain}), {r.account});
  }

  lemma RenewBytes(c: R.State, h: nat, renewed: Option<R.Lease>, now: int, later: int)
    requires h < |c.regs|
    ensures var d := R.Renew(c, h, renewed, now, later); SameBytes(c.regs, d.regs) && |d.regs| == |c.regs|
  {
    hide R.Retire;
    RetireBytes(c, h, R.Revoked);
    if renewed.Some? && R.ValidRenewal(c.regs[h], renewed.value, now) {
      var r := c.regs[h].(expiresAt := renewed.value.expiresAt, observedAt := Some(now), generation := renewed.value.generation);
      RetireBytes(R.SetReg(c, h, r), h, R.LeaseOver);
    }
  }

  lemma VisitBytes(c: R.State, l: R.Label, now: int)
    ensures var d := R.Visit(c, l, now); SameBytes(c.regs, d.regs) && |d.regs| == |c.regs|
  {
    hide R.Retire, R.VisitorAllowed;
    if l in c.agents && c.agents[l] < |c.regs| { RetireBytes(c, c.agents[l], R.LeaseOver); }
  }

  lemma AbandonBytes(c: R.State, h: nat)
    requires h < |c.regs|
    ensures var d := R.Abandon(c, h); SameBytes(c.regs, d.regs) && |d.regs| == |c.regs|
  {
  }

  /** The relay's other steps book nothing; a new registration starts with nothing booked. */
  lemma RelayBytes(c: R.State, e: R.Event)
    requires RI.Inv(c) && R.Enabled(c, e) && !e.ReserveE? && !e.ReleaseE?
    ensures var d := R.Step(c, e);
            && SameBytes(c.regs, d.regs) && |d.regs| <= |c.regs| + 1
            && (|d.regs| > |c.regs| ==> d.regs[|c.regs|].buffered == 0)
  {
    hide RI.Inv, R.Claim, R.Install, R.Abandon, R.Disconnect, R.Retire, R.Renew, R.RevokeLease, R.ApplyUpdate, R.Visit, R.Leave,
      R.Throttle;
    match e
    case ClaimE(q) => RH.ClaimShape(c, q);
    case InstallE(h) => InstallBytes(c, h);
    case DisconnectE(h) => DisconnectBytes(c, h);
    case ExpireE(h, now) => RetireBytes(c, h, R.LeaseOver);
    case RenewE(h, renewed, now, later) => RenewBytes(c, h, renewed, now, later);
    case RevokeE(id) => RevokeBytes(c, id);
    case PolicyE(u) => UpdateBytes(c, u);
    case AbandonE(h) => AbandonBytes(c, h);
    case VisitE(l, now) => VisitBytes(c, l, now);
    case LeaveE(h) => RI.LeaveShape(c, h);
    case ThrottleE(h, n, at) => RI.ThrottleShape(c, h, n, at);
    case _ =>
  }

  lemma BookedBytes(relay: R.State, h: nat, more: int)
    requires RI.Inv(relay) && h < |relay.regs| && -more <= relay.regs[h].buffered
    requires more > 0 ==> R.ReserveAllowed(relay, h, more)
    ensures var d := Booked(relay, h, more);
            && RI.Inv(d) && |d.regs| == |relay.regs|
            && d.regs[h].buffered == relay.regs[h].buffered + more
            && forall k | 0 <= k < |d.regs| && k != h :: d.regs[k].buffered == relay.regs[k].buffered
  {
    hide RI.Inv, R.ReserveAllowed, R.Release;
    if more > 0 {
      RI.ReserveKeeps(relay, h, more);
    } else {
      RI.ReleaseBytesKeeps(relay, h, -more);
      RI.ReleaseShape(relay, h, -more);
    }
  }

  // -- the theorem

  lemma MuxStepKeeps(w: Whole, h: nat, me: M.Event, cfg: M.Config)
    requires Inv(w) && Enabled(w, Mux(h, me))
    ensures Inv(Step(w, Mux(h, me), cfg))
  {
    hide MI.Inv, RI.Inv, M.Step, M.Enabled, Booked, R.ReserveAllowed, Asks;
    var c := M.Step(w.muxes[h], me);
    HeldAfter(w, h, me);
    StepReserves(w.muxes[h], me);
    BookedBytes(w.relay, h, c.reserved - w.muxes[h].reserved);
  }

  lemma RelayStepKeeps(w: Whole, re: R.Event, cfg: M.Config)
    requires Inv(w) && Enabled(w, Relay(re)) && cfg.Valid()
    ensures Inv(Step(w, Relay(re), cfg))
  {
    hide MI.Inv, RI.Inv, R.Step, R.Enabled;
    RI.StepKeeps(w.relay, re);
    RelayBytes(w.relay, re);
    MI.InitInv(cfg);
    NothingReserved(cfg);
  }

  lemma NothingReserved(cfg: M.Config)
    ensures M.Init(cfg).reserved == 0
  {
  }

  /** Every step of the relay and of every multiplexer keeps both invariants and their agreement;
      in particular a multiplexer never releases what the relay has not booked. */
  lemma StepKeeps(w: Whole, e: Event, cfg: M.Config)
    requires Inv(w) && Enabled(w, e) && cfg.Valid()
    ensures Inv(Step(w, e, cfg))
  {
    hide Inv, Enabled, Step;
    match e
    case Relay(re) => RelayStepKeeps(w, re, cfg);
    case Mux(h, me) => MuxStepKeeps(w, h, me, cfg);
  }

  lemma StartInv(cfg: R.Config)
    ensures Inv(Whole(R.Init(cfg), []))
  {
    RI.InitInv(cfg);
  }

  /** `es` leads from `w` to `z`; each step says what a connection it brings has negotiated. */
  ghost predicate Leads(w: Whole, es: seq<(Event, M.Config)>, z: Whole)
    decreases |es|
  {
    if es == [] then z == w
    else Inv(w) && Enabled(w, es[0].0) && es[0].1.Valid() && Leads(Step(w, es[0].0, es[0].1), es[1..], z)
  }

  lemma {:induction false} RunKeeps(w: Whole, es: seq<(Event, M.Config)>, z: Whole)
    requires Inv(w) && Leads(w, es, z)
    ensures Inv(z)
    decreases |es|
  {
    hide Inv, Enabled, Step;
    if es != [] {
      StepKeeps(w, es[0].0, es[0].1);
      RunKeeps(Step(w, es[0].0, es[0].1), es[1..], z);
    }
  }

  /** The bytes buffered by the multiplexers of account `a`'s registrations. */
  function Buffered(regs: seq<R.Registration>, muxes: seq<M.Conn>, a: R.Account): int
    requires |regs| == |muxes|
    decreases |regs|
  {
    if regs == [] then 0
    else
      var n := |regs| - 1;
      Buffered(regs[..n], muxes[..n], a) + if regs[n].account == a then muxes[n].buffered else 0
  }

  lemma {:induction false} BufferedIsSum(regs: seq<R.Registration>, muxes: seq<M.Conn>, a: R.Account)
    requires |regs| == |muxes| && forall h | 0 <= h < |regs| :: regs[h].buffered == muxes[h].buffered
    ensures Buffered(regs, muxes, a) == RI.Sum(regs, a, RI.Bytes)
    decreases |regs|
  {
    if regs != [] {
      var n := |regs| - 1;
      assert forall h | 0 <= h < n :: regs[..n][h].buffered == muxes[..n][h].buffered;
      BufferedIsSum(regs[..n], muxes[..n], a);
    }
  }

  /** What the relay has on an account is the sum of the unread bytes in all its multiplexers,
      and nothing is left when they are empty. */
  lemma HoldsItsMuxes(w: Whole, a: R.Account)
    requires Inv(w)
    ensures |w.relay.regs| == |w.muxes|
    ensures R.Count(w.relay.buffered, a) == Buffered(w.relay.regs, w.muxes, a)
    ensures Buffered(w.relay.regs, w.muxes, a) == 0 ==> a !in w.relay.buffered
  {
    hide MI.Inv, RI.RoomInv, RI.HolderInv, RI.GenerationInv;
    forall h | 0 <= h < |w.muxes| ensures w.relay.regs[h].buffered == w.muxes[h].buffered {
      ReservedIsBuffered(w.muxes[h]);
    }
    BufferedIsSum(w.relay.regs, w.muxes, a);
    RI.CountIs(w.relay.regs, w.relay.buffered, RI.Bytes, a);
  }

  /** From an empty relay on, whatever the relay, its agents, its visitors and its control plane
      do: an account is charged for exactly the unread bytes in all its multiplexers, superseded
      and detached ones included. */
  lemma AccountHoldsItsMuxes(cfg: R.Config, es: seq<(Event, M.Config)>, w: Whole, a: R.Account)
    requires Leads(Whole(R.Init(cfg), []), es, w)
    ensures |w.relay.regs| == |w.muxes|
    ensures R.Count(w.relay.buffered, a) == Buffered(w.relay.regs, w.muxes, a)
    ensures Buffered(w.relay.regs, w.muxes, a) == 0 ==> a !in w.relay.buffered
  {
    hide Inv, Leads;
    StartInv(cfg);
    RunKeeps(Whole(R.Init(cfg), []), es, w);
    HoldsItsMuxes(w, a);
  }
}
