/** Who gets which label: exactly which claims are accepted, what the new registration carries, and
    that over whole runs every registration is what some admission allowed. */
module RelayAdmission {
  import opened Wire
  import opened Names
  import opened RelaySpec
  import opened RelayInvariant
  import opened RelayHistory
  import PolicyFile
  import ControlPlane

  // -- the label

  /** Draw `k` is the first of a label that nobody has, and not past the last attempt. */
  predicate FirstFreeAt(c: State, picks: seq<Label>, attempts: nat, k: int) {
    && 0 <= k < |picks| && k < attempts && Free(c, picks[k])
    && forall j | 0 <= j < k :: !Free(c, picks[j])
  }

  lemma {:induction false} FirstFreeIs(c: State, picks: seq<Label>, attempts: nat, k: int)
    requires FirstFreeAt(c, picks, attempts, k)
    ensures FirstFree(c, picks, attempts) == Some(picks[k])
    decreases |picks|
  {
    hide Free;
    if k > 0 {
      assert !Free(c, picks[0]);
      forall j | 0 <= j < k - 1 ensures !Free(c, picks[1..][j]) { assert !Free(c, picks[j + 1]); }
      FirstFreeIs(c, picks[1..], attempts - 1, k - 1);
    }
  }

  predicate NoneFree(c: State, picks: seq<Label>, attempts: nat) {
    forall j | 0 <= j < |picks| && j < attempts :: !Free(c, picks[j])
  }

  /** Either there is a first free label, or none of those drawn is free. */
  lemma {:induction false} FirstFreeOrNone(c: State, picks: seq<Label>, attempts: nat) returns (k: int)
    ensures if FirstFree(c, picks, attempts).Some? then FirstFreeAt(c, picks, attempts, k) else NoneFree(c, picks, attempts)
    decreases |picks|
  {
    hide Free;
    k := 0;
    if picks != [] && attempts > 0 && !Free(c, picks[0]) {
      var i := FirstFreeOrNone(c, picks[1..], attempts - 1);
      k := i + 1;
      forall j | 0 < j < |picks| && (j <= i || FirstFree(c, picks, attempts).None?) && j < attempts
        ensures !Free(c, picks[j])
      {
        assert picks[1..][j - 1] == picks[j];
      }
    }
  }

  lemma FirstFreeIff(c: State, picks: seq<Label>, attempts: nat, l: Label)
    ensures FirstFree(c, picks, attempts) == Some(l) <==>
              exists k | 0 <= k < |picks| :: FirstFreeAt(c, picks, attempts, k) && picks[k] == l
    ensures FirstFree(c, picks, attempts) == None <==> NoneFree(c, picks, attempts)
  {
    hide Free;
    var k := FirstFreeOrNone(c, picks, attempts);
    if FirstFree(c, picks, attempts).Some? { FirstFreeIs(c, picks, attempts, k); }
    forall i | FirstFreeAt(c, picks, attempts, i) ensures FirstFree(c, picks, attempts) == Some(picks[i]) {
      FirstFreeIs(c, picks, attempts, i);
    }
  }

  /** The label a hello is about: the one it names, or the first free one drawn for it; a relay
      without host routing has one label and takes no names. */
  predicate Wants(c: State, q: Hello, l: Label) {
    if c.cfg.hostRouted then
      if q.requested.Some? then q.requested.value == l && ValidLabel(l)
      else exists k | 0 <= k < |q.picks| :: FirstFreeAt(c, q.picks, 100, k) && q.picks[k] == l
    else q.requested.None? && l == "default"
  }

  lemma WantsIff(c: State, q: Hello, l: Label)
    ensures ChooseLabel(c, q) == Chosen(l) <==> Wants(c, q, l)
  {
    hide ValidLabel, FirstFree, FirstFreeAt;
    FirstFreeIff(c, q.picks, ASSIGN_ATTEMPTS, l);
  }

  /** Why a hello is about no label at all. */
  lemma NoLabelIff(c: State, q: Hello, reason: Reason)
    ensures ChooseLabel(c, q) == NoLabel(reason) <==>
              || (c.cfg.hostRouted && q.requested.Some? && !ValidLabel(q.requested.value) && reason == InvalidSubdomain)
              || (!c.cfg.hostRouted && q.requested.Some? && reason == SubdomainUnsupported)
              || (c.cfg.hostRouted && q.requested.None? && reason == NoFreeSubdomain
                  && NoneFree(c, q.picks, 100))
  {
    hide ValidLabel, FirstFree, FirstFreeAt, NoneFree;
    FirstFreeIff(c, q.picks, ASSIGN_ATTEMPTS, "");
  }

  // -- the checks

  /** Account `a` has the label, as a tunnel or as a pending slot. */
  predicate Has(c: State, a: Account, l: Label) {
    || (l in c.agents && c.agents[l] < |c.regs| && c.regs[c.agents[l]].account == a)
    || (l in c.pending && c.pending[l] < |c.regs| && c.regs[c.pending[l]].account == a)
  }

  function LabelsOf(c: State, a: Account): set<Label> {
    set l | l in c.agents.Keys + c.pending.Keys && Has(c, a, l)
  }

  /** What each refusal says is not so. */
  predicate Passes(c: State, q: Hello, l: Label, reason: Reason) {
    match reason
    case SubdomainNotAllowed => q.adm.allowedLabel.Some? ==> l == Fold(q.adm.allowedLabel.value) && ValidLabel(l)
    case SubdomainTaken => l in c.agents ==> Has(c, q.adm.account, l)
    case SubdomainPending => l !in c.pending
    case TunnelLimit => Has(c, q.adm.account, l) || |LabelsOf(c, q.adm.account)| < q.adm.maxTunnels
    case ServerTunnelLimit => l in c.agents || |c.agents| + |c.pending| < c.cfg.maxAgents
    case HttpsUnavailable => q.urlOk
    case ReconnectLimit => q.reconnectOk
    case LeaseExpired => q.adm.expiresAt.Some? ==> q.now < q.adm.expiresAt.value
    case _ => true
  }

  /** The order of the checks. */
  const CHECKS: seq<Reason> := [SubdomainNotAllowed, SubdomainTaken, SubdomainPending, TunnelLimit, ServerTunnelLimit,
                                HttpsUnavailable, ReconnectLimit, LeaseExpired]

  predicate MayClaim(c: State, q: Hello, l: Label) { forall i | 0 <= i < |CHECKS| :: Passes(c, q, l, CHECKS[i]) }

  /** Check `i` is the first that fails. */
  predicate FailsFirst(c: State, q: Hello, l: Label, i: nat) {
    i < |CHECKS| && !Passes(c, q, l, CHECKS[i]) && forall j | 0 <= j < i :: Passes(c, q, l, CHECKS[j])
  }

  lemma OwnedIs(c: State, a: Account)
    ensures Owned(c, a) == LabelsOf(c, a)
  {
  }

  lemma UnauthorizedIff(c: State, q: Hello, l: Label)
    requires Inv(c)
    ensures var u := Unauthorized(c, q.adm, l);
            && (u == None <==> forall i | 0 <= i < 4 :: Passes(c, q, l, CHECKS[i]))
            && forall i | 0 <= i < 4 :: u == Some(CHECKS[i]) <==> FailsFirst(c, q, l, i)
  {
    hide RoomInv, MeterInv, GenerationInv, Owned, LabelsOf, ValidLabel;
    OwnedIs(c, q.adm.account);
    assert l in Owned(c, q.adm.account) <==> Has(c, q.adm.account, l) by { HasIff(c, q.adm.account, l); }
    assert CHECKS[0] == SubdomainNotAllowed && CHECKS[1] == SubdomainTaken && CHECKS[2] == SubdomainPending
        && CHECKS[3] == TunnelLimit;
  }

  lemma HasIff(c: State, a: Account, l: Label)
    ensures l in Owned(c, a) <==> Has(c, a, l)
  {
  }

  /** A claim is turned away with the reason of the first check that fails, in this order, and
      goes ahead when none does. */
  lemma RefusalIff(c: State, q: Hello, l: Label)
    requires Inv(c)
    ensures Refusal(c, q, l) == None <==> MayClaim(c, q, l)
    ensures forall i | 0 <= i < |CHECKS| :: Refusal(c, q, l) == Some(CHECKS[i]) <==> FailsFirst(c, q, l, i)
  {
    hide Inv, Unauthorized, Has, LabelsOf, ValidLabel;
    UnauthorizedIff(c, q, l);
    LateChecks(c, q, l);
  }

  lemma LateChecks(c: State, q: Hello, l: Label)
    ensures |CHECKS| == 8 && CHECKS[4..] == [ServerTunnelLimit, HttpsUnavailable, ReconnectLimit, LeaseExpired]
    ensures CHECKS[4] == ServerTunnelLimit && CHECKS[5] == HttpsUnavailable && CHECKS[6] == ReconnectLimit && CHECKS[7] == LeaseExpired
    ensures Distinct(CHECKS)
  {
  }

  // -- the new registration

  /** What the registration of an accepted hello is. */
  predicate Grants(q: Hello, r: Registration) {
    && r.account == q.adm.account && r.credential == q.adm.credential && r.lease == q.adm.lease
    && r.expiresAt == q.adm.expiresAt && r.generation == q.adm.generation
    && (q.adm.allowedLabel.Some? ==> r.subdomain == Fold(q.adm.allowedLabel.value) && ValidLabel(r.subdomain))
  }

  /** A claim is accepted exactly when there is a label it is about for which every check passes.
      It then gets the pending slot of that label, as a registration that carries what was
      admitted, under the budget last pushed for the account or else the admitted one, not open
      to visitors and holding nothing; nothing else changes. */
  lemma ClaimIff(c: State, q: Hello)
    requires Inv(c)
    ensures var d := Claim(c, q);
            && (|d.regs| > |c.regs| <==> exists l :: Wants(c, q, l) && MayClaim(c, q, l))
            && (|d.regs| <= |c.regs| ==> d == c)
            && (|d.regs| > |c.regs| ==>
                  var r := d.regs[|c.regs|];
                  && d == c.(regs := c.regs + [r], pending := c.pending[r.subdomain := |c.regs|])
                  && Wants(c, q, r.subdomain) && MayClaim(c, q, r.subdomain) && Grants(q, r)
                  && r.budget == (if q.adm.account in c.overrides then c.overrides[q.adm.account] else q.adm.budget)
                  && r.stage == Waiting && !r.accepting && !r.draining && r.visitors == 0 && r.buffered == 0)
  {
    hide Inv, Refusal, ChooseLabel, Has, LabelsOf, ValidLabel, Wants;
    var choice := ChooseLabel(c, q);
    forall l ensures choice == Chosen(l) <==> Wants(c, q, l) { WantsIff(c, q, l); }
    if choice.Chosen? {
      RefusalIff(c, q, choice.value);
      if MayClaim(c, q, choice.value) { assert Passes(c, q, choice.value, CHECKS[0]); }
    }
  }

  // -- into service

  /** The newest connection wins its label: while its pending slot is still there it becomes the
      label's tunnel, open to visitors, and any tunnel before it is the label's no longer; if the
      slot has been taken away, it serves nothing and the label stays with whom it was. */
  lemma NewestServes(c: State, h: nat)
    requires Inv(c) && h < |c.regs| && c.regs[h].stage == Waiting
    ensures var d, l := Install(c, h), c.regs[h].subdomain;
            && |d.regs| == |c.regs|
            && (Pending(c, h) ==>
                  && Current(d, h) && d.regs[h].accepting && d.regs[h].stage == Serving && l !in d.pending
                  && (l in c.agents ==> c.agents[l] != h && !Current(d, c.agents[l]))
                  && forall k | k in c.agents && k != l :: k in d.agents && d.agents[k] == c.agents[k])
            && (!Pending(c, h) ==> d.agents == c.agents && d.pending == c.pending && !Current(d, h) && d.regs[h].stage == Done)
  {
    hide RoomInv, MeterInv, GenerationInv, Install;
    if Pending(c, h) { InstallShape(c, h); } else { InstallLate(c, h); }
  }

  // -- whole runs

  /** A claim of the run was granted `r`, which has since at most moved its lease on. */
  predicate Admitted(es: seq<Event>, r: Registration) {
    exists i | 0 <= i < |es| :: es[i].ClaimE? && AdmittedBy(es[i].q, r)
  }

  predicate AdmittedBy(q: Hello, r: Registration) {
    && r.account == q.adm.account && r.credential == q.adm.credential && r.lease == q.adm.lease
    && r.generation >= q.adm.generation
    && (q.adm.allowedLabel.Some? ==> r.subdomain == Fold(q.adm.allowedLabel.value) && ValidLabel(r.subdomain))
  }

  lemma StepAdds(c: State, e: Event)
    requires Inv(c) && Enabled(c, e)
    ensures |c.regs| <= |Step(c, e).regs| <= |c.regs| + 1
    ensures |Step(c, e).regs| > |c.regs| ==> e.ClaimE? && AdmittedBy(e.q, Step(c, e).regs[|c.regs|])
  {
    hide Inv, Claim, Install, Releases, MayClaim, Wants, ValidLabel, Fold;
    if e.ClaimE? {
      ClaimIff(c, e.q);
    } else if e.InstallE? {
      if Pending(c, e.h) { InstallShape(c, e.h); } else { InstallLate(c, e.h); }
    } else {
      OtherReleases(c, e);
      SameCount(c, Step(c, e));
    }
  }

  lemma SameCount(c: State, d: State)
    requires Releases(c, d)
    ensures |d.regs| == |c.regs|
  {
  }

  lemma AdmittedOn(q: Hello, r: Registration, s: Registration)
    requires AdmittedBy(q, r) && Evolves(r, s)
    ensures AdmittedBy(q, s)
  {
  }

  /** Every registration is some admission's: made under its account, credential and lease, and, if
      the admission allows one label only, bearing that label. */
  lemma {:induction false} RunAdmitted(c: State, es: seq<Event>, h: nat)
    requires Inv(c) && Run(c, es).Some? && |c.regs| <= h < |Run(c, es).value.regs|
    ensures Admitted(es, Run(c, es).value.regs[h])
    decreases |es|
  {
    hide Inv, Step, Enabled, AdmittedBy, Evolves;
    if es != [] {
      var d := Step(c, es[0]);
      StepKeeps(c, es[0]);
      StepAdds(c, es[0]);
      if h < |d.regs| {
        RunEvolves(d, es[1..]);
        AdmittedOn(es[0].q, d.regs[h], Run(c, es).value.regs[h]);
      } else {
        RunAdmitted(d, es[1..], h);
        var i :| 0 <= i < |es[1..]| && es[1..][i].ClaimE? && AdmittedBy(es[1..][i].q, Run(c, es).value.regs[h]);
        assert es[i + 1] == es[1..][i];
      }
    }
  }

  /** A credential whose admissions allow only `x` never gets any other label, in any run of a
      relay that starts empty. */
  lemma RestrictedForLife(cfg: Config, es: seq<Event>, k: Option<string>, x: string, h: nat)
    requires Run(Init(cfg), es).Some? && h < |Run(Init(cfg), es).value.regs|
    requires forall i | 0 <= i < |es| && es[i].ClaimE? && es[i].q.adm.credential == k :: es[i].q.adm.allowedLabel == Some(x)
    ensures var r := Run(Init(cfg), es).value.regs[h]; r.credential == k ==> r.subdomain == Fold(x) && ValidLabel(Fold(x))
  {
    hide Run, ValidLabel, Fold;
    InitInv(cfg);
    RunAdmitted(Init(cfg), es, h);
  }

  /** A credential of the policy file governs its tunnels: a claim admitted under it that is
      accepted is for the credential's account, within its number of tunnels, on its label if it
      has one, and under a lease of its length. */
  lemma CredentialGoverns(c: State, k: PolicyFile.Credential, id: LeaseId, now: int, q: Hello)
    requires Inv(c) && q.adm == ControlPlane.AdmissionFor(k, id, now) && |Claim(c, q).regs| > |c.regs|
    ensures var r := Claim(c, q).regs[|c.regs|];
            && r.account == k.account && r.credential == Some(k.id) && r.lease == id && r.generation == 0
            && r.expiresAt == (if k.leaseSeconds.Some? then Some(now + k.leaseSeconds.value) else None)
            && (k.allowedLabel.Some? ==> r.subdomain == Fold(k.allowedLabel.value))
            && (k.account !in c.overrides ==> r.budget == k.budget)
            && (Has(c, k.account, r.subdomain) || |LabelsOf(c, k.account)| < k.maxTunnels)
  {
    hide Inv, Claim, Wants, Fold, ValidLabel, LabelsOf, Has;
    ClaimIff(c, q);
    var l := Claim(c, q).regs[|c.regs|].subdomain;
    assert Passes(c, q, l, CHECKS[3]) && CHECKS[3] == TunnelLimit;
  }
}
