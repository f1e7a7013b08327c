/** The control plane that reads its policy from a file each time it is asked, and keeps the last
    good one. */
module ControlPlane {
  import opened Wire
  import opened Names
  import opened RelaySpec
  import opened PolicyFile

  /** What one attempt to read the file gave: the error for a file that is missing, unsafe, too
      large or changing; the system's own error, when it is the reading of the open file that
      fails; or the text. */
  datatype Read = Unreadable | ReadBroke | Snapshot(fingerprint: int, text: string)

  type Decoder = string -> Outcome<Json>

  function ParseText(decode: Decoder, text: string): Outcome<Policy> { ParsePolicy(decode(text)) }

  predicate GoodRead(decode: Decoder, r: Read) { r.Snapshot? && ParseText(decode, r.text).Ok? }

  /** What gets past the guard of `_load_policy`: an error of the reading itself, which is not the
      one it catches, or contents that do. */
  predicate EscapesNow(decode: Decoder, r: Read) { r.ReadBroke? || (r.Snapshot? && Escapes(decode(r.text))) }

  lemma EscapesIs(decode: Decoder, r: Read)
    ensures EscapesNow(decode, r) <==> r.ReadBroke? || (r.Snapshot? && ParseText(decode, r.text).Failed?)
  {
    hide ParsePolicy, Escapes;
    if r.Snapshot? { FileFailsIff(decode(r.text)); }
  }

  /** The parse of the most recent good snapshot. */
  function LastGood(decode: Decoder, readings: seq<Read>): Option<Policy> {
    if readings == [] then None
    else
      var r := readings[|readings| - 1];
      if GoodRead(decode, r) then Some(ParseText(decode, r.text).value) else LastGood(decode, readings[..|readings| - 1])
  }

  /** A fingerprint stands for one text. */
  predicate Faithful(readings: seq<Read>) {
    forall i, j | 0 <= i < |readings| && 0 <= j < |readings| && readings[i].Snapshot? && readings[j].Snapshot?
      :: readings[i].fingerprint == readings[j].fingerprint ==> readings[i].text == readings[j].text
  }

  predicate SeenWith(decode: Decoder, readings: seq<Read>, fingerprint: int, parse: Outcome<Policy>) {
    exists i | 0 <= i < |readings| :: readings[i].Snapshot? && readings[i].fingerprint == fingerprint && ParseText(decode, readings[i].text) == parse
  }

  lemma SeenBefore(decode: Decoder, readings: seq<Read>, fingerprint: int, parse: Outcome<Policy>, r: Read)
    requires SeenWith(decode, readings, fingerprint, parse)
    ensures SeenWith(decode, readings + [r], fingerprint, parse)
  {
    var i :| 0 <= i < |readings| && readings[i].Snapshot? && readings[i].fingerprint == fingerprint && ParseText(decode, readings[i].text) == parse;
    assert (readings + [r])[i] == readings[i];
  }

  /** A fingerprint seen before means the parse is known. */
  lemma SeenMeans(decode: Decoder, readings: seq<Read>, fingerprint: int, parse: Outcome<Policy>, text: string)
    requires SeenWith(decode, readings, fingerprint, parse) && Faithful(readings + [Snapshot(fingerprint, text)])
    ensures ParseText(decode, text) == parse
  {
    var i :| 0 <= i < |readings| && readings[i].Snapshot? && readings[i].fingerprint == fingerprint && ParseText(decode, readings[i].text) == parse;
    var all := readings + [Snapshot(fingerprint, text)];
    assert all[i] == readings[i] && all[|readings|] == Snapshot(fingerprint, text);
  }

  lemma LastGoodPush(decode: Decoder, readings: seq<Read>, r: Read)
    ensures LastGood(decode, readings + [r]) == if GoodRead(decode, r) then Some(ParseText(decode, r.text).value) else LastGood(decode, readings)
  {
    assert (readings + [r])[..|readings|] == readings;
  }

  datatype LeaseState = LeaseState(account: Account, credential: string, tokenSha256: string, seconds: int)

  datatype RenewalRequest = RenewalRequest(lease: LeaseId, account: Account, credential: Option<string>, generation: int)

  predicate Matches(c: Credential, s: LeaseState) {
    c.id == s.credential && c.account == s.account && c.tokenSha256 == s.tokenSha256
  }

  class StaticPolicyControlPlane {
    const decode: Decoder
    var policy: Option<Policy>
    var policyFingerprint: Option<int>
    var badPolicyFingerprint: Option<int>
    var leases: map<LeaseId, LeaseState>
    ghost var readings: seq<Read>

    constructor (decode: Decoder)
      ensures Valid() && readings == [] && leases == map[] && this.decode == decode
    {
      this.decode := decode;
      policy, policyFingerprint, badPolicyFingerprint, leases, readings := None, None, None, map[], [];
    }

    ghost predicate Valid()
      reads this
    {
      && policy == LastGood(decode, readings)
      && (policyFingerprint.Some? ==> policy.Some? && SeenWith(decode, readings, policyFingerprint.value, Ok(policy.value)))
      && (badPolicyFingerprint.Some? ==> SeenWith(decode, readings, badPolicyFingerprint.value, Invalid))
    }

    /** `_load_policy`: whatever the readings have been, the last good policy, except exactly when
        this reading breaks or finds something that gets past the guard. */
    method LoadPolicy(r: Read) returns (loaded: Outcome<Policy>)
      requires Valid() && Faithful(readings + [r])
      modifies this`policy, this`policyFingerprint, this`badPolicyFingerprint, this`readings
      ensures Valid() && readings == old(readings) + [r]
      ensures loaded == if EscapesNow(decode, r) then Failed
                        else if LastGood(decode, readings).Some? then Ok(LastGood(decode, readings).value)
                        else Invalid
    {
      hide ParseText, LastGood, SeenWith, Faithful, EscapesNow;
      EscapesIs(decode, r);
      LastGoodPush(decode, readings, r);
      if policyFingerprint.Some? {
        SeenBefore(decode, readings, policyFingerprint.value, Ok(policy.value), r);
        if r.Snapshot? && r.fingerprint == policyFingerprint.value {
          SeenMeans(decode, readings, r.fingerprint, Ok(policy.value), r.text);
        }
      }
      if badPolicyFingerprint.Some? {
        SeenBefore(decode, readings, badPolicyFingerprint.value, Invalid, r);
        if r.Snapshot? && r.fingerprint == badPolicyFingerprint.value {
          SeenMeans(decode, readings, r.fingerprint, Invalid, r.text);
        }
      }
      if r.Snapshot? { SeenNow(decode, readings, r); }
      readings := readings + [r];
      if r.ReadBroke? { return Failed; }
      if r.Unreadable? { return HandleLoadError(); }
      if Some(r.fingerprint) == policyFingerprint && policy.Some? { return Ok(policy.value); }
      if Some(r.fingerprint) == badPolicyFingerprint && policy.Some? { return Ok(policy.value); }
      var parsed := ParseText(decode, r.text);
      match parsed {
        case Invalid =>
          badPolicyFingerprint := Some(r.fingerprint);
          return HandleLoadError();
        case Failed =>
          return Failed;
        case Ok(p) =>
          policy := Some(p);
          policyFingerprint := Some(r.fingerprint);
          badPolicyFingerprint := None;
          return Ok(p);
      }
    }

    function HandleLoadError(): (r: Outcome<Policy>)
      reads this
      ensures r == if policy.Some? then Ok(policy.value) else Invalid
    {
      if policy.None? then Invalid else Ok(policy.value)
    }

    /** `admit_tunnel`, with the token already hashed and a lease id already drawn. */
    method AdmitTunnel(hash: string, id: LeaseId, now: int, r: Read) returns (admission: Outcome<Option<Admission>>)
      requires Valid() && Faithful(readings + [r])
      modifies this
      ensures Valid() && readings == old(readings) + [r]
      ensures !Loads(r) ==> !admission.Ok? && leases == old(leases)
      ensures Loads(r) ==>
                var cs := LastGood(decode, readings).value.credentials;
                && ((forall i | 0 <= i < |cs| :: cs[i].tokenSha256 != hash) ==> admission == Ok(None) && leases == old(leases))
                && forall i | 0 <= i < |cs| && cs[i].tokenSha256 == hash ::
                     if TooLate(cs[i].leaseSeconds, now) then admission.Failed? && leases == old(leases)
                     else
                       && admission == Ok(Some(AdmissionFor(cs[i], id, now)))
                       && leases == if cs[i].leaseSeconds.None? then old(leases) else old(leases)[id := StateFor(cs[i])]
    {
      hide LastGood, Faithful, ParseText, EscapesNow;
      var loaded := LoadPolicy(r);
      if !loaded.Ok? { return loaded.PropagateFailure(); }
      LastGoodParsed(decode, readings);
      var cs := loaded.value.credentials;
      for i := 0 to |cs|
        invariant leases == old(leases)
        invariant forall j | 0 <= j < i :: cs[j].tokenSha256 != hash
      {
        if cs[i].tokenSha256 == hash {
          OnlyHash(cs, i);
          if TooLate(cs[i].leaseSeconds, now) { return Failed; }
          if cs[i].leaseSeconds.Some? { leases := leases[id := StateFor(cs[i])]; }
          return Ok(Some(AdmissionFor(cs[i], id, now)));
        }
      }
      return Ok(None);
    }

    /** The reading gives a policy, this one or the last good one. */
    ghost predicate Loads(r: Read)
      reads this
    {
      !EscapesNow(decode, r) && LastGood(decode, readings).Some?
    }

    /** `renew_lease`: the lease goes on exactly while the last good policy still has the
        credential it was admitted under, with a finite lease. */
    method RenewLease(q: RenewalRequest, now: int, r: Read) returns (renewed: Outcome<Option<Lease>>)
      requires Valid() && Faithful(readings + [r])
      modifies this
      ensures Valid()
      ensures var state := if q.lease in old(leases) then Some(old(leases)[q.lease]) else None;
              var asked := state.Some? && state.value.account == q.account && Some(state.value.credential) == q.credential;
              var granted := asked && Renewable(LastGood(decode, readings), state.value);
              && (renewed.Ok? <==> !asked || (Loads(r) && !(granted && q.lease in leases && TooLate(Some(leases[q.lease].seconds), now))))
              && (renewed.Ok? ==> renewed.value.Some? == granted)
              && leases.Keys == (if renewed == Ok(None) && asked then old(leases).Keys - {q.lease} else old(leases).Keys)
              && (forall id | id in leases && id != q.lease :: leases[id] == old(leases)[id])
              && (!granted && q.lease in leases ==> leases[q.lease] == old(leases)[q.lease])
      ensures renewed.Ok? && renewed.value.Some? ==>
                && q.lease in leases && leases[q.lease].seconds >= 1
                && leases[q.lease] == old(leases)[q.lease].(seconds := leases[q.lease].seconds)
                && renewed.value.value == Lease(q.lease, q.account, q.credential, q.generation + 1, Some(now + leases[q.lease].seconds))
      ensures renewed.Ok? && renewed.value.Some? ==>
                q.lease in leases &&
                forall reg: Registration, later: int
                  | q == RenewalRequest(reg.lease, reg.account, reg.credential, reg.generation) && later < now + leases[q.lease].seconds
                  :: ValidRenewal(reg, renewed.value.value, later)
    {
      hide LastGood, Faithful, ParseText, EscapesNow;
      if q.lease !in leases { return Ok(None); }
      var state := leases[q.lease];
      if state.account != q.account || Some(state.credential) != q.credential { return Ok(None); }
      var loaded := LoadPolicy(r);
      if !loaded.Ok? { return loaded.PropagateFailure(); }
      LastGoodParsed(decode, readings);
      var found := FindCredential(loaded.value.credentials, state);
      if found.None? || found.value.leaseSeconds.None? {
        leases := leases - {q.lease};
        return Ok(None);
      }
      state := LeaseState(found.value.account, found.value.id, found.value.tokenSha256, found.value.leaseSeconds.value);
      leases := leases[q.lease := state];
      if TooLate(Some(state.seconds), now) { return Failed; }
      return Ok(Some(Lease(q.lease, q.account, q.credential, q.generation + 1, Some(now + state.seconds))));
    }

    /** `poll_policy_updates`: the update of the last good policy if it is newer, which the relay
        is then bound to find valid; leases that are no longer active are forgotten first, unless
        the relay has some and could not list them. */
    method PollPolicyUpdates(active: seq<LeaseId>, activeCount: nat, version: int, r: Read)
      returns (update: Outcome<Option<Update>>)
      requires Valid() && Faithful(readings + [r])
      modifies this
      ensures Valid() && readings == old(readings) + [r]
      ensures leases == if active == [] && activeCount > 0 then old(leases)
                        else map id | id in old(leases) && id in active :: old(leases)[id]
      ensures update.Ok? <==> Loads(r)
      ensures Loads(r) ==>
                var u := LastGood(decode, readings).value.update;
                update == Ok(if u.Some? && u.value.version > version then u else None)
      ensures update.Ok? && update.value.Some? ==> ValidUpdate(version, update.value.value)
    {
      hide LastGood, Faithful, ParseText, EscapesNow, ValidUpdate;
      if |active| > 0 || activeCount == 0 { PruneInactiveLeases(active); }
      var loaded := LoadPolicy(r);
      if !loaded.Ok? { return loaded.PropagateFailure(); }
      LastGoodUpdate(decode, readings, version);
      var found := loaded.value.update;
      if found.None? || found.value.version <= version { return Ok(None); }
      return Ok(found);
    }

    /** `_prune_inactive_leases` */
    method PruneInactiveLeases(active: seq<LeaseId>)
      modifies this`leases
      ensures leases == map id | id in old(leases) && id in active :: old(leases)[id]
    {
      var keep: set<LeaseId> := set i | 0 <= i < |active| :: active[i];
      var todo := leases.Keys;
      while todo != {}
        invariant todo <= old(leases).Keys
        invariant leases == map id | id in old(leases) && (id in keep || id in todo) :: old(leases)[id]
        decreases |todo|
      {
        var id :| id in todo;
        if id !in keep { leases := leases - {id}; }
        todo := todo - {id};
      }
    }
  }

  lemma SeenNow(decode: Decoder, readings: seq<Read>, r: Read)
    requires r.Snapshot?
    ensures SeenWith(decode, readings + [r], r.fingerprint, ParseText(decode, r.text))
  {
    assert (readings + [r])[|readings|] == r;
  }

  function StateFor(c: Credential): LeaseState
    requires c.leaseSeconds.Some?
  {
    LeaseState(c.account, c.id, c.tokenSha256, c.leaseSeconds.value)
  }

  /** The last second a date can name, in seconds of the epoch. */
  const LAST_SECOND := 253_402_300_799

  /** A finite lease whose end no date can name: the addition raises. */
  predicate TooLate(seconds: Option<int>, now: int) { seconds.Some? && now + seconds.value > LAST_SECOND }

  lemma OnlyHash(cs: seq<Credential>, i: nat)
    requires Compatible(cs) && i < |cs|
    ensures forall j | 0 <= j < |cs| && cs[j].tokenSha256 == cs[i].tokenSha256 :: j == i
  {
    forall j | 0 <= j < |cs| && j != i ensures cs[j].tokenSha256 != cs[i].tokenSha256 {
      if j < i { assert !Clash(cs[j], cs[i]); } else { assert !Clash(cs[i], cs[j]); }
    }
  }

  function AdmissionFor(c: Credential, id: LeaseId, now: int): Admission {
    Admission(c.account, Some(c.id), id, if c.leaseSeconds.Some? then Some(now + c.leaseSeconds.value) else None, 0, c.budget,
              c.maxTunnels, c.allowedLabel)
  }

  /** The policy has the credential behind the lease, and gives it a finite lease. */
  predicate Renewable(policy: Option<Policy>, s: LeaseState) {
    policy.Some? && exists i | 0 <= i < |policy.value.credentials| ::
      Matches(policy.value.credentials[i], s) && policy.value.credentials[i].leaseSeconds.Some?
  }

  method FindCredential(cs: seq<Credential>, s: LeaseState) returns (found: Option<Credential>)
    requires Compatible(cs) && forall i | 0 <= i < |cs| && cs[i].leaseSeconds.Some? :: cs[i].leaseSeconds.value >= 1
    ensures found.Some? && found.value.leaseSeconds.Some? <==> Renewable(Some(Policy(cs, None)), s)
    ensures found.Some? ==> Matches(found.value, s) && (found.value.leaseSeconds.Some? ==> found.value.leaseSeconds.value >= 1)
  {
    for i := 0 to |cs|
      invariant forall j | 0 <= j < i :: !Matches(cs[j], s)
    {
      if Matches(cs[i], s) {
        forall j | 0 <= j < |cs| && Matches(cs[j], s) ensures j == i {
          if i < j { assert Clash(cs[i], cs[j]); }
        }
        return Some(cs[i]);
      }
    }
    return None;
  }

  lemma {:induction false} LastGoodParsed(decode: Decoder, readings: seq<Read>)
    ensures var p := LastGood(decode, readings);
            p.Some? ==>
              && Compatible(p.value.credentials)
              && forall i | 0 <= i < |p.value.credentials| && p.value.credentials[i].leaseSeconds.Some? ::
                   p.value.credentials[i].leaseSeconds.value >= 1
    decreases |readings|
  {
    hide ParsePolicy, Compatible;
    if readings != [] {
      var r := readings[|readings| - 1];
      if GoodRead(decode, r) { PolicyShape(decode(r.text)); } else { LastGoodParsed(decode, readings[..|readings| - 1]); }
    }
  }

  /** A newer update of the last good policy is valid. */
  lemma {:induction false} LastGoodUpdate(decode: Decoder, readings: seq<Read>, version: int)
    ensures var p := LastGood(decode, readings);
            p.Some? && p.value.update.Some? && p.value.update.value.version > version ==>
              ValidUpdate(version, p.value.update.value)
    decreases |readings|
  {
    hide ParsePolicy, ValidUpdate;
    if readings != [] {
      var r := readings[|readings| - 1];
      if GoodRead(decode, r) { PolicyUpdate(decode(r.text), version); } else { LastGoodUpdate(decode, readings[..|readings| - 1], version); }
    }
  }

  lemma PolicyUpdate(j: Outcome<Json>, version: int)
    requires ParsePolicy(j).Ok?
    ensures var u := ParsePolicy(j).value.update; u.Some? && u.value.version > version ==> ValidUpdate(version, u.value)
  {
    hide CredentialsFrom, ParseUpdate, ValidUpdate;
    var u := ParsePolicy(j).value.update;
    if u.Some? && u.value.version > version { ParsedUpdateIsValid(j.value.fields, u.value, version); }
  }

  /** A lease admitted under credential `c` can be renewed exactly while the policy has a credential
      of the same id, account and token, with a finite lease: changing the token or moving the
      credential to another account ends it. */
  lemma RenewedWhileListed(p: Policy, c: Credential)
    requires c.leaseSeconds.Some?
    ensures Renewable(Some(p), StateFor(c)) <==>
              exists i | 0 <= i < |p.credentials| ::
                && p.credentials[i].id == c.id && p.credentials[i].account == c.account
                && p.credentials[i].tokenSha256 == c.tokenSha256 && p.credentials[i].leaseSeconds.Some?
  {
  }

  lemma PolicyShape(j: Outcome<Json>)
    requires ParsePolicy(j).Ok?
    ensures var cs := ParsePolicy(j).value.credentials;
            Compatible(cs) && forall i | 0 <= i < |cs| && cs[i].leaseSeconds.Some? :: cs[i].leaseSeconds.value >= 1
  {
    hide ParseCredential, Compatible, ParseUpdate;
    var items := Get(j.value.fields, "credentials", Null).items;
    var cs := ParsePolicy(j).value.credentials;
    CollectIff(items, |items|, cs);
    forall i | 0 <= i < |cs| && cs[i].leaseSeconds.Some? ensures cs[i].leaseSeconds.value >= 1 {
      assert ParseCredential(items[i]) == Ok(cs[i]);
      SecondsArePositive(items[i]);
    }
  }

  lemma SecondsArePositive(j: Json)
    requires ParseCredential(j).Ok? && ParseCredential(j).value.leaseSeconds.Some?
    ensures ParseCredential(j).value.leaseSeconds.value >= 1
  {
    hide TokenSha256, OptionalLabel, ParseBudget;
  }

  // -- what gets past the guard

  function NullTunnelsFile(): Json {
    Obj(map["schema_version" := Int(1),
            "credentials" := Arr([Obj(map["credential_id" := Str("c"), "account_id" := Str("a"), "max_tunnels" := Null,
                                          "token_sha256" := Str(seq(64, _ => '0'))])])])
  }

  /** "Any bad edit keeps the last good policy" is false: a null tunnel count gets past it. */
  lemma NullTunnelsEscapes()
    ensures Escapes(Ok(NullTunnelsFile())) && ParsePolicy(Ok(NullTunnelsFile())).Failed?
  {
    var o := NullTunnelsFile().fields;
    var items := o["credentials"].items;
    var c := items[0];
    var zeros: string := seq(64, _ => '0');
    assert Lower(zeros) == zeros && !(SHA256_PREFIX <= zeros) by { assert SHA256_PREFIX[0] == 's'; }
    assert Collect(items, 0) == Ok([]) && NullTunnels(c);
    FileFailsIff(Ok(NullTunnelsFile()));
  }
}
