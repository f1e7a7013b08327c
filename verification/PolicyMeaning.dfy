/** What a policy file says, field by field and without its parser: the parser accepts a file
    exactly when it says something, and yields that; and every policy can be written down. */
module PolicyMeaning {
  import opened Wire
  import opened Names
  import opened RelaySpec
  import opened PolicyFile

  // -- scalars

  predicate SaysName(o: map<string, Json>, k: string, s: string) { k in o && o[k] == Str(s) && s != "" }

  /** A number of at least `least`, or none where the key is absent or null. */
  predicate SaysLimit(o: map<string, Json>, k: string, least: int, v: Option<int>) {
    if k !in o || o[k] == Null then v == None else v.Some? && o[k] == Int(v.value) && v.value >= least
  }

  /** 64 hexadecimal digits in any case, bare or behind "sha256:", in lower case. */
  predicate Spells(s: string, hash: string) {
    HexDigest(hash) && (Lower(s) == hash || ("sha256:" <= s && Lower(s[7..]) == hash))
  }

  predicate SaysHash(o: map<string, Json>, k: string, hash: string) { k in o && o[k].Str? && Spells(o[k].s, hash) }

  predicate SaysLabel(o: map<string, Json>, k: string, l: Option<string>) {
    if k !in o || o[k] == Null then l == None
    else o[k].Str? && l == Some(Fold(o[k].s)) && ValidLabel(Fold(o[k].s))
  }

  lemma NameIff(o: map<string, Json>, k: string, s: string)
    ensures RequiredStr(Get(o, k, Null)) == Ok(s) <==> SaysName(o, k, s)
  {
  }

  lemma LimitIff(o: map<string, Json>, k: string, least: int, v: Option<int>)
    ensures OptionalAtLeast(Get(o, k, Null), least) == Ok(v) <==> SaysLimit(o, k, least, v)
  {
  }

  lemma HashIff(o: map<string, Json>, k: string, hash: string)
    ensures TokenSha256(Get(o, k, Null)) == Ok(hash) <==> SaysHash(o, k, hash)
  {
    if k in o && o[k].Str? {
      var s := o[k].s;
      assert SHA256_PREFIX[0] == 's' && |SHA256_PREFIX| == 7;
      if SHA256_PREFIX <= s { assert s[0] == 's' && !HexChar(Lower(s)[0]); }
    }
  }

  lemma LabelIff(o: map<string, Json>, k: string, l: Option<string>)
    ensures OptionalLabel(Get(o, k, Null)) == Ok(l) <==> SaysLabel(o, k, l)
  {
    hide ValidLabel;
    if k in o && o[k].Str? && o[k].s == "" { assert Fold("") == "" && !ValidLabel("") by { NoLabelEmpty(); } }
  }

  lemma NoLabelEmpty()
    ensures Fold("") == "" && !ValidLabel("")
  {
  }

  // -- budgets

  const BUDGET_KEYS := {"max_visitors", "max_bytes_per_sec", "max_reconnects_per_min", "max_buffered_bytes"}

  predicate SaysBudget(j: Json, b: Budget) {
    && j.Obj? && j.fields.Keys <= BUDGET_KEYS
    && SaysLimit(j.fields, "max_visitors", 0, b.maxVisitors)
    && SaysLimit(j.fields, "max_bytes_per_sec", 0, b.maxBytesPerSec)
    && SaysLimit(j.fields, "max_reconnects_per_min", 0, b.maxReconnectsPerMin)
    && SaysLimit(j.fields, "max_buffered_bytes", 0, b.maxBufferedBytes)
  }

  lemma BudgetIff(j: Json, b: Budget)
    ensures ParseBudget(j) == Ok(b) <==> SaysBudget(j, b)
  {
    hide OptionalAtLeast, SaysLimit;
    if j.Obj? {
      LimitIff(j.fields, "max_visitors", 0, b.maxVisitors);
      LimitIff(j.fields, "max_bytes_per_sec", 0, b.maxBytesPerSec);
      LimitIff(j.fields, "max_reconnects_per_min", 0, b.maxReconnectsPerMin);
      LimitIff(j.fields, "max_buffered_bytes", 0, b.maxBufferedBytes);
    }
  }

  /** A budget, unlimited in everything where it is absent. */
  predicate SaysBudgetAt(o: map<string, Json>, k: string, b: Budget) {
    if k in o then SaysBudget(o[k], b) else b == Budget(None, None, None, None)
  }

  lemma BudgetAtIff(o: map<string, Json>, k: string, b: Budget)
    ensures ParseBudget(Get(o, k, Obj(map[]))) == Ok(b) <==> SaysBudgetAt(o, k, b)
  {
    BudgetIff(Get(o, k, Obj(map[])), b);
    hide ParseBudget;
  }

  // -- credentials

  const CREDENTIAL_KEYS :=
    {"credential_id", "token_sha256", "account_id", "max_tunnels", "allowed_label", "budget", "lease_seconds"}

  predicate SaysCredential(j: Json, c: Credential) {
    && j.Obj? && j.fields.Keys <= CREDENTIAL_KEYS
    && SaysName(j.fields, "credential_id", c.id)
    && SaysHash(j.fields, "token_sha256", c.tokenSha256)
    && SaysName(j.fields, "account_id", c.account)
    && (if "max_tunnels" in j.fields then j.fields["max_tunnels"] == Int(c.maxTunnels) && c.maxTunnels >= 0
        else c.maxTunnels == 0x4000_0000_0000_0000)
    && SaysLabel(j.fields, "allowed_label", c.allowedLabel)
    && SaysBudgetAt(j.fields, "budget", c.budget)
    && SaysLimit(j.fields, "lease_seconds", 1, c.leaseSeconds)
  }

  /** A credential is read exactly as its fields say, each in its place. */
  lemma CredentialIff(j: Json, c: Credential)
    ensures ParseCredential(j) == Ok(c) <==> SaysCredential(j, c)
  {
    hide RequiredStr, TokenSha256, OptionalLabel, ParseBudget, SaysName, SaysHash, SaysLabel, SaysBudgetAt, SaysLimit;
    if j.Obj? {
      var o := j.fields;
      NameIff(o, "credential_id", c.id);
      HashIff(o, "token_sha256", c.tokenSha256);
      NameIff(o, "account_id", c.account);
      LabelIff(o, "allowed_label", c.allowedLabel);
      BudgetAtIff(o, "budget", c.budget);
      LimitIff(o, "lease_seconds", 1, c.leaseSeconds);
    }
  }

  /** The list, in order, with no two in conflict. */
  predicate SaysCredentials(j: Json, cs: seq<Credential>) {
    && j.Arr? && 1 <= |j.items| <= 4096 && |cs| == |j.items|
    && (forall i | 0 <= i < |cs| :: SaysCredential(j.items[i], cs[i]))
    && forall i, k | 0 <= i < k < |cs| ::
         && cs[i].id != cs[k].id && cs[i].tokenSha256 != cs[k].tokenSha256
         && (cs[i].allowedLabel.Some? && cs[i].allowedLabel == cs[k].allowedLabel ==> cs[i].account == cs[k].account)
  }

  lemma CredentialsIff(j: Json, cs: seq<Credential>)
    ensures CredentialsFrom(j) == Ok(cs) <==> SaysCredentials(j, cs)
  {
    hide ParseCredential, SaysCredential, Collect;
    if j.Arr? && 1 <= |j.items| <= MAX_CREDENTIALS {
      CollectIff(j.items, |j.items|, cs);
      forall i | 0 <= i < |cs| && |cs| == |j.items| ensures ParseCredential(j.items[i]) == Ok(cs[i]) <==> SaysCredential(j.items[i], cs[i]) {
        CredentialIff(j.items[i], cs[i]);
      }
    }
  }

  // -- the policy delta

  predicate SaysRevocation(j: Json, r: Revocation) {
    && j.Obj? && j.fields.Keys <= {"lease_id", "action"}
    && SaysName(j.fields, "lease_id", r.lease)
    && (if "action" in j.fields then j.fields["action"] == Str(r.action) && r.action in {"drain", "close"} else r.action == "drain")
  }

  predicate SaysBudgetUpdate(j: Json, b: BudgetUpdate) {
    && j.Obj? && j.fields.Keys <= {"account_id", "budget"}
    && SaysName(j.fields, "account_id", b.account) && SaysBudgetAt(j.fields, "budget", b.budget)
  }

  lemma RevocationIff(j: Json, r: Revocation)
    ensures ParseRevocation(j) == Ok(r) <==> SaysRevocation(j, r)
  {
    if j.Obj? { NameIff(j.fields, "lease_id", r.lease); }
    hide RequiredStr, SaysName;
  }

  lemma BudgetUpdateIff(j: Json, b: BudgetUpdate)
    ensures ParseBudgetUpdate(j) == Ok(b) <==> SaysBudgetUpdate(j, b)
  {
    hide RequiredStr, SaysName, ParseBudget, SaysBudgetAt;
    if j.Obj? {
      NameIff(j.fields, "account_id", b.account);
      BudgetAtIff(j.fields, "budget", b.budget);
    }
  }

  /** A list of at most `most` items, empty where it is absent, each saying its part. */
  predicate SaysList<T>(o: map<string, Json>, k: string, most: nat, ts: seq<T>, says: (Json, T) -> bool) {
    if k !in o then ts == []
    else o[k].Arr? && |ts| == |o[k].items| <= most && forall i | 0 <= i < |ts| :: says(o[k].items[i], ts[i])
  }

  predicate Apart<T>(ts: seq<T>, key: T -> string) { forall i, j | 0 <= i < j < |ts| :: key(ts[i]) != key(ts[j]) }

  lemma ListIff<T>(o: map<string, Json>, k: string, most: nat, ts: seq<T>, f: Json -> Outcome<T>, key: T -> string,
                   says: (Json, T) -> bool)
    requires forall j, t :: f(j) == Ok(t) <==> says(j, t)
    ensures ParseList(Get(o, k, Arr([])), most, f, key) == Ok(ts) <==> SaysList(o, k, most, ts, says) && Apart(ts, key)
  {
    var j := Get(o, k, Arr([]));
    if j.Arr? {
      EachIs(j.items, f, ts);
      var keys := seq(|ts|, i requires 0 <= i < |ts| => key(ts[i]));
      NoDuplicates(keys);
      assert Distinct(keys) <==> Apart(ts, key) by {
        forall a, b | 0 <= a < b < |ts| ensures keys[a] == key(ts[a]) && keys[b] == key(ts[b]) {}
      }
    }
    hide Each, Duplicates;
  }

  /** The three lists and the version, whatever they hold. */
  predicate SaysParts(o: map<string, Json>, u: Update) {
    && "policy_version" in o && o["policy_version"] == Int(u.version) && u.version >= 1
    && SaysList(o, "revoke_lease_ids", 10_000, u.revoke, (j: Json, s: string) => j == Str(s) && s != "")
    && SaysList(o, "lease_revocations", 10_000, u.revocations, SaysRevocation)
    && SaysList(o, "account_budgets", 4096, u.budgets, SaysBudgetUpdate)
    && Distinct(Named(u)) && Apart(u.budgets, (b: BudgetUpdate) => b.account)
  }

  const UPDATE_KEYS := {"policy_version", "revoke_lease_ids", "lease_revocations", "account_budgets"}

  predicate Nothing(u: Update) { u.revoke == [] && u.revocations == [] && u.budgets == [] }

  /** The update in the file: none where no key of it is, or where the lists come to nothing. */
  predicate SaysUpdate(o: map<string, Json>, u: Option<Update>) {
    if o.Keys * UPDATE_KEYS == {} then u == None
    else if u.Some? then SaysParts(o, u.value) && !Nothing(u.value)
    else "policy_version" in o && o["policy_version"].Int? && SaysParts(o, Update(o["policy_version"].n, [], [], []))
  }

  lemma RevokesIff(o: map<string, Json>, ids: seq<LeaseId>)
    ensures ParseRevokes(Get(o, "revoke_lease_ids", Arr([]))) == Ok(ids) <==>
              SaysList(o, "revoke_lease_ids", 10_000, ids, (j: Json, s: string) => j == Str(s) && s != "") && Apart(ids, (s: string) => s)
  {
    ListIff(o, "revoke_lease_ids", 10_000, ids, RequiredStr, (s: string) => s, (j: Json, s: string) => j == Str(s) && s != "");
  }

  lemma RevocationsIff(o: map<string, Json>, rs: seq<Revocation>)
    ensures ParseRevocations(Get(o, "lease_revocations", Arr([]))) == Ok(rs) <==>
              SaysList(o, "lease_revocations", 10_000, rs, SaysRevocation) && Apart(rs, (r: Revocation) => r.lease)
  {
    forall j, r ensures ParseRevocation(j) == Ok(r) <==> SaysRevocation(j, r) { RevocationIff(j, r); }
    ListIff(o, "lease_revocations", 10_000, rs, ParseRevocation, (r: Revocation) => r.lease, SaysRevocation);
  }

  lemma BudgetsIff(o: map<string, Json>, bs: seq<BudgetUpdate>)
    ensures ParseBudgets(Get(o, "account_budgets", Arr([]))) == Ok(bs) <==>
              SaysList(o, "account_budgets", 4096, bs, SaysBudgetUpdate) && Apart(bs, (b: BudgetUpdate) => b.account)
  {
    forall j, b ensures ParseBudgetUpdate(j) == Ok(b) <==> SaysBudgetUpdate(j, b) { BudgetUpdateIff(j, b); }
    ListIff(o, "account_budgets", 4096, bs, ParseBudgetUpdate, (b: BudgetUpdate) => b.account, SaysBudgetUpdate);
  }

  /** Leases that are distinct over both lists are so in each. */
  lemma NamedApart(u: Update)
    requires Distinct(Named(u))
    ensures Apart(u.revoke, (s: string) => s) && Apart(u.revocations, (r: Revocation) => r.lease)
  {
    var ids, n := Named(u), |u.revoke|;
    forall i | 0 <= i < n ensures u.revoke[i] == ids[i] {}
    forall i | 0 <= i < |u.revocations| ensures u.revocations[i].lease == ids[n + i] {}
  }

  /** The parts of an update as the parser finds them. */
  predicate Parts(o: map<string, Json>, u: Update) {
    && ParseRevokes(Get(o, "revoke_lease_ids", Arr([]))) == Ok(u.revoke)
    && ParseRevocations(Get(o, "lease_revocations", Arr([]))) == Ok(u.revocations)
    && ParseBudgets(Get(o, "account_budgets", Arr([]))) == Ok(u.budgets)
    && Distinct(Named(u))
  }

  lemma PartsIff(o: map<string, Json>, u: Update)
    requires "policy_version" in o && o["policy_version"] == Int(u.version) && u.version >= 1
    ensures Parts(o, u) <==> SaysParts(o, u)
  {
    hide SaysList, ParseRevokes, ParseRevocations, ParseBudgets, Distinct, Apart, Named;
    RevokesIff(o, u.revoke);
    RevocationsIff(o, u.revocations);
    BudgetsIff(o, u.budgets);
    if Distinct(Named(u)) { NamedApart(u); }
  }

  lemma ParsedIs(o: map<string, Json>, u: Option<Update>)
    requires o.Keys * UPDATE_KEYS != {}
    ensures ParseUpdate(o) == Ok(u) <==>
              && "policy_version" in o && o["policy_version"].Int? && o["policy_version"].n >= 1
              && var v := o["policy_version"].n;
                 if u.Some? then u.value.version == v && Parts(o, u.value) && !Nothing(u.value) else Parts(o, Update(v, [], [], []))
  {
    hide ParseRevokes, ParseRevocations, ParseBudgets, Duplicates, Distinct;
    NoKeyIff(o);
    forall x: Update { NoDuplicates(Named(x)); }
    forall x: Update { NoDuplicates(x.revoke + Leases(x.revocations)); }
  }

  /** The update is read exactly as the file says it. */
  lemma UpdateIff(o: map<string, Json>, u: Option<Update>)
    ensures ParseUpdate(o) == Ok(u) <==> SaysUpdate(o, u)
  {
    hide ParseUpdate, Parts, SaysParts;
    if o.Keys * UPDATE_KEYS == {} {
      NoUpdate(o);
    } else {
      ParsedIs(o, u);
      if "policy_version" in o && o["policy_version"].Int? && o["policy_version"].n >= 1 {
        PartsIff(o, Update(o["policy_version"].n, [], [], []));
        if u.Some? && u.value.version == o["policy_version"].n { PartsIff(o, u.value); }
      }
      if u.Some? { VersionSaid(o, u.value); } else if "policy_version" in o && o["policy_version"].Int? {
        VersionSaid(o, Update(o["policy_version"].n, [], [], []));
      }
    }
  }

  lemma VersionSaid(o: map<string, Json>, u: Update)
    ensures SaysParts(o, u) ==> "policy_version" in o && o["policy_version"] == Int(u.version) && u.version >= 1
  {
  }

  lemma NoUpdate(o: map<string, Json>)
    requires o.Keys * UPDATE_KEYS == {}
    ensures ParseUpdate(o) == Ok(None)
  {
    NoKeyIff(o);
  }

  lemma NoKeyIff(o: map<string, Json>)
    ensures o.Keys * UPDATE_KEYS == {} <==>
              "policy_version" !in o && "revoke_lease_ids" !in o && "lease_revocations" !in o && "account_budgets" !in o
  {
    var both := o.Keys * UPDATE_KEYS;
    forall k | k in UPDATE_KEYS ensures k in both <==> k in o {}
    assert "policy_version" in UPDATE_KEYS && "revoke_lease_ids" in UPDATE_KEYS && "lease_revocations" in UPDATE_KEYS
        && "account_budgets" in UPDATE_KEYS;
  }

  // -- the file

  predicate SaysPolicy(j: Json, p: Policy) {
    && j.Obj? && j.fields.Keys <= {"schema_version", "credentials"} + UPDATE_KEYS
    && "schema_version" in j.fields && j.fields["schema_version"] in {Int(1), Bool(true), Real(1.0)}
    && "credentials" in j.fields && SaysCredentials(j.fields["credentials"], p.credentials)
    && SaysUpdate(j.fields, p.update)
  }

  /** A file is accepted exactly when it says a policy, and yields that policy. */
  lemma PolicyIff(j: Json, p: Policy)
    ensures ParsePolicy(Ok(j)) == Ok(p) <==> SaysPolicy(j, p)
  {
    hide CredentialsFrom, SaysCredentials, ParseUpdate, SaysUpdate;
    if j.Obj? {
      var o := j.fields;
      CredentialsIff(Get(o, "credentials", Null), p.credentials);
      CredentialsIff(Null, p.credentials);
      NoneSaid(p.credentials);
      UpdateIff(o, p.update);
      assert FILE_KEYS == {"schema_version", "credentials"} + UPDATE_KEYS;
    }
  }

  lemma NoneSaid(cs: seq<Credential>)
    ensures !SaysCredentials(Null, cs)
  {
  }

  // -- and back

  function WriteLabel(l: Option<string>): Json { if l.None? then Null else Str(l.value) }

  function WriteCredential(c: Credential): Json {
    Obj(map["credential_id" := Str(c.id), "token_sha256" := Str(c.tokenSha256), "account_id" := Str(c.account),
            "max_tunnels" := Int(c.maxTunnels), "allowed_label" := WriteLabel(c.allowedLabel),
            "budget" := WriteBudget(c.budget), "lease_seconds" := WriteLimit(c.leaseSeconds)])
  }

  /** A credential a file can hold. */
  predicate Proper(c: Credential) {
    && c.id != "" && c.account != "" && HexDigest(c.tokenSha256) && c.maxTunnels >= 0
    && (c.allowedLabel.Some? ==> ValidLabel(c.allowedLabel.value))
    && ValidBudget(c.budget) && (c.leaseSeconds.Some? ==> c.leaseSeconds.value >= 1)
  }

  lemma FoldedAlready(s: string)
    requires ValidLabel(s)
    ensures Fold(s) == s
  {
  }

  lemma LoweredAlready(s: string)
    requires HexDigest(s)
    ensures Lower(s) == s
  {
    forall i | 0 <= i < |s| ensures Lower(s)[i] == s[i] { assert HexChar(s[i]); }
  }

  /** Any proper credential reads back as it was. */
  lemma CredentialBack(c: Credential)
    requires Proper(c)
    ensures ParseCredential(WriteCredential(c)) == Ok(c)
  {
    hide ParseCredential, ParseBudget, HexDigest, ValidLabel, WriteBudget;
    LoweredAlready(c.tokenSha256);
    if c.allowedLabel.Some? { FoldedAlready(c.allowedLabel.value); }
    BudgetBack(c.budget);
    BudgetIff(WriteBudget(c.budget), c.budget);
    CredentialIff(WriteCredential(c), c);
  }

  /** And the parser yields no other. */
  lemma ParsedIsProper(j: Json, c: Credential)
    requires ParseCredential(j) == Ok(c)
    ensures Proper(c)
  {
    hide ParseCredential;
    CredentialIff(j, c);
  }

  /** A policy a file can hold. */
  predicate Holdable(p: Policy) {
    && 1 <= |p.credentials| <= 4096 && (forall i | 0 <= i < |p.credentials| :: Proper(p.credentials[i]))
    && Compatible(p.credentials)
    && (p.update.Some? ==> ValidUpdate(0, p.update.value) && !Nothing(p.update.value))
  }

  function WritePolicy(p: Policy): Json {
    Obj(map["schema_version" := Int(1), "credentials" := WriteList(p.credentials, WriteCredential)]
        + if p.update.Some? then WriteUpdate(p.update.value) else map[])
  }

  lemma CredentialsBack(cs: seq<Credential>)
    requires 1 <= |cs| <= 4096 && (forall i | 0 <= i < |cs| :: Proper(cs[i])) && Compatible(cs)
    ensures CredentialsFrom(WriteList(cs, WriteCredential)) == Ok(cs)
  {
    hide ParseCredential, WriteCredential, Proper, Clash, Collect;
    var items := WriteList(cs, WriteCredential).items;
    forall i | 0 <= i < |cs| ensures ParseCredential(items[i]) == Ok(cs[i]) { CredentialBack(cs[i]); }
    CollectIff(items, |items|, cs);
  }

  /** The update in a map depends on its own keys only. */
  lemma SameUpdate(o: map<string, Json>, m: map<string, Json>)
    requires o.Keys !! UPDATE_KEYS && m.Keys <= UPDATE_KEYS
    ensures ParseUpdate(o + m) == ParseUpdate(m)
  {
    hide ParseRevokes, ParseRevocations, ParseBudgets, Duplicates;
    forall k, d | k in UPDATE_KEYS ensures Get(o + m, k, d) == Get(m, k, d) && (k in o + m <==> k in m) {}
  }

  /** Every policy of proper, compatible credentials, with a valid update or none, can be written in
      a file, and the file is read back as that policy: each field in its place, nothing added and
      nothing lost. */
  lemma WrittenPolicyReadsBack(p: Policy)
    requires Holdable(p)
    ensures ParsePolicy(Ok(WritePolicy(p))) == Ok(p)
  {
    hide CredentialsFrom, ParseUpdate, WriteUpdate, WriteList, Proper, Compatible, ValidUpdate;
    CredentialsBack(p.credentials);
    var o := map["schema_version" := Int(1), "credentials" := WriteList(p.credentials, WriteCredential)];
    var m := if p.update.Some? then WriteUpdate(p.update.value) else map[];
    UpdateKeysOf(p);
    SameUpdate(o, m);
    if p.update.Some? { VersionPositive(p.update.value); WrittenUpdateReadsBack(p.update.value, 0); } else { NoUpdate(m); }
    assert (o + m)["schema_version"] == Int(1) && (o + m)["credentials"] == WriteList(p.credentials, WriteCredential);
  }

  lemma UpdateKeysOf(p: Policy)
    ensures p.update.Some? ==> WriteUpdate(p.update.value).Keys == UPDATE_KEYS
  {
  }

  lemma VersionPositive(u: Update)
    requires ValidUpdate(0, u)
    ensures u.version >= 1
  {
  }

  /** Every policy the parser yields can be written and read back. */
  lemma ParsedIsHoldable(j: Json, p: Policy)
    requires ParsePolicy(Ok(j)) == Ok(p)
    ensures Holdable(p)
  {
    hide ParseCredential, Proper, ValidUpdate, ParseUpdate, Collect, Clash;
    var items := j.fields["credentials"].items;
    CollectIff(items, |items|, p.credentials);
    forall i | 0 <= i < |p.credentials| ensures Proper(p.credentials[i]) { ParsedIsProper(items[i], p.credentials[i]); }
    if p.update.Some? {
      UpdateIff(j.fields, p.update);
      ParsedUpdateIsValid(j.fields, p.update.value, 0);
    }
  }
}
