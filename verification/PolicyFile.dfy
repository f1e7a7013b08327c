/** The JSON policy file: what its parser accepts, and that the relay accepts what it yields. */
module PolicyFile {
  import opened Wire
  import opened Names
  import opened RelaySpec

  datatype Json = Null | Bool(b: bool) | Int(n: int) | Real(r: real) | Str(s: string) | Arr(items: seq<Json>) | Obj(fields: map<string, Json>)

  const SCHEMA_VERSION := 1
  const MAX_CREDENTIALS := 4096
  const UNLIMITED_TUNNELS := 0x4000_0000_0000_0000

  /** `Invalid` is the error the loader turns into "keep the last good policy"; `Failed` is any
      that it does not catch: an assertion, a recursion limit, a date out of range. */
  datatype Outcome<+T> = Ok(value: T) | Invalid | Failed
  {
    predicate IsFailure() { !Ok? }
    function PropagateFailure<U>(): Outcome<U>
      requires !Ok?
    {
      if Invalid? then Invalid else Failed
    }
    function Extract(): T
      requires Ok?
    {
      value
    }
  }

  datatype Credential = Credential(
    id: string,
    tokenSha256: string,
    account: string,
    maxTunnels: int,
    allowedLabel: Option<string>,
    budget: Budget,
    leaseSeconds: Option<int>)

  datatype Policy = Policy(credentials: seq<Credential>, update: Option<Update>)

  // -- scalars

  function Get(o: map<string, Json>, k: string, default: Json): Json { if k in o then o[k] else default }

  predicate Known(o: map<string, Json>, keys: set<string>) { o.Keys <= keys }

  function RequiredStr(j: Json): Outcome<string> { if j.Str? && j.s != "" then Ok(j.s) else Invalid }

  function OptionalLabel(j: Json): Outcome<Option<string>> {
    if j.Null? then Ok(None)
    else
      var s :- RequiredStr(j);
      if ValidLabel(Fold(s)) then Ok(Some(Fold(s))) else Invalid
  }

  predicate HexChar(c: char) { '0' <= c <= '9' || 'a' <= c <= 'f' }

  predicate HexDigest(s: string) { |s| == 64 && forall i | 0 <= i < |s| :: HexChar(s[i]) }

  const SHA256_PREFIX := "sha256:"

  function TokenSha256(j: Json): Outcome<string> {
    var s :- RequiredStr(j);
    var hex := Lower(if SHA256_PREFIX <= s then s[|SHA256_PREFIX|..] else s);
    if HexDigest(hex) then Ok(hex) else Invalid
  }

  function OptionalAtLeast(j: Json, least: int): Outcome<Option<int>> {
    if j.Null? then Ok(None)
    else if j.Int? && j.n >= least then Ok(Some(j.n))
    else Invalid
  }

  function ParseBudget(j: Json): Outcome<Budget> {
    if !j.Obj? || !Known(j.fields, {"max_visitors", "max_bytes_per_sec", "max_reconnects_per_min", "max_buffered_bytes"})
    then Invalid
    else
      var visitors :- OptionalAtLeast(Get(j.fields, "max_visitors", Null), 0);
      var rate :- OptionalAtLeast(Get(j.fields, "max_bytes_per_sec", Null), 0);
      var reconnects :- OptionalAtLeast(Get(j.fields, "max_reconnects_per_min", Null), 0);
      var buffered :- OptionalAtLeast(Get(j.fields, "max_buffered_bytes", Null), 0);
      Ok(Budget(visitors, rate, reconnects, buffered))
  }

  // -- credentials

  function ParseCredential(j: Json): Outcome<Credential> {
    if !j.Obj? || !Known(j.fields, {"credential_id", "token_sha256", "account_id", "max_tunnels", "allowed_label", "budget", "lease_seconds"})
    then Invalid
    else
      var id :- RequiredStr(Get(j.fields, "credential_id", Null));
      var sha :- TokenSha256(Get(j.fields, "token_sha256", Null));
      var account :- RequiredStr(Get(j.fields, "account_id", Null));
      var tunnels :- OptionalAtLeast(Get(j.fields, "max_tunnels", Int(UNLIMITED_TUNNELS)), 0);
      if tunnels.None? then Failed
      else
        var allowed :- OptionalLabel(Get(j.fields, "allowed_label", Null));
        var budget :- ParseBudget(Get(j.fields, "budget", Obj(map[])));
        var seconds :- OptionalAtLeast(Get(j.fields, "lease_seconds", Null), 1);
        Ok(Credential(id, sha, account, tunnels.value, allowed, budget, seconds))
  }

  /** Two credentials that one file cannot hold. */
  predicate Clash(c: Credential, d: Credential) {
    || c.id == d.id || c.tokenSha256 == d.tokenSha256
    || (c.allowedLabel.Some? && c.allowedLabel == d.allowedLabel && c.account != d.account)
  }

  predicate ClashesWith(cs: seq<Credential>, c: Credential) { exists i | 0 <= i < |cs| :: Clash(cs[i], c) }

  predicate Compatible(cs: seq<Credential>) { forall i, j | 0 <= i < j < |cs| :: !Clash(cs[i], cs[j]) }

  /** The first `n` items, in order, up to the first problem. */
  function Collect(items: seq<Json>, n: nat): Outcome<seq<Credential>>
    requires n <= |items|
  {
    if n == 0 then Ok([])
    else
      var cs :- Collect(items, n - 1);
      var c :- ParseCredential(items[n - 1]);
      if ClashesWith(cs, c) then Invalid else Ok(cs + [c])
  }

  function CredentialsFrom(j: Json): Outcome<seq<Credential>> {
    if !j.Arr? || j.items == [] || |j.items| > MAX_CREDENTIALS then Invalid else Collect(j.items, |j.items|)
  }

  /** Item by item the parse of the file, and no two in conflict. */
  predicate ParseOf(items: seq<Json>, n: nat, cs: seq<Credential>)
    requires n <= |items|
  {
    |cs| == n && (forall i | 0 <= i < n :: ParseCredential(items[i]) == Ok(cs[i])) && Compatible(cs)
  }

  /** The credentials of a file are accepted exactly when each parses, ids and token hashes are
      unique, and no label is promised to two accounts; and they come out unchanged in order. */
  lemma {:induction false} CollectIff(items: seq<Json>, n: nat, cs: seq<Credential>)
    requires n <= |items|
    ensures Collect(items, n) == Ok(cs) <==> ParseOf(items, n, cs)
  {
    hide ParseCredential, Clash;
    if n > 0 {
      var last := ParseCredential(items[n - 1]);
      if ParseOf(items, n, cs) {
        CollectIff(items, n - 1, cs[..n - 1]);
        assert cs == cs[..n - 1] + [cs[n - 1]];
      }
      if Collect(items, n) == Ok(cs) { CollectIff(items, n - 1, Collect(items, n - 1).value); }
    }
  }

  /** A null tunnel count behind a good id, hash and account. */
  predicate NullTunnels(j: Json) {
    && j.Obj?
    && Known(j.fields, {"credential_id", "token_sha256", "account_id", "max_tunnels", "allowed_label", "budget", "lease_seconds"})
    && RequiredStr(Get(j.fields, "credential_id", Null)).Ok?
    && TokenSha256(Get(j.fields, "token_sha256", Null)).Ok?
    && RequiredStr(Get(j.fields, "account_id", Null)).Ok?
    && "max_tunnels" in j.fields && j.fields["max_tunnels"].Null?
  }

  /** It is an assertion failure, and nothing else in a credential is. */
  lemma CredentialFailsIff(j: Json)
    ensures ParseCredential(j).Failed? <==> NullTunnels(j)
  {
    hide HexDigest;
  }

  /** The first problem in the list is a null tunnel count. */
  lemma {:induction false} CollectFailsIff(items: seq<Json>, n: nat)
    requires n <= |items|
    ensures Collect(items, n).Failed? <==> exists k | 0 <= k < n :: Collect(items, k).Ok? && NullTunnels(items[k])
  {
    hide ParseCredential, NullTunnels, ClashesWith;
    if n > 0 {
      CollectFailsIff(items, n - 1);
      CredentialFailsIff(items[n - 1]);
      if exists k | 0 <= k < n - 1 :: Collect(items, k).Ok? && NullTunnels(items[k]) {
        assert Collect(items, n).Failed?;
      }
    }
  }

  /** `_parse_credentials`, with the sets and the dictionary it fills as it goes. */
  method ParseCredentials(j: Json) returns (r: Outcome<seq<Credential>>)
    ensures r == CredentialsFrom(j)
  {
    hide ParseCredential;
    if !j.Arr? || |j.items| == 0 || |j.items| > MAX_CREDENTIALS { return Invalid; }
    var cs: seq<Credential> := [];
    var ids, hashes: set<string>, owners: map<string, string> := {}, {}, map[];
    for n := 0 to |j.items|
      invariant Collect(j.items, n) == Ok(cs)
      invariant Seen(cs, ids, hashes, owners)
    {
      var parsed := ParseCredential(j.items[n]);
      CollectStops(j.items, n + 1);
      if !parsed.Ok? { return parsed.PropagateFailure(); }
      var c := parsed.value;
      SeenClash(cs, ids, hashes, owners, c);
      if c.id in ids || c.tokenSha256 in hashes { return Invalid; }
      if c.allowedLabel.Some? && c.allowedLabel.value in owners && owners[c.allowedLabel.value] != c.account { return Invalid; }
      SeenMore(cs, ids, hashes, owners, c);
      if c.allowedLabel.Some? { owners := owners[c.allowedLabel.value := c.account]; }
      ids, hashes, cs := ids + {c.id}, hashes + {c.tokenSha256}, cs + [c];
    }
    return Ok(cs);
  }

  /** Once a prefix is refused the whole is. */
  lemma {:induction false} CollectStops(items: seq<Json>, n: nat)
    requires n <= |items|
    ensures !Collect(items, n).Ok? ==> Collect(items, |items|) == Collect(items, n)
    decreases |items| - n
  {
    hide ParseCredential;
    if n < |items| { CollectStops(items, n + 1); }
  }

  predicate Seen(cs: seq<Credential>, ids: set<string>, hashes: set<string>, owners: map<string, string>) {
    && ids == (set i | 0 <= i < |cs| :: cs[i].id)
    && hashes == (set i | 0 <= i < |cs| :: cs[i].tokenSha256)
    && (forall i | 0 <= i < |cs| && cs[i].allowedLabel.Some? ::
          cs[i].allowedLabel.value in owners && owners[cs[i].allowedLabel.value] == cs[i].account)
    && (forall l | l in owners :: exists i :: 0 <= i < |cs| && cs[i].allowedLabel == Some(l))
  }

  lemma SeenClash(cs: seq<Credential>, ids: set<string>, hashes: set<string>, owners: map<string, string>, c: Credential)
    requires Seen(cs, ids, hashes, owners)
    ensures ClashesWith(cs, c) <==>
            || c.id in ids || c.tokenSha256 in hashes
            || (c.allowedLabel.Some? && c.allowedLabel.value in owners && owners[c.allowedLabel.value] != c.account)
  {
    if c.id in ids {
      var i :| 0 <= i < |cs| && cs[i].id == c.id;
      assert Clash(cs[i], c);
    } else if c.tokenSha256 in hashes {
      var i :| 0 <= i < |cs| && cs[i].tokenSha256 == c.tokenSha256;
      assert Clash(cs[i], c);
    } else if c.allowedLabel.Some? && c.allowedLabel.value in owners && owners[c.allowedLabel.value] != c.account {
      var i :| 0 <= i < |cs| && cs[i].allowedLabel == c.allowedLabel;
      assert Clash(cs[i], c);
    }
  }

  lemma SeenMore(cs: seq<Credential>, ids: set<string>, hashes: set<string>, owners: map<string, string>, c: Credential)
    requires Seen(cs, ids, hashes, owners) && !ClashesWith(cs, c)
    ensures Seen(cs + [c], ids + {c.id}, hashes + {c.tokenSha256},
                 if c.allowedLabel.Some? then owners[c.allowedLabel.value := c.account] else owners)
  {
    var ds := cs + [c];
    var owners' := if c.allowedLabel.Some? then owners[c.allowedLabel.value := c.account] else owners;
    assert ds[|cs|] == c && forall i | 0 <= i < |cs| :: ds[i] == cs[i];
    assert (set i | 0 <= i < |ds| :: ds[i].id) == ids + {c.id} by { SetGrows(cs, c); }
    assert (set i | 0 <= i < |ds| :: ds[i].tokenSha256) == hashes + {c.tokenSha256} by { SetGrows(cs, c); }
    forall i | 0 <= i < |ds| && ds[i].allowedLabel.Some?
      ensures ds[i].allowedLabel.value in owners' && owners'[ds[i].allowedLabel.value] == ds[i].account
    {
      if i < |cs| { assert !Clash(cs[i], c); }
    }
    forall l | l in owners' ensures exists i :: 0 <= i < |ds| && ds[i].allowedLabel == Some(l) {
      if c.allowedLabel == Some(l) {
        assert ds[|cs|].allowedLabel == Some(l);
      } else {
        var i :| 0 <= i < |cs| && cs[i].allowedLabel == Some(l);
        assert ds[i].allowedLabel == Some(l);
      }
    }
  }

  lemma SetGrows(cs: seq<Credential>, c: Credential)
    ensures (set i | 0 <= i < |cs + [c]| :: (cs + [c])[i].id) == (set i | 0 <= i < |cs| :: cs[i].id) + {c.id}
    ensures (set i | 0 <= i < |cs + [c]| :: (cs + [c])[i].tokenSha256) == (set i | 0 <= i < |cs| :: cs[i].tokenSha256) + {c.tokenSha256}
  {
    var ds := cs + [c];
    assert ds[|cs|] == c;
    forall i | 0 <= i < |cs| ensures ds[i] == cs[i] {}
  }

  // -- the policy delta

  /** `_duplicates`: each value that occurs twice, once, in the order it is found to. */
  function Duplicates(values: seq<string>): seq<string> {
    if values == [] then []
    else
      var n := |values| - 1;
      var before := Duplicates(values[..n]);
      if values[n] in values[..n] && values[n] !in before then before + [values[n]] else before
  }

  method FindDuplicates(values: seq<string>) returns (duplicates: seq<string>)
    ensures duplicates == Duplicates(values)
  {
    var seen: set<string> := {};
    duplicates := [];
    for i := 0 to |values|
      invariant duplicates == Duplicates(values[..i])
      invariant forall v :: v in seen <==> v in values[..i]
    {
      assert values[..i + 1][..i] == values[..i] && values[..i + 1] == values[..i] + [values[i]];
      if values[i] in seen && values[i] !in duplicates { duplicates := duplicates + [values[i]]; }
      seen := seen + {values[i]};
    }
    assert values[..|values|] == values;
  }

  /** A value is reported exactly when it occurs at two places, and is reported once. */
  lemma {:induction false} DuplicatesIff(values: seq<string>, v: string)
    ensures v in Duplicates(values) <==> exists i, j :: 0 <= i < j < |values| && values[i] == v && values[j] == v
    ensures Distinct(Duplicates(values))
    decreases |values|
  {
    if values != [] {
      var n := |values| - 1;
      DuplicatesIff(values[..n], v);
      assert values == values[..n] + [values[n]];
      if v in Duplicates(values) && v !in Duplicates(values[..n]) {
        var i :| 0 <= i < n && values[..n][i] == v;
        assert values[i] == v && values[n] == v;
      } else if v in Duplicates(values[..n]) {
        var i, j :| 0 <= i < j < n && values[..n][i] == v && values[..n][j] == v;
        assert values[i] == v && values[j] == v;
      }
      forall i, j | 0 <= i < j < |values| && values[i] == v && values[j] == v ensures v in Duplicates(values) {
        assert values[..n][i] == v;
        if j < n { assert values[..n][j] == v; }
      }
    }
  }

  lemma NoDuplicates(values: seq<string>)
    ensures Duplicates(values) == [] <==> Distinct(values)
  {
    if Duplicates(values) != [] {
      DuplicatesIff(values, Duplicates(values)[0]);
    }
    forall i, j | 0 <= i < j < |values| && values[i] == values[j] ensures Duplicates(values) != [] {
      DuplicatesIff(values, values[i]);
    }
  }

  /** Each item parsed, in order, up to the first that does not. */
  function Each<T>(items: seq<Json>, f: Json -> Outcome<T>): Outcome<seq<T>> {
    if items == [] then Ok([])
    else
      var before :- Each(items[..|items| - 1], f);
      var last :- f(items[|items| - 1]);
      Ok(before + [last])
  }

  lemma {:induction false} EachIs<T>(items: seq<Json>, f: Json -> Outcome<T>, ts: seq<T>)
    ensures Each(items, f) == Ok(ts) <==> |ts| == |items| && forall i | 0 <= i < |items| :: f(items[i]) == Ok(ts[i])
    decreases |items|
  {
    if items != [] {
      var n := |items| - 1;
      if |ts| == |items| {
        EachIs(items[..n], f, ts[..n]);
        assert ts == ts[..n] + [ts[n]];
      }
      if Each(items, f) == Ok(ts) { EachIs(items[..n], f, Each(items[..n], f).value); }
    }
  }

  function ParseRevocation(j: Json): Outcome<Revocation> {
    if !j.Obj? || !Known(j.fields, {"lease_id", "action"}) then Invalid
    else
      var id :- RequiredStr(Get(j.fields, "lease_id", Null));
      var action := Get(j.fields, "action", Str("drain"));
      if action.Str? && ValidAction(action.s) then Ok(Revocation(id, action.s)) else Invalid
  }

  function ParseBudgetUpdate(j: Json): Outcome<BudgetUpdate> {
    if !j.Obj? || !Known(j.fields, {"account_id", "budget"}) then Invalid
    else
      var account :- RequiredStr(Get(j.fields, "account_id", Null));
      var budget :- ParseBudget(Get(j.fields, "budget", Obj(map[])));
      Ok(BudgetUpdate(account, budget))
  }

  /** A list of at most `most` items of which no two have the same key. */
  function ParseList<T>(j: Json, most: nat, f: Json -> Outcome<T>, key: T -> string): Outcome<seq<T>> {
    if !j.Arr? || |j.items| > most then Invalid
    else
      var ts :- Each(j.items, f);
      if Duplicates(seq(|ts|, i requires 0 <= i < |ts| => key(ts[i]))) == [] then Ok(ts) else Invalid
  }

  function ParseRevokes(j: Json): Outcome<seq<LeaseId>> { ParseList(j, MAX_REVOKE_LEASE_IDS, RequiredStr, (s: string) => s) }
  function ParseRevocations(j: Json): Outcome<seq<Revocation>> {
    ParseList(j, MAX_LEASE_REVOCATIONS, ParseRevocation, (r: Revocation) => r.lease)
  }
  function ParseBudgets(j: Json): Outcome<seq<BudgetUpdate>> {
    ParseList(j, MAX_ACCOUNT_BUDGETS, ParseBudgetUpdate, (b: BudgetUpdate) => b.account)
  }

  /** `_parse_policy_update` */
  function ParseUpdate(o: map<string, Json>): Outcome<Option<Update>> {
    if "policy_version" !in o && "revoke_lease_ids" !in o && "lease_revocations" !in o && "account_budgets" !in o then Ok(None)
    else
      var version :- OptionalAtLeast(Get(o, "policy_version", Null), 1);
      if version.None? then Invalid
      else
        var revoke :- ParseRevokes(Get(o, "revoke_lease_ids", Arr([])));
        var revocations :- ParseRevocations(Get(o, "lease_revocations", Arr([])));
        var budgets :- ParseBudgets(Get(o, "account_budgets", Arr([])));
        if Duplicates(revoke + Leases(revocations)) != [] then Invalid
        else if revoke == [] && revocations == [] && budgets == [] then Ok(None)
        else Ok(Some(Update(version.value, revoke, revocations, budgets)))
  }

  lemma ListShape<T>(j: Json, most: nat, f: Json -> Outcome<T>, key: T -> string, ts: seq<T>)
    requires ParseList(j, most, f, key) == Ok(ts)
    ensures j.Arr? && |ts| == |j.items| <= most
    ensures forall i | 0 <= i < |ts| :: f(j.items[i]) == Ok(ts[i])
    ensures forall i, j | 0 <= i < j < |ts| :: key(ts[i]) != key(ts[j])
  {
    EachIs(j.items, f, ts);
    var keys := seq(|ts|, i requires 0 <= i < |ts| => key(ts[i]));
    NoDuplicates(keys);
    forall i, j | 0 <= i < j < |ts| ensures key(ts[i]) != key(ts[j]) { assert keys[i] != keys[j]; }
  }

  lemma BudgetIsValid(j: Json, b: Budget)
    requires ParseBudget(j) == Ok(b)
    ensures ValidBudget(b)
  {
  }

  /** Every update the file parser yields passes the relay's own validator, whatever older
      version the relay is at. */
  lemma ParsedUpdateIsValid(o: map<string, Json>, u: Update, version: int)
    requires ParseUpdate(o) == Ok(Some(u)) && version < u.version
    ensures ValidUpdate(version, u)
  {
    hide ParseBudget, Duplicates, ParseList, ValidBudget, Each;
    ListShape(Get(o, "revoke_lease_ids", Arr([])), MAX_REVOKE_LEASE_IDS, RequiredStr, (s: string) => s, u.revoke);
    ListShape(Get(o, "lease_revocations", Arr([])), MAX_LEASE_REVOCATIONS, ParseRevocation, (r: Revocation) => r.lease, u.revocations);
    ListShape(Get(o, "account_budgets", Arr([])), MAX_ACCOUNT_BUDGETS, ParseBudgetUpdate, (b: BudgetUpdate) => b.account, u.budgets);
    NoDuplicates(Named(u));
    forall i | 0 <= i < |u.budgets| ensures u.budgets[i].account != "" && ValidBudget(u.budgets[i].budget) {
      var j := Get(o, "account_budgets", Arr([])).items[i];
      assert ParseBudgetUpdate(j) == Ok(u.budgets[i]);
      BudgetIsValid(Get(j.fields, "budget", Obj(map[])), u.budgets[i].budget);
    }
  }

  // -- and back

  function WriteLimit(v: Option<int>): Json { if v.None? then Null else Int(v.value) }

  function WriteBudget(b: Budget): Json {
    Obj(map["max_visitors" := WriteLimit(b.maxVisitors), "max_bytes_per_sec" := WriteLimit(b.maxBytesPerSec),
            "max_reconnects_per_min" := WriteLimit(b.maxReconnectsPerMin), "max_buffered_bytes" := WriteLimit(b.maxBufferedBytes)])
  }

  function WriteRevocation(r: Revocation): Json { Obj(map["lease_id" := Str(r.lease), "action" := Str(r.action)]) }

  function WriteBudgetUpdate(b: BudgetUpdate): Json { Obj(map["account_id" := Str(b.account), "budget" := WriteBudget(b.budget)]) }

  function WriteList<T>(ts: seq<T>, f: T -> Json): Json { Arr(seq(|ts|, i requires 0 <= i < |ts| => f(ts[i]))) }

  function WriteUpdate(u: Update): map<string, Json> {
    map["policy_version" := Int(u.version),
        "revoke_lease_ids" := WriteList(u.revoke, (s: string) => Str(s)),
        "lease_revocations" := WriteList(u.revocations, WriteRevocation),
        "account_budgets" := WriteList(u.budgets, WriteBudgetUpdate)]
  }

  lemma ListBack<T>(ts: seq<T>, write: T -> Json, most: nat, f: Json -> Outcome<T>, key: T -> string)
    requires |ts| <= most && forall i | 0 <= i < |ts| :: f(write(ts[i])) == Ok(ts[i])
    requires forall i, j | 0 <= i < j < |ts| :: key(ts[i]) != key(ts[j])
    ensures ParseList(WriteList(ts, write), most, f, key) == Ok(ts)
  {
    EachIs(WriteList(ts, write).items, f, ts);
    NoDuplicates(seq(|ts|, i requires 0 <= i < |ts| => key(ts[i])));
  }

  lemma BudgetBack(b: Budget)
    requires ValidBudget(b)
    ensures ParseBudget(WriteBudget(b)) == Ok(b)
  {
  }

  lemma RevocationBack(r: Revocation)
    requires r.lease != "" && ValidAction(r.action)
    ensures ParseRevocation(WriteRevocation(r)) == Ok(r)
  {
  }

  lemma BudgetUpdateBack(b: BudgetUpdate)
    requires b.account != "" && ValidBudget(b.budget)
    ensures ParseBudgetUpdate(WriteBudgetUpdate(b)) == Ok(b)
  {
    hide ParseBudget, WriteBudget;
    BudgetBack(b.budget);
    BudgetIsObject(b.budget);
  }

  lemma BudgetIsObject(b: Budget)
    ensures WriteBudget(b).Obj?
  {
  }

  /** Every update the relay would apply that does anything can be written in the file, and is
      read back as it was. */
  lemma WrittenUpdateReadsBack(u: Update, version: int)
    requires ValidUpdate(version, u) && u.version >= 1
    ensures ParseUpdate(WriteUpdate(u)) ==
              Ok(if u.revoke == [] && u.revocations == [] && u.budgets == [] then None else Some(u))
  {
    hide ParseBudget, WriteBudget, ParseList, WriteList, Duplicates, ParseRevocation, WriteRevocation, ParseBudgetUpdate,
      WriteBudgetUpdate, ValidBudget;
    NamedNames(u);
    ListBack(u.revoke, (s: string) => Str(s), MAX_REVOKE_LEASE_IDS, RequiredStr, (s: string) => s);
    forall i | 0 <= i < |u.revocations| ensures ParseRevocation(WriteRevocation(u.revocations[i])) == Ok(u.revocations[i]) {
      RevocationBack(u.revocations[i]);
    }
    ListBack(u.revocations, WriteRevocation, MAX_LEASE_REVOCATIONS, ParseRevocation, (r: Revocation) => r.lease);
    forall i | 0 <= i < |u.budgets| ensures ParseBudgetUpdate(WriteBudgetUpdate(u.budgets[i])) == Ok(u.budgets[i]) {
      BudgetUpdateBack(u.budgets[i]);
    }
    ListBack(u.budgets, WriteBudgetUpdate, MAX_ACCOUNT_BUDGETS, ParseBudgetUpdate, (b: BudgetUpdate) => b.account);
    NoDuplicates(Named(u));
  }

  lemma NamedNames(u: Update)
    requires (forall i | 0 <= i < |Named(u)| :: Named(u)[i] != "") && Distinct(Named(u))
    ensures forall i | 0 <= i < |u.revoke| :: u.revoke[i] != ""
    ensures forall i, j | 0 <= i < j < |u.revoke| :: u.revoke[i] != u.revoke[j]
    ensures forall i | 0 <= i < |u.revocations| :: u.revocations[i].lease != ""
    ensures forall i, j | 0 <= i < j < |u.revocations| :: u.revocations[i].lease != u.revocations[j].lease
  {
    var ids, n := Named(u), |u.revoke|;
    forall i | 0 <= i < n ensures u.revoke[i] == ids[i] {}
    forall i | 0 <= i < |u.revocations| ensures u.revocations[i].lease == ids[n + i] {}
  }

  // -- the file

  predicate SchemaIs(j: Json) { j == Int(SCHEMA_VERSION) || j == Bool(true) || j == Real(1.0) }

  /** `_parse_static_policy_text` on what the JSON decoder made of the text. The decoder fails on
      text nested past the interpreter's recursion limit, which is not the error it reports for
      text that is not JSON. */
  function ParsePolicy(decoded: Outcome<Json>): Outcome<Policy> {
    var data :- decoded;
    if !data.Obj? || !Known(data.fields, FILE_KEYS) || !SchemaIs(Get(data.fields, "schema_version", Null)) then Invalid
    else
      var credentials :- CredentialsFrom(Get(data.fields, "credentials", Null));
      var update :- ParseUpdate(data.fields);
      Ok(Policy(credentials, update))
  }

  const FILE_KEYS := {"schema_version", "credentials", "policy_version", "revoke_lease_ids", "lease_revocations", "account_budgets"}

  /** What gets past the loader's guard: text nested too deeply, or a well-formed file whose first
      problem in its list of credentials is a null tunnel count. */
  predicate Escapes(decoded: Outcome<Json>) {
    || decoded.Failed?
    || (&& decoded.Ok? && decoded.value.Obj?
        && Known(decoded.value.fields, FILE_KEYS) && SchemaIs(Get(decoded.value.fields, "schema_version", Null))
        && var credentials := Get(decoded.value.fields, "credentials", Null);
           && credentials.Arr? && 1 <= |credentials.items| <= MAX_CREDENTIALS
           && exists k | 0 <= k < |credentials.items| :: Collect(credentials.items, k).Ok? && NullTunnels(credentials.items[k]))
  }

  lemma FileFailsIff(decoded: Outcome<Json>)
    ensures ParsePolicy(decoded).Failed? <==> Escapes(decoded)
  {
    hide ParseUpdate, Collect, NullTunnels;
    if decoded.Ok? && decoded.value.Obj? {
      var credentials := Get(decoded.value.fields, "credentials", Null);
      UpdateNeverFails(decoded.value.fields);
      if credentials.Arr? { CollectFailsIff(credentials.items, |credentials.items|); }
    }
  }

  lemma BudgetNeverFails(j: Json)
    ensures !ParseBudget(j).Failed?
  {
  }

  lemma {:induction false} EachNeverFails<T>(items: seq<Json>, f: Json -> Outcome<T>)
    requires forall j :: !f(j).Failed?
    ensures !Each(items, f).Failed?
    decreases |items|
  {
    if items != [] { EachNeverFails(items[..|items| - 1], f); }
  }

  lemma ListNeverFails<T>(j: Json, most: nat, f: Json -> Outcome<T>, key: T -> string)
    requires forall x :: !f(x).Failed?
    ensures !ParseList(j, most, f, key).Failed?
  {
    if j.Arr? { EachNeverFails(j.items, f); }
  }

  /** The policy delta has no assertion to fail. */
  lemma UpdateNeverFails(o: map<string, Json>)
    ensures !ParseUpdate(o).Failed?
  {
    hide ParseList, ParseBudget, Duplicates;
    forall j ensures !RequiredStr(j).Failed? && !ParseRevocation(j).Failed? {}
    forall j ensures !ParseBudgetUpdate(j).Failed? {
      if j.Obj? { BudgetNeverFails(Get(j.fields, "budget", Obj(map[]))); }
    }
    ListNeverFails(Get(o, "revoke_lease_ids", Arr([])), MAX_REVOKE_LEASE_IDS, RequiredStr, (s: string) => s);
    ListNeverFails(Get(o, "lease_revocations", Arr([])), MAX_LEASE_REVOCATIONS, ParseRevocation, (r: Revocation) => r.lease);
    ListNeverFails(Get(o, "account_budgets", Arr([])), MAX_ACCOUNT_BUDGETS, ParseBudgetUpdate, (b: BudgetUpdate) => b.account);
  }
}
