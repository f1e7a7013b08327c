/** The relay's sliding-window limiters: account reconnects, and failed handshakes by source.

    The program keeps, per key, a list of times that it prunes whenever it looks and sweeps when
    there are many keys. Here it is shown to decide as the complete history would. */
module Limiter {
  import opened Wire

  const WINDOW := 60.0
  const SWEEP_AT := 4096
  const MAX_KEYS := 65536
  const AUTH_FAIL_MAX := 5

  type Log = map<string, seq<real>>

  function At(log: Log, k: string): seq<real> { if k in log then log[k] else [] }

  /** The times less than a window old. */
  function Fresh(ts: seq<real>, now: real): seq<real> {
    if ts == [] then []
    else Fresh(ts[..|ts| - 1], now) + if now - ts[|ts| - 1] < WINDOW then [ts[|ts| - 1]] else []
  }

  /** The times in the window that starts at `from`. */
  function InWindow(ts: seq<real>, from: real): seq<real> {
    if ts == [] then []
    else InWindow(ts[..|ts| - 1], from) + if from <= ts[|ts| - 1] < from + WINDOW then [ts[|ts| - 1]] else []
  }

  lemma FreshPush(ts: seq<real>, t: real, now: real)
    ensures Fresh(ts + [t], now) == Fresh(ts, now) + if now - t < WINDOW then [t] else []
  {
    assert (ts + [t])[..|ts|] == ts;
  }

  /** What has been pruned would not have counted later. */
  lemma {:induction false} FreshLater(ts: seq<real>, now: real, later: real)
    requires now <= later
    ensures Fresh(Fresh(ts, now), later) == Fresh(ts, later)
    decreases |ts|
  {
    if ts != [] {
      var n := |ts| - 1;
      FreshLater(ts[..n], now, later);
      assert Fresh(ts[..n], now) + [] == Fresh(ts[..n], now);
      if now - ts[n] < WINDOW { FreshPush(Fresh(ts[..n], now), ts[n], later); }
    }
  }

  lemma {:induction false} FreshNone(ts: seq<real>, now: real)
    ensures Fresh(ts, now) == [] <==> forall i | 0 <= i < |ts| :: now - ts[i] >= WINDOW
    decreases |ts|
  {
    if ts != [] {
      var n := |ts| - 1;
      FreshNone(ts[..n], now);
      if now - ts[n] < WINDOW { assert Fresh(ts, now) != []; } else { assert Fresh(ts, now) == Fresh(ts[..n], now); }
    }
  }

  /** Two logs count the same from `now` on. */
  ghost predicate Agree(log: Log, full: Log, now: real) { forall k: string :: Fresh(At(log, k), now) == Fresh(At(full, k), now) }

  lemma AgreeLater(log: Log, full: Log, now: real, later: real)
    requires Agree(log, full, now) && now <= later
    ensures Agree(log, full, later)
  {
    forall k: string ensures Fresh(At(log, k), later) == Fresh(At(full, k), later) {
      FreshLater(At(log, k), now, later);
      FreshLater(At(full, k), now, later);
    }
  }

  lemma AgreePut(log: Log, full: Log, now: real, k: string, ts: seq<real>)
    requires Agree(log, full, now) && Fresh(ts, now) == Fresh(At(full, k), now)
    ensures Agree(log[k := ts], full, now)
  {
    forall x: string ensures Fresh(At(log[k := ts], x), now) == Fresh(At(full, x), now) {
      assert Fresh(At(log, x), now) == Fresh(At(full, x), now);
    }
  }

  lemma AgreeDrop(log: Log, full: Log, now: real, k: string)
    requires Agree(log, full, now) && Fresh(At(log, k), now) == []
    ensures Agree(log - {k}, full, now)
  {
    forall x: string ensures Fresh(At(log - {k}, x), now) == Fresh(At(full, x), now) {
      assert Fresh(At(log, x), now) == Fresh(At(full, x), now);
    }
  }

  lemma AgreePush(log: Log, full: Log, now: real, k: string, t: real)
    requires Agree(log, full, now)
    ensures Agree(log[k := At(log, k) + [t]], full[k := At(full, k) + [t]], now)
  {
    FreshPush(At(log, k), t, now);
    FreshPush(At(full, k), t, now);
    var log', full' := log[k := At(log, k) + [t]], full[k := At(full, k) + [t]];
    forall x: string ensures Fresh(At(log', x), now) == Fresh(At(full', x), now) {
      assert Fresh(At(log, x), now) == Fresh(At(full, x), now);
    }
  }

  lemma AgreeAt(log: Log, full: Log, now: real, k: string)
    requires Agree(log, full, now)
    ensures Fresh(At(log, k), now) == Fresh(At(full, k), now)
  {
  }

  // -- the decision on the complete history

  predicate Allowed(full: seq<real>, limit: Option<int>, now: real) {
    limit.None? || (limit.value >= 0 && |Fresh(full, now)| < limit.value)
  }

  /** Attempts are recorded when they are let in under a limit. */
  function Recorded(full: seq<real>, limit: Option<int>, now: real): seq<real> {
    if limit.Some? && Allowed(full, limit, now) then full + [now] else full
  }

  /** Which entries of the history lie within the minute before `now`. */
  function Recent(full: seq<real>, now: real): set<int> { set i | 0 <= i < |full| && now - full[i] < 60.0 }

  lemma {:induction false} FreshIsRecent(full: seq<real>, now: real)
    ensures |Fresh(full, now)| == |Recent(full, now)|
    decreases |full|
  {
    if full != [] {
      var n := |full| - 1;
      FreshIsRecent(full[..n], now);
      assert Recent(full, now) == Recent(full[..n], now) + if now - full[n] < 60.0 then {n} else {};
    }
  }

  /** An attempt is let in exactly when it is under no limit or fewer than the limit lie within the
      last minute, and it is recorded exactly when it is let in under one. */
  lemma AllowedIff(full: seq<real>, limit: Option<int>, now: real)
    ensures Allowed(full, limit, now) <==> limit.None? || |Recent(full, now)| < limit.value
    ensures Recorded(full, limit, now) == if limit.Some? && |Recent(full, now)| < limit.value then full + [now] else full
  {
    FreshIsRecent(full, now);
    hide Fresh, Recent;
  }

  datatype Attempt = Attempt(limit: Option<int>, at: real)

  function History(attempts: seq<Attempt>): seq<real> {
    if attempts == [] then []
    else var a := attempts[|attempts| - 1]; Recorded(History(attempts[..|attempts| - 1]), a.limit, a.at)
  }

  lemma {:induction false} WindowIsFresh(ts: seq<real>, from: real, now: real)
    requires from <= now < from + WINDOW
    ensures |InWindow(ts, from)| <= |Fresh(ts, now)|
    decreases |ts|
  {
    if ts != [] { WindowIsFresh(ts[..|ts| - 1], from, now); }
  }

  /** No window of a minute, wherever it starts, holds more recorded attempts than the greatest
      limit in force. */
  lemma {:induction false} WindowBound(attempts: seq<Attempt>, most: nat, from: real)
    requires forall i | 0 <= i < |attempts| && attempts[i].limit.Some? :: attempts[i].limit.value <= most
    ensures |InWindow(History(attempts), from)| <= most
    decreases |attempts|
  {
    if attempts != [] {
      var n := |attempts| - 1;
      var a, before := attempts[n], History(attempts[..n]);
      WindowBound(attempts[..n], most, from);
      if a.limit.Some? && Allowed(before, a.limit, a.at) {
        assert (before + [a.at])[..|before|] == before;
        if from <= a.at < from + WINDOW { WindowIsFresh(before, from, a.at); }
      }
    }
  }

  // -- the order in which a dictionary holds its keys

  predicate Distinct(ks: seq<string>) { forall i, j | 0 <= i < j < |ks| :: ks[i] != ks[j] }

  /** `order` lists the keys of `log`, oldest first. */
  predicate Lists(order: seq<string>, log: Log) { Distinct(order) && log.Keys == set k | k in order }

  function Except(ks: seq<string>, k: string): seq<string> {
    if ks == [] then [] else (if ks[0] == k then [] else [ks[0]]) + Except(ks[1..], k)
  }

  lemma {:induction false} ExceptIs(ks: seq<string>, k: string)
    ensures forall x :: x in Except(ks, k) <==> x in ks && x != k
    ensures Distinct(ks) ==> Distinct(Except(ks, k))
    ensures k !in ks ==> Except(ks, k) == ks
  {
    if ks != [] {
      ExceptIs(ks[1..], k);
      assert ks == [ks[0]] + ks[1..];
      if Distinct(ks) { assert ks[0] !in ks[1..]; }
    }
  }

  lemma ListsPut(order: seq<string>, log: Log, k: string, ts: seq<real>)
    requires Lists(order, log)
    ensures Lists(if k in log then order else order + [k], log[k := ts])
  {
    var next := if k in log then order else order + [k];
    assert log[k := ts].Keys == log.Keys + {k};
    forall x ensures x in next <==> x in order || x == k {}
  }

  lemma ListsDrop(order: seq<string>, log: Log, k: string)
    requires Lists(order, log)
    ensures Lists(Except(order, k), log - {k})
  {
    ExceptIs(order, k);
    assert (log - {k}).Keys == log.Keys - {k};
  }

  lemma {:induction false} ListsSize(order: seq<string>, log: Log)
    requires Lists(order, log)
    ensures |order| == |log|
    decreases |order|
  {
    if order == [] {
      assert log.Keys == {} && |log.Keys| == |log|;
    } else {
      var k, rest := order[0], order[1..];
      assert order == [k] + rest && k !in rest;
      assert (log - {k}).Keys == set x | x in rest;
      Resized(log, k, []);
      ListsSize(rest, log - {k});
    }
  }

  /** The oldest key goes. */
  lemma ListsFirst(order: seq<string>, log: Log)
    requires Lists(order, log) && order != []
    ensures order[0] in log && Lists(order[1..], log - {order[0]})
  {
    var k, rest := order[0], order[1..];
    assert order == [k] + rest && k !in rest;
    assert (log - {k}).Keys == log.Keys - {k};
  }

  // -- the program's lists

  class WindowLimiter {
    var log: Log
    var order: seq<string>      // the order in which `log` holds its keys
    ghost var full: Log         // every time ever recorded
    ghost var clock: real       // the latest time seen

    constructor ()
      ensures Faithful() && Ordered() && log == map[] && full == map[] && clock == 0.0
    {
      log, order, full, clock := map[], [], map[], 0.0;
    }

    /** From now on the lists count what the complete history counts. */
    ghost predicate Faithful()
      reads this
    {
      Agree(log, full, clock)
    }

    predicate Ordered()
      reads this
    {
      Lists(order, log)
    }

    /** The clock advances. */
    ghost method Tick(now: real)
      requires Faithful() && clock <= now
      modifies this`clock
      ensures Faithful() && clock == now
    {
      AgreeLater(log, full, clock, now);
      clock := now;
    }

    method Filter(ts: seq<real>, now: real) returns (recent: seq<real>)
      ensures recent == Fresh(ts, now)
    {
      recent := [];
      for i := 0 to |ts|
        invariant recent == Fresh(ts[..i], now)
      {
        assert ts[..i + 1][..i] == ts[..i];
        if now - ts[i] < WINDOW { recent := recent + [ts[i]]; }
      }
      assert ts[..|ts|] == ts;
    }

    /** Assignment to a key keeps its place; a new key goes last. */
    method Put(k: string, ts: seq<real>)
      requires Ordered()
      modifies this`log, this`order
      ensures Ordered() && log == old(log)[k := ts] && order == if k in old(log) then old(order) else old(order) + [k]
    {
      hide Lists;
      ListsPut(order, log, k, ts);
      if k !in log { order := order + [k]; }
      log := log[k := ts];
    }

    method Drop(k: string)
      requires Ordered()
      modifies this`log, this`order
      ensures Ordered() && log == old(log) - {k} && order == Except(old(order), k)
    {
      hide Lists;
      ListsDrop(order, log, k);
      order := Except(order, k);
      log := log - {k};
    }

    /** Prune one key's list. */
    method FreshTimes(k: string, now: real) returns (recent: seq<real>)
      requires Faithful() && Ordered() && clock == now
      modifies this`log, this`order
      ensures Faithful() && Ordered() && recent == Fresh(At(full, k), now)
      ensures log == old(log) || log == if recent != [] then old(log)[k := recent] else old(log) - {k}
      ensures |log| <= |old(log)| && log.Keys <= old(log).Keys && (recent != [] ==> k in log)
      ensures k !in log && k in old(log) ==> |log| < |old(log)|
      ensures log.Keys == old(log).Keys ==> order == old(order)
    {
      hide Agree, Fresh, Lists;
      AgreeAt(log, full, now, k);
      if k !in log || log[k] == [] {
        FreshNone(At(log, k), now);
        return [];
      }
      recent := Filter(log[k], now);
      FreshLater(log[k], now, now);
      Resized(log, k, recent);
      if recent != [] {
        AgreePut(log, full, now, k, recent);
        Put(k, recent);
      } else {
        AgreeDrop(log, full, now, k);
        Drop(k);
      }
    }

    /** Drop the keys that have nothing fresh, and no others. */
    method Sweep(now: real)
      requires Faithful() && Ordered() && clock == now
      modifies this`log, this`order
      ensures Faithful() && Ordered() && log.Keys <= old(log).Keys && |log| <= |old(log)|
      ensures forall x | x in old(log) && x !in log :: Fresh(old(log)[x], now) == []
      ensures forall x | x in log :: log[x] == old(log)[x]
      ensures |log| == |old(log)| ==> order == old(order) && log.Keys == old(log).Keys
    {
      hide Agree, Fresh, Lists;
      var todo := log.Keys;
      while todo != {}
        invariant Faithful() && Ordered() && log.Keys <= old(log).Keys && |log| <= |old(log)|
        invariant forall x | x in old(log) && x !in log :: Fresh(old(log)[x], now) == []
        invariant forall x | x in log :: log[x] == old(log)[x]
        invariant |log| == |old(log)| ==> order == old(order) && log.Keys == old(log).Keys
        decreases |todo|
      {
        var k :| k in todo;
        todo := todo - {k};
        if k in log {
          var recent := Filter(log[k], now);
          if recent == [] {
            Resized(log, k, []);
            AgreeDrop(log, full, now, k);
            Drop(k);
          }
        }
      }
    }

    /** The hard cap: the oldest keys are thrown out, and regain their whole budget. */
    method Evict() returns (ghost oldest: seq<string>)
      requires Ordered()
      modifies this`log, this`order
      ensures Ordered() && old(order) == oldest + order
      ensures |log| == |order| == if |old(log)| <= MAX_KEYS then |old(log)| else MAX_KEYS
      ensures |old(log)| <= MAX_KEYS ==> log == old(log)
      ensures forall x | x in log :: x in old(log) && log[x] == old(log)[x]
      ensures forall x | x in old(log) && x !in log :: x in oldest
    {
      hide Lists;
      ListsSize(order, log);
      oldest := [];
      while |log| > MAX_KEYS
        invariant Ordered() && |order| == |log| && old(order) == oldest + order
        invariant |old(log)| <= MAX_KEYS ==> log == old(log)
        invariant |old(log)| > MAX_KEYS ==> |log| >= MAX_KEYS
        invariant forall x | x in log :: x in old(log) && log[x] == old(log)[x]
        invariant forall x | x in old(log) && x !in log :: x in oldest
        decreases |log|
      {
        var k := order[0];
        ListsFirst(order, log);
        Resized(log, k, []);
        assert order == [k] + order[1..];
        oldest := oldest + [k];
        order := order[1..];
        log := log - {k};
      }
    }

    /** Append `now` to the list of `k`, then sweep and cap. Only stale keys go, or the oldest one
        of a full log. */
    method Record(k: string, now: real)
      requires Faithful() && Ordered() && clock == now && |log| <= MAX_KEYS
      modifies this`log, this`order, this`full
      ensures Ordered() && full == old(full)[k := At(old(full), k) + [now]]
      ensures |log| <= MAX_KEYS && (|old(log)| < MAX_KEYS || k in old(log) ==> Faithful())
      ensures k in log && log.Keys <= old(log).Keys + {k}
      ensures forall x | x in old(log) && x !in log ::
                Fresh(old(log)[x], now) == [] || (|old(log)| == MAX_KEYS && old(order) != [] && x == old(order)[0])
    {
      hide Agree, Fresh, Lists;
      AgreePush(log, full, now, k, now);
      Resized(log, k, At(log, k) + [now]);
      ListsSize(order, log);
      JustNow(At(log, k), now);
      OldestIsNotNewest(order, log, k);
      full := full[k := At(full, k) + [now]];
      Put(k, At(log, k) + [now]);
      Trim(now);
    }

    /** The tail of a recording: sweep a large log, then cap it. */
    method Trim(now: real)
      requires Faithful() && Ordered() && clock == now && |log| <= MAX_KEYS + 1
      modifies this`log, this`order
      ensures Ordered() && |log| <= MAX_KEYS && log.Keys <= old(log).Keys
      ensures |old(log)| <= MAX_KEYS ==> Faithful()
      ensures forall x | x in old(log) && x !in log ::
                Fresh(old(log)[x], now) == [] || (|old(log)| > MAX_KEYS && old(order) != [] && x == old(order)[0])
    {
      hide Agree, Fresh, Lists;
      ListsSize(order, log);
      if |log| > SWEEP_AT { Sweep(now); }
      ListsSize(order, log);
      ghost var oldest := Evict();
    }

    /** `_account_reconnect_budget_ok`: the answer is that of the complete history. */
    method ReconnectOk(k: string, limit: Option<int>, now: real) returns (ok: bool)
      requires Faithful() && Ordered() && clock <= now && |log| <= MAX_KEYS
      modifies this
      ensures Ordered() && ok == Allowed(At(old(full), k), limit, now)
      ensures At(full, k) == Recorded(At(old(full), k), limit, now)
      ensures forall x | x != k :: At(full, x) == At(old(full), x)
      ensures clock == now && |log| <= MAX_KEYS && log.Keys <= old(log).Keys + {k}
      ensures |old(log)| < MAX_KEYS || k in old(log) ==> Faithful()
    {
      hide Agree, Fresh, Lists;
      Tick(now);
      if limit.None? { return true; }
      if limit.value < 0 { return false; }
      var attempts := FreshTimes(k, now);
      if |attempts| >= limit.value { return false; }
      Record(k, now);
      return true;
    }

    /** `_auth_rate_ok`; a source without an address is never throttled. */
    method AuthRateOk(k: Option<string>, now: real) returns (ok: bool)
      requires Faithful() && Ordered() && clock <= now
      modifies this`log, this`order, this`clock
      ensures ok == (k.None? || Allowed(At(full, k.value), Some(AUTH_FAIL_MAX), now))
      ensures Faithful() && Ordered() && |log| <= |old(log)|
    {
      hide Agree, Fresh, Lists;
      Tick(now);
      if k.None? { return true; }
      var recent := FreshTimes(k.value, now);
      return |recent| < AUTH_FAIL_MAX;
    }

    /** `_record_auth_fail` */
    method RecordAuthFail(k: Option<string>, now: real)
      requires Faithful() && Ordered() && clock <= now && |log| <= MAX_KEYS
      modifies this
      ensures Ordered() && full == if k.None? then old(full) else old(full)[k.value := At(old(full), k.value) + [now]]
      ensures clock == now && |log| <= MAX_KEYS && (|old(log)| < MAX_KEYS ==> Faithful())
      ensures forall x | x in old(log) && x !in log ::
                Fresh(old(log)[x], now) == [] || (|old(log)| == MAX_KEYS && old(order) != [] && x == old(order)[0])
    {
      hide Agree, Fresh, Lists;
      Tick(now);
      if k.Some? { Record(k.value, now); }
    }

    /** Any sequence of reconnects, by at most as many accounts as there is room for: each answer
        is that of the account's complete history, and no window of a minute, wherever it starts,
        holds more of an account's recorded reconnects than the greatest limit it was under. */
    method ReconnectAll(calls: seq<Call>) returns (answers: seq<bool>)
      requires Faithful() && Ordered() && log == map[] && full == map[]
      requires forall i | 0 <= i < |calls| :: clock <= calls[i].at
      requires forall i, j | 0 <= i < j < |calls| :: calls[i].at <= calls[j].at
      requires |KeysOf(calls)| <= MAX_KEYS
      modifies this
      ensures |answers| == |calls| && forall i | 0 <= i < |calls| :: Answers(calls, i, answers[i])
      ensures Tallied(full, calls) && WithinLimits(full, calls)
    {
      hide Agree, Fresh, Lists, KeysOf, Answers, Tallied, WithinLimits;
      NoCalls();
      answers := [];
      for i := 0 to |calls|
        invariant Serving(calls, i)
        invariant |answers| == i && forall j | 0 <= j < i :: Answers(calls, j, answers[j])
      {
        var ok := ReconnectNext(calls, i);
        answers := answers + [ok];
      }
      assert calls[..|calls|] == calls;
      TalliedIsWithin(full, calls);
    }

    /** Between calls, with `i` of them served. */
    ghost predicate Serving(calls: seq<Call>, i: nat)
      requires i <= |calls|
      reads this
    {
      && Faithful() && Ordered() && |log| <= MAX_KEYS && log.Keys <= KeysOf(calls[..i])
      && (i < |calls| ==> clock <= calls[i].at)
      && Tallied(full, calls[..i])
    }

    method ReconnectNext(calls: seq<Call>, i: nat) returns (ok: bool)
      requires i < |calls| && Serving(calls, i) && |KeysOf(calls)| <= MAX_KEYS
      requires i + 1 < |calls| ==> calls[i].at <= calls[i + 1].at
      modifies this
      ensures Serving(calls, i + 1) && Answers(calls, i, ok)
    {
      hide Agree, Fresh, Lists, KeysOf, Answers, Tallied, Allowed, Recorded;
      var c := calls[i];
      RoomFor(calls, i, log);
      KeysMore(calls, i);
      ghost var before := full;
      ok := ReconnectOk(c.key, c.limit, c.at);
      TallyOne(before, full, calls, i, ok);
    }
  }

  /** Answer `i` is that of the account's complete history before it. */
  predicate Answers(calls: seq<Call>, i: nat, answer: bool)
    requires i < |calls|
  {
    answer == Allowed(History(AttemptsOf(calls[..i], calls[i].key)), calls[i].limit, calls[i].at)
  }

  /** What has been recorded is each account's complete history. */
  ghost predicate Tallied(full: Log, calls: seq<Call>) {
    forall k: string :: At(full, k) == History(AttemptsOf(calls, k))
  }

  /** No window of a minute holds more than the greatest limit the account was under. */
  ghost predicate WithinLimits(full: Log, calls: seq<Call>) {
    forall k: string, most: nat, from: real | LimitsWithin(calls, k, most) :: |InWindow(At(full, k), from)| <= most
  }

  lemma TallyOne(before: Log, after: Log, calls: seq<Call>, i: nat, ok: bool)
    requires i < |calls| && Tallied(before, calls[..i])
    requires var c := calls[i];
             && ok == Allowed(At(before, c.key), c.limit, c.at)
             && At(after, c.key) == Recorded(At(before, c.key), c.limit, c.at)
             && forall x | x != c.key :: At(after, x) == At(before, x)
    ensures Tallied(after, calls[..i + 1]) && Answers(calls, i, ok)
  {
    hide Allowed, Recorded, History, AttemptsOf, At;
    forall k: string ensures At(after, k) == History(AttemptsOf(calls[..i + 1], k)) {
      TalliedAt(before, calls[..i], k);
      OneCall(calls, i, k);
    }
    TalliedAt(before, calls[..i], calls[i].key);
  }

  lemma TalliedAt(full: Log, calls: seq<Call>, k: string)
    requires Tallied(full, calls)
    ensures At(full, k) == History(AttemptsOf(calls, k))
  {
    hide History, AttemptsOf, At;
  }

  lemma TalliedIsWithin(full: Log, calls: seq<Call>)
    requires Tallied(full, calls)
    ensures WithinLimits(full, calls)
  {
    hide History, AttemptsOf, At, InWindow, LimitsWithin;
    forall k: string, most: nat, from: real | LimitsWithin(calls, k, most) ensures |InWindow(At(full, k), from)| <= most {
      TalliedAt(full, calls, k);
      AttemptsWithin(calls, k, most);
      WindowBound(AttemptsOf(calls, k), most, from);
    }
  }

  datatype Call = Call(key: string, limit: Option<int>, at: real)

  function KeysOf(calls: seq<Call>): set<string> { set i | 0 <= i < |calls| :: calls[i].key }

  /** One account's attempts, in order. */
  function AttemptsOf(calls: seq<Call>, k: string): seq<Attempt> {
    if calls == [] then []
    else
      var c := calls[|calls| - 1];
      AttemptsOf(calls[..|calls| - 1], k) + if c.key == k then [Attempt(c.limit, c.at)] else []
  }

  predicate LimitsWithin(calls: seq<Call>, k: string, most: nat) {
    forall i | 0 <= i < |calls| && calls[i].key == k && calls[i].limit.Some? :: calls[i].limit.value <= most
  }

  lemma {:induction false} AttemptsWithin(calls: seq<Call>, k: string, most: nat)
    requires LimitsWithin(calls, k, most)
    ensures forall i | 0 <= i < |AttemptsOf(calls, k)| && AttemptsOf(calls, k)[i].limit.Some? ::
              AttemptsOf(calls, k)[i].limit.value <= most
    decreases |calls|
  {
    if calls != [] { AttemptsWithin(calls[..|calls| - 1], k, most); }
  }

  lemma OneCall(calls: seq<Call>, i: nat, k: string)
    requires i < |calls|
    ensures History(AttemptsOf(calls[..i + 1], k)) ==
              if calls[i].key == k then Recorded(History(AttemptsOf(calls[..i], k)), calls[i].limit, calls[i].at)
              else History(AttemptsOf(calls[..i], k))
  {
    hide Recorded;
    assert calls[..i + 1][..i] == calls[..i];
    var before := AttemptsOf(calls[..i], k);
    assert before + [] == before;
    if calls[i].key == k {
      var a := Attempt(calls[i].limit, calls[i].at);
      assert (before + [a])[..|before|] == before;
    }
  }

  lemma KeysMore(calls: seq<Call>, i: nat)
    requires i < |calls|
    ensures KeysOf(calls[..i + 1]) == KeysOf(calls[..i]) + {calls[i].key}
  {
    assert calls[..i + 1][i] == calls[i];
    forall k | k in KeysOf(calls[..i]) ensures k in KeysOf(calls[..i + 1]) {
      var j :| 0 <= j < i && calls[..i][j].key == k;
      assert calls[..i + 1][j].key == k;
    }
  }

  lemma NoCalls()
    ensures KeysOf([]) == {} && Tallied(map[], [])
  {
  }

  /** There is room for the next account, or it is already held. */
  lemma RoomFor(calls: seq<Call>, i: nat, log: Log)
    requires i < |calls| && log.Keys <= KeysOf(calls[..i]) && |KeysOf(calls)| <= MAX_KEYS
    ensures |log| < MAX_KEYS || calls[i].key in log
  {
    if calls[i].key !in log {
      forall k | k in KeysOf(calls[..i]) ensures k in KeysOf(calls) {
        var j :| 0 <= j < i && calls[..i][j].key == k;
        assert calls[j].key == k;
      }
      assert calls[i].key in KeysOf(calls);
      Fewer(log.Keys + {calls[i].key}, KeysOf(calls));
      assert |log.Keys| == |log|;
    }
  }

  lemma {:induction false} Fewer(a: set<string>, b: set<string>)
    requires a <= b
    ensures |a| <= |b|
    decreases |a|
  {
    if a != {} {
      var x :| x in a;
      Fewer(a - {x}, b - {x});
    }
  }

  lemma JustNow(ts: seq<real>, now: real)
    ensures Fresh(ts + [now], now) != []
  {
    FreshPush(ts, now, now);
  }

  /** A key put last is not the oldest, unless it is the only one. */
  lemma OldestIsNotNewest(order: seq<string>, log: Log, k: string)
    requires Lists(order, log)
    ensures k !in log && order != [] ==> (order + [k])[0] != k
  {
  }

  lemma Resized(log: Log, k: string, ts: seq<real>)
    ensures |log - {k}| == |log| - if k in log then 1 else 0
    ensures |log[k := ts]| == |log| + if k in log then 0 else 1
  {
    assert (log - {k}).Keys == log.Keys - {k} && log[k := ts].Keys == log.Keys + {k};
    assert |log.Keys| == |log| && |(log - {k}).Keys| == |log - {k}| && |log[k := ts].Keys| == |log[k := ts]|;
  }
}
