/** The relay's reverse indexes: for each key, the labels whose registration has it, and no
    entry for a key without labels. */
module RelayIndex {
  import opened Wire
  import opened RelaySpec
  import opened RelayInvariant
  import opened RelayHistory

  type LabelIndex = map<string, set<Label>>

  datatype Key = ByAccount | ByLease

  function KeyOf(r: Registration, k: Key): string { if k == ByAccount then r.account else r.lease }

  /** The scan an index stands for. */
  function Having(regs: seq<Registration>, m: map<Label, nat>, k: Key, x: string): set<Label> {
    set l | l in m && m[l] < |regs| && KeyOf(regs[m[l]], k) == x
  }

  function At(idx: LabelIndex, x: string): set<Label> { if x in idx then idx[x] else {} }

  ghost predicate Index(idx: LabelIndex, regs: seq<Registration>, m: map<Label, nat>, k: Key) {
    && (forall x: string :: At(idx, x) == Having(regs, m, k, x))
    && (forall x | x in idx :: idx[x] != {})
  }

  lemma HavingIs(regs: seq<Registration>, m: map<Label, nat>, x: string)
    ensures Having(regs, m, ByAccount, x) == OfAccount(regs, m, x)
    ensures Having(regs, m, ByLease, x) == OfLease(regs, m, x)
  {
  }

  /** `index.setdefault(x, set()).add(l)` */
  function WithLabel(idx: LabelIndex, x: string, l: Label): LabelIndex { idx[x := At(idx, x) + {l}] }

  /** Discard the label, and the entry with it when that was the last. */
  function WithoutLabel(idx: LabelIndex, x: string, l: Label): LabelIndex {
    if x !in idx then idx
    else if idx[x] - {l} == {} then idx - {x}
    else idx[x := idx[x] - {l}]
  }

  lemma IndexAdd(idx: LabelIndex, regs: seq<Registration>, m: map<Label, nat>, k: Key, l: Label, h: nat)
    requires Index(idx, regs, m, k) && l !in m && h < |regs|
    ensures Index(WithLabel(idx, KeyOf(regs[h], k), l), regs, m[l := h], k)
  {
    var x := KeyOf(regs[h], k);
    forall y: string ensures At(WithLabel(idx, x, l), y) == Having(regs, m[l := h], k, y) {
      assert At(idx, y) == Having(regs, m, k, y);
      HavingAdd(regs, m, k, l, h, y);
    }
  }

  lemma HavingAdd(regs: seq<Registration>, m: map<Label, nat>, k: Key, l: Label, h: nat, y: string)
    requires l !in m && h < |regs|
    ensures Having(regs, m[l := h], k, y) == Having(regs, m, k, y) + if KeyOf(regs[h], k) == y then {l} else {}
  {
  }

  lemma HavingMinus(regs: seq<Registration>, m: map<Label, nat>, k: Key, l: Label, y: string)
    requires l in m && m[l] < |regs|
    ensures Having(regs, m - {l}, k, y) == Having(regs, m, k, y) - {l}
    ensures KeyOf(regs[m[l]], k) != y ==> l !in Having(regs, m, k, y)
  {
  }

  lemma IndexRemove(idx: LabelIndex, regs: seq<Registration>, m: map<Label, nat>, k: Key, l: Label)
    requires Index(idx, regs, m, k) && l in m && m[l] < |regs|
    ensures Index(WithoutLabel(idx, KeyOf(regs[m[l]], k), l), regs, m - {l}, k)
  {
    var x := KeyOf(regs[m[l]], k);
    var idx' := WithoutLabel(idx, x, l);
    forall y: string ensures At(idx', y) == Having(regs, m - {l}, k, y) {
      assert At(idx, y) == Having(regs, m, k, y);
      HavingMinus(regs, m, k, l, y);
    }
  }

  /** A label handed to a registration with the same key. */
  lemma IndexSwap(idx: LabelIndex, regs: seq<Registration>, m: map<Label, nat>, k: Key, l: Label, h: nat)
    requires Index(idx, regs, m, k) && l in m && m[l] < |regs| && h < |regs| && KeyOf(regs[m[l]], k) == KeyOf(regs[h], k)
    ensures Index(WithLabel(idx, KeyOf(regs[h], k), l), regs, m[l := h], k)
  {
    var x := KeyOf(regs[h], k);
    forall y: string ensures At(WithLabel(idx, x, l), y) == Having(regs, m[l := h], k, y) {
      assert At(idx, y) == Having(regs, m, k, y);
      HavingSwap(regs, m, k, l, h, y);
    }
  }

  /** A label handed to a registration with any key. */
  lemma IndexMove(idx: LabelIndex, regs: seq<Registration>, m: map<Label, nat>, k: Key, l: Label, h: nat)
    requires Index(idx, regs, m, k) && l in m && m[l] < |regs| && h < |regs|
    ensures Index(WithLabel(WithoutLabel(idx, KeyOf(regs[m[l]], k), l), KeyOf(regs[h], k), l), regs, m[l := h], k)
  {
    IndexRemove(idx, regs, m, k, l);
    IndexAdd(WithoutLabel(idx, KeyOf(regs[m[l]], k), l), regs, m - {l}, k, l, h);
    assert (m - {l})[l := h] == m[l := h];
  }

  lemma HavingSwap(regs: seq<Registration>, m: map<Label, nat>, k: Key, l: Label, h: nat, y: string)
    requires l in m && m[l] < |regs| && h < |regs| && KeyOf(regs[m[l]], k) == KeyOf(regs[h], k)
    ensures Having(regs, m[l := h], k, y) == Having(regs, m, k, y)
    ensures KeyOf(regs[h], k) == y <==> l in Having(regs, m, k, y)
  {
  }

  /** Registrations keep their keys. */
  lemma IndexSame(idx: LabelIndex, regs: seq<Registration>, regs': seq<Registration>, m: map<Label, nat>, k: Key)
    requires Index(idx, regs, m, k) && AllEvolve(regs, regs') && forall l | l in m :: m[l] < |regs|
    ensures Index(idx, regs', m, k)
  {
    forall y: string ensures At(idx, y) == Having(regs', m, k, y) {
      HavingSame(regs, regs', m, k, y);
    }
  }

  lemma HavingSame(regs: seq<Registration>, regs': seq<Registration>, m: map<Label, nat>, k: Key, y: string)
    requires AllEvolve(regs, regs') && forall l | l in m :: m[l] < |regs|
    ensures Having(regs', m, k, y) == Having(regs, m, k, y)
  {
    forall l | l in m ensures KeyOf(regs'[m[l]], k) == KeyOf(regs[m[l]], k) {
      assert Evolves(regs[m[l]], regs'[m[l]]);
    }
  }

  /** Looking a key up finds what a scan of the whole registry finds. */
  lemma LookupIsScan(idx: LabelIndex, regs: seq<Registration>, m: map<Label, nat>, k: Key, x: string)
    requires Index(idx, regs, m, k)
    ensures At(idx, x) == Having(regs, m, k, x)
    ensures x in idx <==> Having(regs, m, k, x) != {}
  {
    assert At(idx, x) == Having(regs, m, k, x);
  }

  // -- retiring one registration after the others

  lemma MinusNone<V>(m: map<string, V>)
    ensures m - {} == m
  {
  }

  lemma MinusTwice<V>(m: map<string, V>, s: set<string>, t: set<string>)
    ensures (m - s) - t == m - (s + t)
  {
  }

  lemma TidiedNone(c: State)
    ensures Tidied(c, {}) == c
  {
    hide HasWork;
    MinusNone(c.overrides);
    MinusNone(c.schedules);
    assert (set a: Account | a in {} && !HasWork(c, a)) == {};
  }

  lemma RetireNone(c: State)
    ensures RetireAll(c, {}) == c && CancelAll(c, {}) == c
  {
    hide Tidied;
    DetachShape(c, {});
    CancelAllShape(c, {});
    MinusNone(c.agents);
    MinusNone(c.pending);
    assert Detach(c, {}).regs == c.regs && CancelAll(c, {}).regs == c.regs;
    assert {} * c.agents.Keys == {} && {} * c.pending.Keys == {};
    assert AccountsAt(c, {}) == {};
    TidiedNone(c);
  }

  function Idle(c: State, accounts: set<Account>): set<Account> { set a | a in accounts && !HasWork(c, a) }

  lemma IdleTwice(c: State, freed: State, some: set<Account>, a: Account)
    requires forall x | x in some && x != a :: HasWork(freed, x) == HasWork(c, x)
    requires HasWork(freed, a) ==> HasWork(c, a)
    ensures Idle(c, some) + Idle(freed, {a}) == Idle(freed, some + {a})
  {
    hide HasWork;
  }

  /** Tidying in steps, while the work of an account only shrinks, forgets the accounts that are
      idle at the end. */
  lemma TidyTwice(c: State, freed: State, some: set<Account>, a: Account)
    requires forall x | x in some && x != a :: HasWork(freed, x) == HasWork(c, x)
    requires HasWork(freed, a) ==> HasWork(c, a)
    ensures var mid := freed.(overrides := freed.overrides - Idle(c, some), schedules := freed.schedules - Idle(c, some));
            DropIfIdle(mid, a) == Tidied(freed, some + {a})
  {
    hide HasWork;
    var mid := freed.(overrides := freed.overrides - Idle(c, some), schedules := freed.schedules - Idle(c, some));
    IdleTwice(c, freed, some, a);
    WorkIsWork(freed, mid, a);
    assert Idle(mid, {a}) == Idle(freed, {a});
    MinusTwice(freed.overrides, Idle(c, some), Idle(freed, {a}));
    MinusTwice(freed.schedules, Idle(c, some), Idle(freed, {a}));
  }

  lemma WorkIsWork(c: State, d: State, x: Account)
    requires d == c.(overrides := d.overrides, schedules := d.schedules)
    ensures HasWork(d, x) == HasWork(c, x)
  {
  }

  lemma DropCounts(c: State, n: nat, a: Account)
    ensures DropIfIdle(c.(revocations := n), a) == DropIfIdle(c, a).(revocations := n)
  {
    hide HasWork;
    assert HasWork(c.(revocations := n), a) == HasWork(c, a) by { CountIsNoWork(c, n, a); }
  }

  lemma CountIsNoWork(c: State, n: nat, a: Account)
    ensures HasWork(c.(revocations := n), a) == HasWork(c, a)
  {
  }

  lemma DetachMore(c: State, done: set<Label>, l: Label)
    requires l in c.agents && c.agents[l] < |c.regs| && c.regs[c.agents[l]].subdomain == l && l !in done && done <= c.agents.Keys
    ensures var d, h := Detach(c, done), c.agents[l];
            && h < |d.regs| && d.regs[h] == c.regs[h]
            && Detach(c, done + {l}) == d.(regs := d.regs[h := d.regs[h].(accepting := false)], agents := d.agents - {l},
                                           revocations := d.revocations + 1)
  {
    hide Detach;
    DetachShape(c, done);
    DetachShape(c, done + {l});
    var d, e, h := Detach(c, done), Detach(c, done + {l}), c.agents[l];
    assert e.regs == d.regs[h := d.regs[h].(accepting := false)];
    assert c.agents - (done + {l}) == (c.agents - done) - {l};
    assert done * c.agents.Keys == done && (done + {l}) * c.agents.Keys == done + {l};
  }

  /** One label less, of another account. */
  lemma OneLess(d: State, h: nat, l: Label, x: Account)
    requires h < |d.regs| && Holds(d.agents, l, h)
    ensures var e := d.(regs := d.regs[h := d.regs[h].(accepting := false)], agents := d.agents - {l}, revocations := d.revocations + 1);
            && (x != d.regs[h].account ==> HasWork(e, x) == HasWork(d, x))
            && (x == d.regs[h].account ==> HasWork(d, x))
  {
    var e := d.(regs := d.regs[h := d.regs[h].(accepting := false)], agents := d.agents - {l}, revocations := d.revocations + 1);
    assert OfAccount(e.regs, e.pending, x) == OfAccount(d.regs, d.pending, x);
    if x != d.regs[h].account {
      assert OfAccount(e.regs, e.agents, x) == OfAccount(d.regs, d.agents, x);
    } else {
      assert l in OfAccount(d.regs, d.agents, x);
    }
  }

  lemma AccountsMore(c: State, done: set<Label>, l: Label)
    requires l in c.agents && c.agents[l] < |c.regs|
    ensures AccountsAt(c, done + {l}) == AccountsAt(c, done) + {c.regs[c.agents[l]].account}
  {
  }

  lemma TidiedIs(c: State, accounts: set<Account>)
    ensures Tidied(c, accounts)
         == c.(overrides := c.overrides - Idle(c, accounts), schedules := c.schedules - Idle(c, accounts))
  {
    hide HasWork;
  }

  lemma RetireIs(c: State, h: nat)
    requires Current(c, h)
    ensures var l := c.regs[h].subdomain;
            var s := DropIfIdle(c.(regs := c.regs[h := c.regs[h].(accepting := false)], agents := c.agents - {l}), c.regs[h].account);
            Retire(c, h, Revoked) == s.(revocations := s.revocations + 1)
  {
    hide Tidied;
  }

  /** Retiring one more of `c`'s tunnels, after those at `done`. */
  lemma RetireOneMore(c: State, done: set<Label>, l: Label)
    requires l in c.agents && c.agents[l] < |c.regs| && c.regs[c.agents[l]].subdomain == l && l !in done && done <= c.agents.Keys
    ensures |RetireAll(c, done).regs| == |c.regs|
    ensures Retire(RetireAll(c, done), c.agents[l], Revoked) == RetireAll(c, done + {l})
  {
    hide HasWork, Tidied, Detach, AccountsAt, Idle, DropIfIdle;
    var h, a := c.agents[l], c.regs[c.agents[l]].account;
    var d, e, some := Detach(c, done), Detach(c, done + {l}), AccountsAt(c, done);
    DetachShape(c, done);
    DetachMore(c, done, l);
    AccountsMore(c, done, l);
    forall x: Account ensures (x != a ==> HasWork(e, x) == HasWork(d, x)) && HasWork(d, a) { OneLess(d, h, l, x); OneLess(d, h, l, a); }
    TidyTwice(d, e, some, a);
    TidiedIs(d, some);
    var mid := e.(overrides := e.overrides - Idle(d, some), schedules := e.schedules - Idle(d, some));
    DropCounts(mid, d.revocations, a);
    TidiedShape(e, some + {a});
    RetireIs(RetireAll(c, done), h);
    var r := RetireAll(c, done);
    assert r.(regs := r.regs[h := r.regs[h].(accepting := false)], agents := r.agents - {l}) == mid.(revocations := d.revocations);
  }

  /** Cancelling one more pending slot. */
  lemma CancelOneMore(c: State, done: set<Label>, l: Label)
    requires l in c.pending && c.pending[l] < |c.regs| && c.regs[c.pending[l]].subdomain == l && l !in done && done <= c.pending.Keys
    ensures var d, h := CancelAll(c, done), c.pending[l];
            && h < |d.regs| && Pending(d, h) && d.regs[h] == c.regs[h]
            && CancelAll(c, done + {l}) == d.(regs := d.regs[h := d.regs[h].(accepting := false)], pending := d.pending - {l},
                                              revocations := d.revocations + 1)
  {
    hide CancelAll;
    CancelAllShape(c, done);
    CancelAllShape(c, done + {l});
    var d, e, h := CancelAll(c, done), CancelAll(c, done + {l}), c.pending[l];
    assert e.regs == d.regs[h := d.regs[h].(accepting := false)];
    assert c.pending - (done + {l}) == (c.pending - done) - {l};
    assert done * c.pending.Keys == done && (done + {l}) * c.pending.Keys == done + {l};
  }
}
