/** Counting what a block changed in storage, from one state diff per transaction. */
module StorageDiff {
  import opened Options
  import opened Uint64
  import opened BlockStats

  type Account = string
  type Slot = string
  type Storage = map<Slot, string>
  type State = map<Account, Storage>

  /** What one transaction saw and left: only storage matters to the counts. */
  datatype StorageTrace = StorageTrace(pre: State, post: State)

  // ---------- Specification ----------

  /** The (account, slot) pairs of a state. */
  function Slots(s: State): set<(Account, Slot)> {
    set a, k | a in s && k in s[a] :: (a, k)
  }

  /** The accounts that own a set of pairs. */
  function Accounts(ps: set<(Account, Slot)>): set<Account> { set p | p in ps :: p.0 }

  /** The pairs in the pre or the post state of any transaction. */
  function TouchedSlots(ts: seq<StorageTrace>): set<(Account, Slot)> {
    if ts == [] then {}
    else TouchedSlots(ts[..|ts| - 1]) + Slots(ts[|ts| - 1].pre) + Slots(ts[|ts| - 1].post)
  }

  function TouchedTries(ts: seq<StorageTrace>): set<Account> {
    Accounts(TouchedSlots(ts))
  }

  /** The accounts in the post state of any transaction. */
  function PostAccounts(ts: seq<StorageTrace>): set<Account> {
    if ts == [] then {} else PostAccounts(ts[..|ts| - 1]) + ts[|ts| - 1].post.Keys
  }

  // ---------- States as maps of maps ----------

  /** Reading a missing account gives the zero value, whose storage is empty. */
  function Get(s: State, a: Account): Storage {
    if a in s then s[a] else map[]
  }

  /** Both states merged, the second one winning. */
  function Merge(s: State, t: State): State {
    map a | a in s.Keys + t.Keys :: Get(s, a) + Get(t, a)
  }

  /** What is left of each account's storage when the slots of `t` are taken out. */
  function Minus(s: State, t: State): State {
    map a | a in s :: s[a] - Get(t, a).Keys
  }

  /** The accounts with at least one slot. */
  function Tries(s: State): set<Account> {
    set a | a in s && s[a] != map[]
  }

  lemma SlotsOfMerge(s: State, t: State)
    ensures Slots(Merge(s, t)) == Slots(s) + Slots(t)
    ensures Merge(s, t).Keys == s.Keys + t.Keys
  {
    forall a, k
      ensures (a, k) in Slots(Merge(s, t)) <==> (a, k) in Slots(s) + Slots(t)
    {
      assert (a, k) in Slots(Merge(s, t)) <==> k in Get(s, a) + Get(t, a);
    }
  }

  /** One more slot copied from `from`, of which `todo` is not copied yet. */
  lemma CopyOne<K, V>(base: map<K, V>, from: map<K, V>, todo: set<K>, k: K)
    requires k in todo && todo <= from.Keys
    ensures base + (from - (todo - {k})) == (base + (from - todo))[k := from[k]]
    ensures base + (from - from.Keys) == base
    ensures from - {} == from
  {
  }

  /** One more account merged from `from`, of which `todo` is not merged yet. */
  lemma MergeOne(merged: State, from: State, todo: set<Account>, a: Account)
    requires a in todo && todo <= from.Keys
    ensures var m := Merge(merged, from - todo);
            Merge(merged, from - (todo - {a})) == m[a := Get(m, a) + from[a]]
  {
    var m := Merge(merged, from - todo);
    assert Get(m, a) == Get(merged, a) + map[] == Get(merged, a);
    forall b | b in merged.Keys + from.Keys && b != a
      ensures Get(from - todo, b) == Get(from - (todo - {a}), b)
    {
    }
  }

  lemma MergeNone(merged: State, from: State)
    ensures Merge(merged, from - from.Keys) == merged && from - {} == from
  {
    forall a | a in merged
      ensures Get(merged, a) + Get(from - from.Keys, a) == merged[a]
    {
    }
  }

  lemma SlotsOfMinus(s: State, t: State)
    ensures Slots(Minus(s, t)) == Slots(s) - Slots(t)
  {
  }

  /** The accounts that own some pair. */
  lemma TriesOwnSlots(s: State)
    ensures Tries(s) == Accounts(Slots(s))
  {
    forall a | a in Tries(s)
      ensures exists p :: p in Slots(s) && p.0 == a
    {
      var k :| k in s[a];
      assert (a, k) in Slots(s);
    }
  }

  lemma {:induction false} PairsSize(a: Account, ks: set<Slot>)
    ensures |set k | k in ks :: (a, k)| == |ks|
  {
    var ps := set k | k in ks :: (a, k);
    if ks == {} {
      assert ps == {};
    } else {
      var k :| k in ks;
      PairsSize(a, ks - {k});
      assert ps == (set k' | k' in ks - {k} :: (a, k')) + {(a, k)};
    }
  }

  lemma SlotsSplit(s: State, a: Account, own: set<(Account, Slot)>)
    requires a in s && own == set k | k in s[a].Keys :: (a, k)
    ensures Slots(s) == Slots(s - {a}) + own && Slots(s - {a}) !! own
  {
    forall b, k
      ensures (b, k) in Slots(s) <==> (b, k) in Slots(s - {a}) + own
      ensures !((b, k) in Slots(s - {a}) && (b, k) in own)
    {
      assert (b, k) in own <==> b == a && k in s[a];
      assert (b, k) in Slots(s - {a}) <==> b in s && b != a && k in s[b];
    }
  }

  lemma DisjointSize<T>(p: set<T>, q: set<T>)
    requires p !! q
    ensures |p + q| == |p| + |q|
  {
  }

  /** Taking one account out of a state takes its slots out of the count. */
  lemma SlotsSize(s: State, a: Account)
    requires a in s
    ensures |Slots(s)| == |Slots(s - {a})| + |s[a]|
  {
    var own := set k | k in s[a].Keys :: (a, k);
    PairsSize(a, s[a].Keys);
    SlotsSplit(s, a, own);
    DisjointSize(Slots(s - {a}), own);
  }

  // ---------- Merging ----------

  /** Add one account's storage to the merged state, slot by slot. */
  method MergeAccount(merged: State, account: Account, storage: Storage) returns (m: State)
    ensures m == merged[account := Get(merged, account) + storage]
  {
    m := merged;
    if account !in m {
      m := m[account := map[]];
    }
    ghost var base := Get(merged, account);
    var todo := storage.Keys;
    assert base + (storage - todo) == base;
    while todo != {}
      invariant todo <= storage.Keys
      invariant m == merged[account := base + (storage - todo)]
      decreases todo
    {
      var slot :| slot in todo;
      CopyOne(base, storage, todo, slot);
      todo := todo - {slot};
      m := m[account := m[account][slot := storage[slot]]];
    }
    assert storage - {} == storage;
  }

  /** Add one state to the merged state, account by account. */
  method MergeState(merged: State, state: State) returns (m: State)
    ensures m == Merge(merged, state)
  {
    m := merged;
    var todo := state.Keys;
    MergeNone(merged, state);
    while todo != {}
      invariant todo <= state.Keys
      invariant m == Merge(merged, state - todo)
      decreases todo
    {
      var account :| account in todo;
      MergeOne(merged, state, todo, account);
      m := MergeAccount(m, account, state[account]);
      todo := todo - {account};
    }
  }

  lemma Regroup<T>(p: set<T>, p': set<T>, q: set<T>, q': set<T>)
    ensures p + p' + (q + q') == p + q + p' + q'
  {
  }

  /** All transactions' states merged: between them they hold every touched slot. */
  method MergeTraces(ts: seq<StorageTrace>) returns (pre: State, post: State)
    ensures Slots(pre) + Slots(post) == TouchedSlots(ts)
    ensures post.Keys == PostAccounts(ts)
  {
    pre, post := map[], map[];
    var i := 0;
    while i < |ts|
      invariant 0 <= i <= |ts|
      invariant Slots(pre) + Slots(post) == TouchedSlots(ts[..i])
      invariant post.Keys == PostAccounts(ts[..i])
    {
      ghost var p, q := Slots(pre), Slots(post);
      SlotsOfMerge(pre, ts[i].pre);
      SlotsOfMerge(post, ts[i].post);
      pre := MergeState(pre, ts[i].pre);
      post := MergeState(post, ts[i].post);
      assert ts[..i + 1][..i] == ts[..i];
      Regroup(p, Slots(ts[i].pre), q, Slots(ts[i].post));
      i := i + 1;
    }
    assert ts[..i] == ts;
  }

  // ---------- Counting ----------

  /** How many of the slots no longer in `todo` are deleted ones. */
  ghost function Deleted(slots: set<Slot>, kept: set<Slot>, todo: set<Slot>): nat {
    |slots - todo - kept|
  }

  lemma DeletedNone(slots: set<Slot>, kept: set<Slot>)
    ensures Deleted(slots, kept, slots) == 0
    ensures Deleted(slots, kept, {}) == |slots - kept|
  {
    assert slots - slots - kept == {} && slots - {} == slots;
  }

  lemma DeletedOne(slots: set<Slot>, kept: set<Slot>, todo: set<Slot>, k: Slot)
    requires k in todo && todo <= slots
    ensures Deleted(slots, kept, todo - {k}) == Deleted(slots, kept, todo) + if k in kept then 0 else 1
  {
    var before, after := slots - todo - kept, slots - (todo - {k}) - kept;
    assert after == before + if k in kept then {} else {k};
  }

  /** Count one slot if its account's post state no longer has it. The counter is
      unsigned; `n` is the number it has wrapped around from. */
  method CountSlot(account: Account, slot: Slot, post: State, s: TraceStats, tries: set<Account>, ghost n: nat)
    returns (tries': set<Account>, ghost n': nat)
    requires s.slotsChanged == Mod(n)
    modifies s`slotsChanged
    ensures s.slotsChanged == Mod(n')
    ensures if slot in Get(post, account) then n' == n && tries' == tries
            else n' == n + 1 && tries' == tries + {account}
  {
    tries', n' := tries, n;
    if account !in post || slot !in post[account] {
      ModAddU(n, 1);
      s.slotsChanged := Add64(s.slotsChanged, 1);
      tries', n' := tries + {account}, n + 1;
    }
  }

  /** Count the slots of one account that its post state no longer has. */
  method CountDeleted(account: Account, storage: Storage, post: State, s: TraceStats, tries: set<Account>,
                      ghost n: nat, ghost size: nat)
    returns (tries': set<Account>, ghost n': nat)
    requires s.slotsChanged == Mod(n)
    requires size == |storage.Keys - Get(post, account).Keys|
    modifies s`slotsChanged
    ensures s.slotsChanged == Mod(n') && n' == n + size
    ensures tries' == if size > 0 then tries + {account} else tries
  {
    tries', n' := tries, n;
    ghost var kept := Get(post, account).Keys;
    var todo := storage.Keys;
    DeletedNone(storage.Keys, kept);
    while todo != {}
      invariant todo <= storage.Keys
      invariant s.slotsChanged == Mod(n') && n' == n + Deleted(storage.Keys, kept, todo)
      invariant n' == n ==> tries' == tries
      invariant n' > n ==> tries' == tries + {account}
      decreases todo
    {
      var slot :| slot in todo;
      DeletedOne(storage.Keys, kept, todo, slot);
      tries', n' := CountSlot(account, slot, post, s, tries', n');
      todo := todo - {slot};
    }
  }

  /** The number of slots of the accounts in `todo`. */
  ghost function Left(s: State, todo: set<Account>): nat
    requires todo <= s.Keys
  {
    if todo == {} then 0
    else
      var a :| a in todo;
      |s[a]| + Left(s, todo - {a})
  }

  lemma {:induction false} LeftSplit(s: State, todo: set<Account>, a: Account)
    requires todo <= s.Keys && a in todo
    ensures Left(s, todo) == |s[a]| + Left(s, todo - {a})
    decreases todo
  {
    var b :| b in todo && Left(s, todo) == |s[b]| + Left(s, todo - {b});
    if a != b {
      LeftSplit(s, todo - {b}, a);
      LeftSplit(s, todo - {a}, b);
      assert todo - {b} - {a} == todo - {a} - {b};
    }
  }

  lemma {:induction false} LeftSame(s: State, t: State, todo: set<Account>)
    requires todo <= s.Keys && todo <= t.Keys && forall a :: a in todo ==> s[a] == t[a]
    ensures Left(s, todo) == Left(t, todo)
  {
    if todo != {} {
      var a :| a in todo;
      LeftSplit(s, todo, a);
      LeftSplit(t, todo, a);
      LeftSame(s, t, todo - {a});
    }
  }

  lemma {:induction false} LeftIsSlots(s: State)
    ensures Left(s, s.Keys) == |Slots(s)|
    decreases s.Keys
  {
    if s.Keys == {} {
      assert Slots(s) == {};
    } else {
      var a :| a in s;
      var t := s - {a};
      assert t.Keys == s.Keys - {a};
      LeftSplit(s, s.Keys, a);
      LeftSame(s, t, t.Keys);
      LeftIsSlots(t);
      SlotsSize(s, a);
    }
  }

  /** `tries` has grown from `tries0` by the accounts outside `todo` with at least one slot. */
  ghost predicate TriesGrown(s: State, todo: set<Account>, tries0: set<Account>, tries: set<Account>) {
    forall a :: a in tries <==> a in tries0 || (a in s && a !in todo && |s[a]| > 0)
  }

  lemma TriesGrownOne(s: State, todo: set<Account>, tries0: set<Account>, tries: set<Account>, a: Account)
    requires a in todo && todo <= s.Keys && TriesGrown(s, todo, tries0, tries)
    ensures TriesGrown(s, todo - {a}, tries0, if |s[a]| > 0 then tries + {a} else tries)
  {
  }

  lemma TriesGrownAll(s: State, tries0: set<Account>, tries: set<Account>)
    requires TriesGrown(s, {}, tries0, tries)
    ensures tries == tries0 + Tries(s)
  {
    assert forall a :: a in s ==> (|s[a]| > 0 <==> s[a] != map[]);
  }

  predicate DeletedAt(pre: State, post: State, deleted: State, a: Account)
    requires a in pre && a in deleted
  {
    |deleted[a]| == |pre[a].Keys - Get(post, a).Keys|
  }

  lemma MinusAt(pre: State, post: State, a: Account)
    requires a in pre
    ensures DeletedAt(pre, post, Minus(pre, post), a)
  {
    var left := Minus(pre, post)[a];
    assert left.Keys == pre[a].Keys - Get(post, a).Keys;
  }

  /** First loop: what the pre states had and the post states no longer have. */
  method CountPre(pre: State, post: State, s: TraceStats, ghost deleted: State)
    returns (tries: set<Account>, ghost n: nat)
    requires s.slotsChanged == 0
    requires deleted.Keys == pre.Keys
    requires forall a {:trigger DeletedAt(pre, post, deleted, a)} :: a in pre ==> DeletedAt(pre, post, deleted, a)
    modifies s`slotsChanged
    ensures s.slotsChanged == Mod(n) && n == |Slots(deleted)|
    ensures tries == Tries(deleted)
  {
    tries, n := {}, 0;
    var todo := pre.Keys;
    while todo != {}
      invariant todo <= deleted.Keys
      invariant s.slotsChanged == Mod(n) && n + Left(deleted, todo) == Left(deleted, deleted.Keys)
      invariant TriesGrown(deleted, todo, {}, tries)
      decreases todo
    {
      var address :| address in todo;
      LeftSplit(deleted, todo, address);
      TriesGrownOne(deleted, todo, {}, tries, address);
      assert DeletedAt(pre, post, deleted, address);
      tries, n := CountDeleted(address, pre[address], post, s, tries, n, |deleted[address]|);
      todo := todo - {address};
    }
    LeftIsSlots(deleted);
    TriesGrownAll(deleted, {}, tries);
  }

  method AddPostAccount(address: Account, storage: Storage, s: TraceStats, tries: set<Account>, ghost n: nat)
    returns (tries': set<Account>, ghost n': nat)
    requires s.slotsChanged == Mod(n)
    modifies s`slotsChanged
    ensures s.slotsChanged == Mod(n') && n' == n + |storage|
    ensures tries' == if |storage| > 0 then tries + {address} else tries
  {
    tries', n' := tries, n + |storage|;
    ModAdd(n, |storage|);
    s.slotsChanged := Add64(s.slotsChanged, Mod(|storage|));
    if |storage| > 0 {
      tries' := tries' + {address};
    }
  }

  /** Second loop: everything the post states have. */
  method CountPost(post: State, s: TraceStats, tries: set<Account>, ghost n: nat)
    returns (tries': set<Account>, ghost n': nat)
    requires s.slotsChanged == Mod(n)
    modifies s`slotsChanged
    ensures s.slotsChanged == Mod(n') && n' == n + |Slots(post)|
    ensures tries' == tries + Tries(post)
  {
    tries', n' := tries, n;
    var todo := post.Keys;
    while todo != {}
      invariant todo <= post.Keys
      invariant s.slotsChanged == Mod(n') && n' + Left(post, todo) == n + Left(post, post.Keys)
      invariant TriesGrown(post, todo, tries, tries')
      decreases todo
    {
      var address :| address in todo;
      LeftSplit(post, todo, address);
      TriesGrownOne(post, todo, tries, tries', address);
      tries', n' := AddPostAccount(address, post[address], s, tries', n');
      todo := todo - {address};
    }
    LeftIsSlots(post);
    TriesGrownAll(post, tries, tries');
  }

  /** Both loops: every slot of either merged state is counted once. */
  method CountSlots(pre: State, post: State, s: TraceStats) returns (tries: set<Account>, ghost n: nat)
    requires s.slotsChanged == 0
    modifies s`slotsChanged
    ensures s.slotsChanged == Mod(n) && n == |Slots(pre) + Slots(post)|
    ensures tries == Accounts(Slots(pre) + Slots(post))
  {
    forall a | a in pre ensures DeletedAt(pre, post, Minus(pre, post), a) {
      MinusAt(pre, post, a);
    }
    tries, n := CountPre(pre, post, s, Minus(pre, post));
    tries, n := CountPost(post, s, tries, n);
    CountsOfUnion(pre, post);
  }

  /** recordStorageChanges; None is a trace request that failed on every retry. */
  method RecordStorageChanges(traces: Option<seq<StorageTrace>>, s: TraceStats)
    modifies s
    ensures s.opCodes == old(s.opCodes)
    ensures traces.None? ==> unchanged(s)
    ensures traces.Some? ==>
      && s.slotsChanged == Mod(|TouchedSlots(traces.value)|)
      && s.storageTriesChanged == Mod(|TouchedTries(traces.value)|)
      && s.accountsChanged == Mod(|PostAccounts(traces.value)|)
  {
    if traces.None? {
      return;
    }
    var pre, post := MergeTraces(traces.value);
    KeysSize(post);
    s.accountsChanged := Mod(|post|);
    s.storageTriesChanged := 0;
    s.slotsChanged := 0;
    ghost var n: nat;
    var tries: set<Account>;
    tries, n := CountSlots(pre, post, s);
    s.storageTriesChanged := Mod(|tries|);
  }

  lemma KeysSize(s: State)
    ensures |s| == |s.Keys|
  {
  }

  /** Deleted slots and slots of the post state are disjoint, and together they are all
      slots; likewise for the accounts that own them. */
  lemma CountsOfUnion(pre: State, post: State)
    ensures |Slots(Minus(pre, post))| + |Slots(post)| == |Slots(pre) + Slots(post)|
    ensures Tries(Minus(pre, post)) + Tries(post) == Accounts(Slots(pre) + Slots(post))
  {
    var p, q := Slots(pre), Slots(post);
    SlotsOfMinus(pre, post);
    assert p + q == (p - q) + q && (p - q) !! q;
    TriesOwnSlots(Minus(pre, post));
    TriesOwnSlots(post);
    FirstOfUnion(p - q, q);
  }

  lemma FirstOfUnion(p: set<(Account, Slot)>, q: set<(Account, Slot)>)
    ensures Accounts(p) + Accounts(q) == Accounts(p + q)
  {
    forall x | x in p + q
      ensures x.0 in Accounts(p) + Accounts(q)
    {
    }
    assert Accounts(p) <= Accounts(p + q) && Accounts(q) <= Accounts(p + q);
  }

  // ---------- Properties of the counts ----------

  lemma {:induction false} AccountsSize(ps: set<(Account, Slot)>)
    ensures |Accounts(ps)| <= |ps|
  {
    if ps != {} {
      var p :| p in ps;
      var rest := ps - {p};
      AccountsSize(rest);
      assert Accounts(ps) == Accounts(rest) + {p.0};
    }
  }

  /** A block changes at least one slot in every trie it changes. */
  lemma TriesAtMostSlots(ts: seq<StorageTrace>)
    ensures |TouchedTries(ts)| <= |TouchedSlots(ts)|
  {
    AccountsSize(TouchedSlots(ts));
  }

  predicate Holds(s: State, p: (Account, Slot)) { p.0 in s && p.1 in s[p.0] }

  lemma {:induction false} TouchedIff(ts: seq<StorageTrace>, p: (Account, Slot))
    ensures p in TouchedSlots(ts) <==> exists t :: t in ts && (Holds(t.pre, p) || Holds(t.post, p))
  {
    if ts != [] {
      var n := |ts| - 1;
      TouchedIff(ts[..n], p);
      assert ts == ts[..n] + [ts[n]];
    }
  }

  /** A trie is changed if and only if some transaction has a slot of its account. */
  lemma TouchedTriesIff(ts: seq<StorageTrace>, a: Account)
    ensures a in TouchedTries(ts) <==> exists t :: t in ts && (Get(t.pre, a) != map[] || Get(t.post, a) != map[])
  {
    if a in TouchedTries(ts) {
      var p :| p in TouchedSlots(ts) && p.0 == a;
      TouchedIff(ts, p);
    }
    forall t | t in ts && (Get(t.pre, a) != map[] || Get(t.post, a) != map[])
      ensures a in TouchedTries(ts)
    {
      var s := if Get(t.pre, a) != map[] then t.pre else t.post;
      var k :| k in s[a];
      assert Holds(s, (a, k));
      TouchedIff(ts, (a, k));
      assert (a, k).0 in TouchedTries(ts);
    }
  }

  lemma {:induction false} PostAccountIff(ts: seq<StorageTrace>, a: Account)
    ensures a in PostAccounts(ts) <==> exists t :: t in ts && a in t.post
  {
    if ts != [] {
      var n := |ts| - 1;
      PostAccountIff(ts[..n], a);
      assert ts == ts[..n] + [ts[n]];
    }
  }

  /** The counted sets depend on which transactions a block has, not on their order. */
  lemma TraceOrderIrrelevant(ts: seq<StorageTrace>, us: seq<StorageTrace>)
    requires forall t :: t in ts <==> t in us
    ensures TouchedSlots(ts) == TouchedSlots(us)
    ensures TouchedTries(ts) == TouchedTries(us)
    ensures PostAccounts(ts) == PostAccounts(us)
  {
    forall p: (Account, Slot)
      ensures p in TouchedSlots(ts) <==> p in TouchedSlots(us)
    {
      TouchedIff(ts, p);
      TouchedIff(us, p);
    }
    forall a: Account
      ensures a in PostAccounts(ts) <==> a in PostAccounts(us)
    {
      PostAccountIff(ts, a);
      PostAccountIff(us, a);
    }
  }

  // ---------- Accounts that are only in a pre state ----------

  /** The accounts in the pre state of any transaction. */
  function PreAccounts(ts: seq<StorageTrace>): set<Account> {
    if ts == [] then {} else PreAccounts(ts[..|ts| - 1]) + ts[|ts| - 1].pre.Keys
  }

  lemma SubsetSize<T>(small: set<T>, big: set<T>)
    requires small <= big
    ensures |small| <= |big|
    ensures |small| == |big| <==> small == big
  {
    assert big == small + (big - small) && small !! (big - small);
  }

  lemma {:induction false} TouchedHaveAccounts(ts: seq<StorageTrace>)
    ensures TouchedTries(ts) <= PreAccounts(ts) + PostAccounts(ts)
  {
    forall p | p in TouchedSlots(ts)
      ensures p.0 in PreAccounts(ts) + PostAccounts(ts)
    {
      TouchedHasAccount(ts, p);
    }
  }

  lemma {:induction false} TouchedHasAccount(ts: seq<StorageTrace>, p: (Account, Slot))
    requires p in TouchedSlots(ts)
    ensures p.0 in PreAccounts(ts) + PostAccounts(ts)
  {
    var n := |ts| - 1;
    if p in TouchedSlots(ts[..n]) {
      TouchedHasAccount(ts[..n], p);
    }
  }

  /** The account counter is the number of accounts in any state if and only if every account of a
      pre state is in some post state; then it is at least the number of changed tries. Otherwise,
      for instance when accounts are destroyed, it falls short. */
  lemma AccountsCompleteIff(ts: seq<StorageTrace>)
    ensures |PostAccounts(ts)| <= |PreAccounts(ts) + PostAccounts(ts)|
    ensures |PostAccounts(ts)| == |PreAccounts(ts) + PostAccounts(ts)| <==> PreAccounts(ts) <= PostAccounts(ts)
    ensures PreAccounts(ts) <= PostAccounts(ts) ==> |TouchedTries(ts)| <= |PostAccounts(ts)|
  {
    SubsetSize(PostAccounts(ts), PreAccounts(ts) + PostAccounts(ts));
    TouchedHaveAccounts(ts);
    if PreAccounts(ts) <= PostAccounts(ts) {
      SubsetSize(TouchedTries(ts), PostAccounts(ts));
    }
  }

  lemma OneSlot(s: State, a: Account, k: Slot, value: string)
    requires s == map[a := map[k := value]]
    ensures Slots(s) == {(a, k)}
  {
  }

  lemma OneTrace(t: StorageTrace)
    ensures TouchedSlots([t]) == Slots(t.pre) + Slots(t.post) && PostAccounts([t]) == t.post.Keys
  {
    assert [t][..0] == [];
    assert {} + Slots(t.pre) + Slots(t.post) == Slots(t.pre) + Slots(t.post);
  }

  /** One account destroyed with its one slot: a trie and a slot change, but no account counts. */
  lemma DestroyedExample(a: Account, k: Slot, value: string)
    ensures var ts := [StorageTrace(map[a := map[k := value]], map[])];
            |TouchedSlots(ts)| == 1 && |TouchedTries(ts)| == 1 && |PostAccounts(ts)| == 0
  {
    var pre: State := map[a := map[k := value]];
    OneSlot(pre, a, k, value);
    OneTrace(StorageTrace(pre, map[]));
    assert Slots(map[]) == {} && {(a, k)} + {} == {(a, k)};
    assert Accounts({(a, k)}) == {a};
  }
}
