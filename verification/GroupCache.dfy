/** The group address cache (src/libserver/groupcache.cpp). */
module GroupCache {
  import opened KnxTypes
  import Tpdu

  const MAX_SEQ: nat := 0xFFFF_FFFF

  datatype Entry = Entry(dst: Address, src: Address, data: Bytes, time: int, number: nat)

  /** The cache proper and its index by update number. */
  datatype Store = Store(cache: map<Address, Entry>, index: map<nat, Address>, last: nat)

  // ------------------------------------------------------------- the reference: an LRU list

  /** The list without the entry for an address. */
  function Without(l: seq<Entry>, a: Address): seq<Entry> {
    if l == [] then []
    else if l[0].dst == a then l[1..]
    else [l[0]] + Without(l[1..], a)
  }

  function Take(l: seq<Entry>, n: nat): seq<Entry> {
    if |l| <= n then l else l[..n]
  }

  /** Move an address to the front with its new value; the list holds at most `max` entries. */
  function Touch(l: seq<Entry>, e: Entry, max: nat): seq<Entry> {
    Take([e] + Without(l, e.dst), max)
  }

  /** Newest first, one entry per address. */
  ghost predicate IsRecency(l: seq<Entry>) {
    forall i, j | 0 <= i < j < |l| :: l[i].number > l[j].number && l[i].dst != l[j].dst
  }

  ghost function Addresses(l: seq<Entry>): set<Address> {
    set i | 0 <= i < |l| :: l[i].dst
  }

  ghost function Numbers(l: seq<Entry>): set<nat> {
    set i | 0 <= i < |l| :: l[i].number
  }

  /** The two maps are exactly the list: `cache` by address, `index` its inverse by number. */
  ghost predicate Agree(s: Store, l: seq<Entry>) {
    && IsRecency(l)
    && (forall i | 0 <= i < |l| :: l[i].number <= s.last)
    && s.cache.Keys == Addresses(l)
    && (forall i | 0 <= i < |l| :: l[i].dst in s.cache && s.cache[l[i].dst] == l[i])
    && s.index.Keys == Numbers(l)
    && (forall i | 0 <= i < |l| :: l[i].number in s.index && s.index[l[i].number] == l[i].dst)
  }

  // ------------------------------------------------------------- the two maps

  lemma MinExists(keys: set<nat>, k: nat)
    requires k in keys
    ensures exists m :: m in keys && forall j | j in keys :: m <= j
    decreases k
  {
    if j :| j in keys && j < k {
      MinExists(keys, j);
    }
  }

  /** The first key of the ordered map. */
  ghost function MinKey(m: map<nat, Address>): (k: nat)
    requires m != map[]
    ensures k in m && forall j | j in m :: k <= j
  {
    assert exists k :: k in m && forall j | j in m :: k <= j by {
      var x :| x in m;
      MinExists(m.Keys, x);
    }
    var k :| k in m && forall j | j in m :: k <= j;
    k
  }

  /** Drop the oldest index entry, and whatever is cached for its address. */
  ghost function EvictOne(s: Store): Store
    requires s.index != map[]
  {
    var k := MinKey(s.index);
    s.(cache := s.cache - {s.index[k]}, index := s.index - {k})
  }

  lemma RemoveShrinks(m: map<nat, Address>, k: nat)
    requires k in m
    ensures |m - {k}| == |m| - 1
  {
    assert (m - {k}).Keys == m.Keys - {k};
  }

  ghost function Evict(s: Store, max: nat): (t: Store)
    requires 1 <= max
    ensures |t.index| < max
    decreases |s.index|
  {
    if |s.index| < max then s
    else
      RemoveShrinks(s.index, MinKey(s.index));
      Evict(EvictOne(s), max)
  }

  /** Room for an address: evict if it is new, forget its old number if it is not. */
  ghost function MakeRoom(s: Store, a: Address, max: nat): Store
    requires 1 <= max
  {
    if a !in s.cache then Evict(s, max)
    else s.(index := s.index - {s.cache[a].number})
  }

  ghost function Update(s: Store, a: Address, src: Address, data: Bytes, time: int, max: nat): Store
    requires 1 <= max
  {
    var s1 := MakeRoom(s, a, max);
    var n := s.last + 1;
    Store(s1.cache[a := Entry(a, src, data, time, n)], s1.index[n := a], n)
  }

  ghost function Remove(s: Store, a: Address): Store {
    if a !in s.cache then s
    else Store(s.cache - {a}, s.index - {s.cache[a].number}, s.last)
  }

  /** Clear empties one of the two maps only. */
  ghost function Clear(s: Store): Store {
    s.(cache := map[])
  }

  ghost predicate LeadsBack(s: Store, a: Address)
    requires a in s.cache
  {
    var n := s.cache[a].number;
    s.cache[a].dst == a && n in s.index && s.index[n] == a
  }

  /** What holds with Clear allowed: a cached entry's number leads back to it, and the index,
      which may hold stale numbers, never exceeds the capacity. */
  ghost predicate Consistent(s: Store, max: nat) {
    && (forall a | a in s.cache :: LeadsBack(s, a))
    && (forall n | n in s.index :: n <= s.last)
    && |s.index| <= max
  }

  /** An injection of the cached addresses into the index numbers. */
  lemma {:induction false} CacheFitsIndex(s: Store, max: nat, addrs: set<Address>)
    requires Consistent(s, max) && addrs <= s.cache.Keys
    ensures |addrs| <= |set a | a in addrs :: s.cache[a].number|
    ensures (set a | a in addrs :: s.cache[a].number) <= s.index.Keys
  {
    if addrs != {} {
      var a :| a in addrs;
      var rest := addrs - {a};
      CacheFitsIndex(s, max, rest);
      var all := set b | b in addrs :: s.cache[b].number;
      var some := set b | b in rest :: s.cache[b].number;
      forall b | b in rest
        ensures s.cache[b].number != s.cache[a].number
      {
        assert LeadsBack(s, a) && LeadsBack(s, b);
      }
      assert all == some + {s.cache[a].number};
    }
  }

  lemma CacheWithinIndex(s: Store, max: nat)
    requires Consistent(s, max)
    ensures |s.cache| <= |s.index|
  {
    CacheFitsIndex(s, max, s.cache.Keys);
    SubsetSize(set a | a in s.cache.Keys :: s.cache[a].number, s.index.Keys);
  }

  lemma SubsetSize(a: set<nat>, b: set<nat>)
    requires a <= b
    ensures |a| <= |b|
  {
    assert b == a + (b - a);
  }

  lemma {:induction false} EvictConsistent(s: Store, max: nat, cap: nat)
    requires 1 <= max && Consistent(s, cap)
    ensures Consistent(Evict(s, max), cap)
    ensures Evict(s, max).cache.Keys <= s.cache.Keys && Evict(s, max).last == s.last
    decreases |s.index|
  {
    if |s.index| >= max {
      RemoveShrinks(s.index, MinKey(s.index));
      EvictConsistent(EvictOne(s), max, cap);
    }
  }

  /** Writing the newest entry, when every other address leads back. */
  lemma WriteConsistent(s: Store, e: Entry, max: nat)
    requires (forall b | b in s.cache && b != e.dst :: LeadsBack(s, b))
    requires (forall n | n in s.index :: n < e.number) && |s.index| < max
    ensures Consistent(Store(s.cache[e.dst := e], s.index[e.number := e.dst], e.number), max)
  {
    var t := Store(s.cache[e.dst := e], s.index[e.number := e.dst], e.number);
    assert t.index.Keys == s.index.Keys + {e.number};
    forall b | b in t.cache
      ensures LeadsBack(t, b)
    {
      if b != e.dst {
        assert LeadsBack(s, b);
      }
    }
  }

  lemma RoomConsistent(s: Store, a: Address, max: nat)
    requires 1 <= max && Consistent(s, max)
    ensures var t := MakeRoom(s, a, max);
      && (forall b | b in t.cache && b != a :: LeadsBack(t, b))
      && (forall n | n in t.index :: n <= s.last) && |t.index| < max
  {
    if a !in s.cache {
      EvictConsistent(s, max, max);
    } else {
      RemoveShrinks(s.index, s.cache[a].number);
      var t := MakeRoom(s, a, max);
      forall b | b in t.cache && b != a ensures LeadsBack(t, b) { assert LeadsBack(s, b) && LeadsBack(s, a); }
    }
  }

  lemma UpdateConsistent(s: Store, a: Address, src: Address, data: Bytes, time: int, max: nat)
    requires 1 <= max && Consistent(s, max)
    ensures Consistent(Update(s, a, src, data, time, max), max)
  {
    hide LeadsBack, MakeRoom, Consistent;
    RoomConsistent(s, a, max);
    WriteConsistent(MakeRoom(s, a, max), Entry(a, src, data, time, s.last + 1), max);
  }

  lemma RemoveConsistent(s: Store, a: Address, max: nat)
    requires Consistent(s, max)
    ensures Consistent(Remove(s, a), max)
  {
    if a in s.cache {
      RemoveShrinks(s.index, s.cache[a].number);
    }
  }

  // ------------------------------------------------------------- agreement with the list

  lemma NumbersSize(l: seq<Entry>)
    requires IsRecency(l)
    ensures |Numbers(l)| == |l|
  {
    if l != [] {
      var rest := l[1..];
      NumbersSize(rest);
      assert forall i | 0 < i < |l| :: l[i] == rest[i - 1];
      assert Numbers(l) == Numbers(rest) + {l[0].number};
      assert l[0].number !in Numbers(rest);
    }
  }

  lemma WithoutSpec(l: seq<Entry>, a: Address, i: nat)
    requires i < |l| && l[i].dst == a
    requires forall j | 0 <= j < i :: l[j].dst != a
    ensures Without(l, a) == l[..i] + l[i + 1..]
  {
    if i > 0 {
      WithoutSpec(l[1..], a, i - 1);
      assert [l[0]] + l[1..][..i - 1] == l[..i];
      assert l[1..][i..] == l[i + 1..];
    }
  }

  lemma WithoutAbsent(l: seq<Entry>, a: Address)
    requires forall j | 0 <= j < |l| :: l[j].dst != a
    ensures Without(l, a) == l
  {
    if l != [] {
      WithoutAbsent(l[1..], a);
    }
  }

  function DropAt(l: seq<Entry>, i: nat): (r: seq<Entry>)
    requires i < |l|
    ensures |r| == |l| - 1
    ensures forall k | 0 <= k < i :: r[k] == l[k]
    ensures forall k | i <= k < |r| :: r[k] == l[k + 1]
  {
    l[..i] + l[i + 1..]
  }

  lemma AddressesDrop(l: seq<Entry>, i: nat)
    requires IsRecency(l) && i < |l|
    ensures Addresses(DropAt(l, i)) == Addresses(l) - {l[i].dst}
    ensures Numbers(DropAt(l, i)) == Numbers(l) - {l[i].number}
  {
    var r := DropAt(l, i);
    forall k | 0 <= k < |l| && k != i
      ensures l[k].dst in Addresses(r) && l[k].number in Numbers(r)
    {
      assert r[if k < i then k else k - 1] == l[k];
    }
  }

  /** Dropping one entry from the list drops one key from either map. */
  lemma AgreeDrop(s: Store, l: seq<Entry>, i: nat)
    requires Agree(s, l) && i < |l|
    ensures Agree(Store(s.cache - {l[i].dst}, s.index - {l[i].number}, s.last), DropAt(l, i))
  {
    AddressesDrop(l, i);
    var t := Store(s.cache - {l[i].dst}, s.index - {l[i].number}, s.last);
    var r := DropAt(l, i);
    forall k | 0 <= k < |r|
      ensures r[k].dst in t.cache && t.cache[r[k].dst] == r[k]
      ensures r[k].number in t.index && t.index[r[k].number] == r[k].dst
    {
      var k1 := if k < i then k else k + 1;
      assert r[k] == l[k1];
    }
  }

  lemma AddressesPush(l: seq<Entry>, e: Entry)
    ensures Addresses([e] + l) == Addresses(l) + {e.dst}
    ensures Numbers([e] + l) == Numbers(l) + {e.number}
  {
    var r := [e] + l;
    assert r[0] == e;
    forall k | 0 <= k < |l|
      ensures l[k].dst in Addresses(r) && l[k].number in Numbers(r)
    {
      assert r[k + 1] == l[k];
    }
  }

  lemma IsRecencyPush(l: seq<Entry>, e: Entry, last: nat)
    requires IsRecency(l) && (forall i | 0 <= i < |l| :: l[i].number <= last)
    requires e.number == last + 1 && e.dst !in Addresses(l)
    ensures IsRecency([e] + l)
  {
    var r := [e] + l;
    forall i, j | 0 <= i < j < |r|
      ensures r[i].number > r[j].number && r[i].dst != r[j].dst
    {
      assert r[j] == l[j - 1] && l[j - 1].dst in Addresses(l);
      if i > 0 {
        assert r[i] == l[i - 1];
      }
    }
  }

  /** Adding a newer entry for a new address in front. */
  lemma AgreePush(s: Store, l: seq<Entry>, e: Entry)
    requires Agree(s, l) && e.number == s.last + 1 && e.dst !in s.cache
    ensures Agree(Store(s.cache[e.dst := e], s.index[e.number := e.dst], s.last + 1), [e] + l)
  {
    hide IsRecency, Addresses, Numbers;
    AddressesPush(l, e);
    IsRecencyPush(l, e, s.last);
    var r := [e] + l;
    assert forall k | 0 < k < |r| :: r[k] == l[k - 1];
  }

  lemma MinIsOldest(s: Store, l: seq<Entry>)
    requires Agree(s, l) && l != []
    ensures s.index != map[] && MinKey(s.index) == l[|l| - 1].number
    ensures s.index[l[|l| - 1].number] == l[|l| - 1].dst
  {
    assert l[|l| - 1].number in s.index;
    var k := MinKey(s.index);
    assert k in Numbers(l);
  }

  /** A full index loses one entry. */
  lemma EvictFull(s: Store, max: nat)
    requires 1 <= max == |s.index|
    ensures s.index != map[] && Evict(s, max) == EvictOne(s)
  {
    RemoveShrinks(s.index, MinKey(s.index));
  }

  lemma IndexSize(s: Store, l: seq<Entry>)
    requires Agree(s, l)
    ensures |s.index| == |l|
  {
    NumbersSize(l);
    hide Numbers, IsRecency;
    assert |s.index| == |s.index.Keys|;
  }

  lemma EvictAgrees(s: Store, l: seq<Entry>, max: nat)
    requires Agree(s, l) && 1 <= max && |l| <= max
    ensures Agree(Evict(s, max), Take(l, max - 1))
    ensures Evict(s, max).last == s.last
  {
    IndexSize(s, l);
    if |l| == max {
      var n := |l| - 1;
      EvictFull(s, max);
      MinIsOldest(s, l);
      AgreeDrop(s, l, n);
      hide Agree, Evict, MinKey;
      assert DropAt(l, n) == l[..n];
    }
  }

  lemma Locate(s: Store, l: seq<Entry>, a: Address) returns (i: nat)
    requires Agree(s, l) && a in s.cache
    ensures i < |l| && l[i].dst == a && s.cache[a] == l[i]
    ensures forall j | 0 <= j < i :: l[j].dst != a
  {
    assert a in Addresses(l);
    i :| 0 <= i < |l| && l[i].dst == a;
  }

  lemma AbsentIff(s: Store, l: seq<Entry>, a: Address)
    requires Agree(s, l)
    ensures a !in s.cache <==> forall j | 0 <= j < |l| :: l[j].dst != a
  {
    if a in s.cache {
      var i := Locate(s, l, a);
    } else {
      forall j | 0 <= j < |l| ensures l[j].dst != a { assert l[j].dst in s.cache; }
    }
  }

  lemma UpdateNewAgrees(s: Store, l: seq<Entry>, e: Entry, max: nat)
    requires Agree(s, l) && 1 <= max && |l| <= max
    requires e.number == s.last + 1 && e.dst !in s.cache
    ensures var t := Evict(s, max);
      Agree(Store(t.cache[e.dst := e], t.index[e.number := e.dst], s.last + 1), Touch(l, e, max))
  {
    hide Agree, Evict;
    var kept := Take(l, max - 1);
    EvictAgrees(s, l, max);
    AbsentIff(s, l, e.dst);
    WithoutAbsent(l, e.dst);
    assert forall j | 0 <= j < |kept| :: kept[j] == l[j];
    AbsentIff(Evict(s, max), kept, e.dst);
    AgreePush(Evict(s, max), kept, e);
    assert Touch(l, e, max) == [e] + kept;
  }

  lemma UpdateKnownAgrees(s: Store, l: seq<Entry>, e: Entry, max: nat)
    requires Agree(s, l) && 1 <= max && |l| <= max
    requires e.number == s.last + 1 && e.dst in s.cache
    ensures Agree(Store(s.cache[e.dst := e], (s.index - {s.cache[e.dst].number})[e.number := e.dst], s.last + 1),
                  Touch(l, e, max))
  {
    hide Agree;
    var i := Locate(s, l, e.dst);
    WithoutSpec(l, e.dst, i);
    AgreeDrop(s, l, i);
    var t := Store(s.cache - {e.dst}, s.index - {l[i].number}, s.last);
    AgreePush(t, DropAt(l, i), e);
    assert t.cache[e.dst := e] == s.cache[e.dst := e];
    assert Touch(l, e, max) == [e] + DropAt(l, i);
  }

  /** An update of the two maps is a touch of the list. */
  lemma UpdateAgrees(s: Store, l: seq<Entry>, a: Address, src: Address, data: Bytes, time: int, max: nat)
    requires Agree(s, l) && 1 <= max && |l| <= max
    ensures var e := Entry(a, src, data, time, s.last + 1);
      Agree(Update(s, a, src, data, time, max), Touch(l, e, max)) && |Touch(l, e, max)| <= max
    ensures Update(s, a, src, data, time, max).last == s.last + 1
  {
    hide Agree, Evict;
    var e := Entry(a, src, data, time, s.last + 1);
    if a !in s.cache {
      UpdateNewAgrees(s, l, e, max);
    } else {
      UpdateKnownAgrees(s, l, e, max);
    }
  }

  lemma RemoveAgrees(s: Store, l: seq<Entry>, a: Address)
    requires Agree(s, l)
    ensures Agree(Remove(s, a), Without(l, a)) && |Without(l, a)| <= |l|
    ensures Remove(s, a).last == s.last
  {
    hide Agree;
    if a !in s.cache {
      AbsentIff(s, l, a);
      WithoutAbsent(l, a);
    } else {
      var i := Locate(s, l, a);
      WithoutSpec(l, a, i);
      AgreeDrop(s, l, i);
    }
  }

  lemma NonemptyAddresses(l: seq<Entry>)
    ensures l != [] ==> Addresses(l) != {}
  {
    if l != [] {
      assert l[0].dst in Addresses(l);
    }
  }

  /** Clear keeps the two maps in agreement exactly when there was nothing to clear. */
  lemma ClearAgrees(s: Store, l: seq<Entry>)
    requires Agree(s, l)
    ensures (exists k: seq<Entry> :: Agree(Clear(s), k)) <==> s.cache == map[]
  {
    if k: seq<Entry> :| Agree(Clear(s), k) {
      assert Addresses(k) == {};
      NonemptyAddresses(k);
      assert Numbers(l) == {};
      NumbersSize(l);
      assert s.cache.Keys == {};
    }
    if s.cache == map[] {
      assert Clear(s) == s;
    }
  }

  // ------------------------------------------------------------- whole runs

  datatype Op =
    | DoUpdate(a: Address, src: Address, data: Bytes, time: int)
    | DoRemove(a: Address)
    | DoClear

  ghost function Step(s: Store, op: Op, max: nat): Store
    requires 1 <= max
  {
    match op
    case DoUpdate(a, src, data, time) => Update(s, a, src, data, time, max)
    case DoRemove(a) => Remove(s, a)
    case DoClear => Clear(s)
  }

  ghost function Run(s: Store, ops: seq<Op>, max: nat): Store
    requires 1 <= max
    decreases |ops|
  {
    if ops == [] then s else Run(Step(s, ops[0], max), ops[1..], max)
  }

  ghost predicate NoClear(ops: seq<Op>) {
    forall i | 0 <= i < |ops| :: !ops[i].DoClear?
  }

  /** The same run on the plain list, which counts its updates from `n`. */
  function RunList(l: seq<Entry>, n: nat, ops: seq<Op>, max: nat): seq<Entry>
    decreases |ops|
  {
    if ops == [] then l
    else match ops[0]
      case DoUpdate(a, src, data, time) =>
        RunList(Touch(l, Entry(a, src, data, time, n + 1), max), n + 1, ops[1..], max)
      case DoRemove(a) => RunList(Without(l, a), n, ops[1..], max)
      case DoClear => RunList([], n, ops[1..], max)
  }

  function Empty(): Store {
    Store(map[], map[], 0)
  }

  /** Without Clear, the two maps are the plain list after every run of updates and removals. */
  lemma {:induction false} RunAgrees(s: Store, l: seq<Entry>, ops: seq<Op>, max: nat)
    requires 1 <= max && Agree(s, l) && |l| <= max && NoClear(ops)
    ensures Agree(Run(s, ops, max), RunList(l, s.last, ops, max))
    ensures |RunList(l, s.last, ops, max)| <= max
    decreases |ops|
  {
    hide Agree, Evict, Update, Remove, Touch, Without;
    if ops != [] {
      match ops[0]
      case DoUpdate(a, src, data, time) =>
        UpdateAgrees(s, l, a, src, data, time, max);
        var e := Entry(a, src, data, time, s.last + 1);
        RunAgrees(Update(s, a, src, data, time, max), Touch(l, e, max), ops[1..], max);
      case DoRemove(a) =>
        RemoveAgrees(s, l, a);
        RunAgrees(Remove(s, a), Without(l, a), ops[1..], max);
    }
  }

  /** With Clear: every cached entry's number leads back to it, and the sizes stay ordered. */
  lemma {:induction false} RunConsistent(s: Store, ops: seq<Op>, max: nat)
    requires 1 <= max && Consistent(s, max)
    ensures Consistent(Run(s, ops, max), max)
    ensures |Run(s, ops, max).cache| <= |Run(s, ops, max).index| <= max
    decreases |ops|
  {
    if ops == [] {
      CacheWithinIndex(s, max);
    } else {
      var t := Step(s, ops[0], max);
      assert Consistent(t, max) by {
        match ops[0]
        case DoUpdate(a, src, data, time) => UpdateConsistent(s, a, src, data, time, max);
        case DoRemove(a) => RemoveConsistent(s, a, max);
        case DoClear =>
      }
      RunConsistent(t, ops[1..], max);
    }
  }

  /** The group cache is an LRU cache: from empty, every run of updates and removals leaves the two
      maps equal to the list of at most `max` most recently updated addresses. */
  lemma CacheIsLru(ops: seq<Op>, max: nat)
    requires 1 <= max && NoClear(ops)
    ensures Agree(Run(Empty(), ops, max), RunList([], 0, ops, max))
    ensures |RunList([], 0, ops, max)| <= max
  {
    RunAgrees(Empty(), [], ops, max);
  }

  // ------------------------------------------------------------- what the list is

  /** Every address ever updated with its last value, newest first: no capacity, no list surgery
      beyond moving one address to the front. */
  function Newest(updates: seq<Entry>): seq<Entry> {
    if updates == [] then []
    else
      var n := |updates| - 1;
      [updates[n]] + Without(Newest(updates[..n]), updates[n].dst)
  }

  function Touches(l: seq<Entry>, updates: seq<Entry>, max: nat): seq<Entry> {
    if updates == [] then l
    else
      var n := |updates| - 1;
      Touch(Touches(l, updates[..n], max), updates[n], max)
  }

  lemma WithoutFront(e: Entry, l: seq<Entry>, a: Address)
    requires e.dst != a
    ensures Without([e] + l, a) == [e] + Without(l, a)
  {
    assert ([e] + l)[1..] == l;
  }

  /** Removing an address commutes with truncation. */
  lemma {:induction false} WithoutTake(l: seq<Entry>, a: Address, n: nat)
    requires 1 <= n
    ensures Take(Without(Take(l, n), a), n - 1) == Take(Without(l, a), n - 1)
  {
    if |l| > n {
      var e, r := l[0], l[1..];
      assert l == [e] + r;
      TakePush(e, r, n);
      if e.dst == a {
        assert ([e] + Take(r, n - 1))[1..] == Take(r, n - 1);
      } else {
        WithoutFront(e, r, a);
        WithoutFront(e, Take(r, n - 1), a);
        if n > 1 {
          WithoutTake(r, a, n - 1);
          TakePush(e, Without(r, a), n - 1);
          TakePush(e, Without(Take(r, n - 1), a), n - 1);
        }
      }
    }
  }

  /** A cache of capacity `max` holds exactly the first `max` entries of the list without a
      capacity: the most recently updated addresses, each with its last value. */
  lemma {:induction false} TouchesAreNewest(updates: seq<Entry>, max: nat)
    requires 1 <= max
    ensures Touches([], updates, max) == Take(Newest(updates), max)
  {
    if updates != [] {
      var n := |updates| - 1;
      var e := updates[n];
      var all := Newest(updates[..n]);
      TouchesAreNewest(updates[..n], max);
      WithoutTake(all, e.dst, max);
      TakePush(e, Without(Take(all, max), e.dst), max);
      TakePush(e, Without(all, e.dst), max);
    }
  }

  lemma TakePush(e: Entry, l: seq<Entry>, n: nat)
    requires 1 <= n
    ensures Take([e] + l, n) == [e] + Take(l, n - 1)
  {
  }

  lemma {:induction false} TouchesFront(l: seq<Entry>, e: Entry, updates: seq<Entry>, max: nat)
    ensures Touches(l, [e] + updates, max) == Touches(Touch(l, e, max), updates, max)
    decreases |updates|
  {
    var all := [e] + updates;
    if updates == [] {
      assert all[..0] == [];
    } else {
      var n := |updates| - 1;
      assert all[..n + 1] == [e] + updates[..n];
      TouchesFront(l, e, updates[..n], max);
    }
  }

  ghost predicate OnlyUpdates(ops: seq<Op>) {
    forall i | 0 <= i < |ops| :: ops[i].DoUpdate?
  }

  /** The entries a run of updates writes. */
  function Entries(ops: seq<Op>, n: nat): seq<Entry>
    requires forall i | 0 <= i < |ops| :: ops[i].DoUpdate?
    decreases |ops|
  {
    if ops == [] then []
    else [Entry(ops[0].a, ops[0].src, ops[0].data, ops[0].time, n + 1)] + Entries(ops[1..], n + 1)
  }

  lemma {:induction false} RunListTouches(l: seq<Entry>, n: nat, ops: seq<Op>, max: nat)
    requires OnlyUpdates(ops)
    ensures RunList(l, n, ops, max) == Touches(l, Entries(ops, n), max)
    decreases |ops|
  {
    if ops != [] {
      var e := Entry(ops[0].a, ops[0].src, ops[0].data, ops[0].time, n + 1);
      RunListTouches(Touch(l, e, max), n + 1, ops[1..], max);
      TouchesFront(l, e, Entries(ops[1..], n + 1), max);
    }
  }

  /** After any run of updates the cache holds exactly the `max` most recently updated addresses. */
  lemma UpdatesKeepNewest(ops: seq<Op>, max: nat)
    requires 1 <= max && OnlyUpdates(ops)
    ensures Agree(Run(Empty(), ops, max), Take(Newest(Entries(ops, 0)), max))
  {
    CacheIsLru(ops, max);
    RunListTouches([], 0, ops, max);
    TouchesAreNewest(Entries(ops, 0), max);
  }

  // ------------------------------------------------------------- reports

  /** How many entries at the front have a number of at least `start`. */
  function Since(l: seq<Entry>, start: nat): (n: nat)
    ensures n <= |l|
  {
    if l == [] || l[0].number < start then 0 else 1 + Since(l[1..], start)
  }

  function DstOf(l: seq<Entry>): (r: seq<Address>)
    ensures |r| == |l| && forall i | 0 <= i < |l| :: r[i] == l[i].dst
  {
    seq(|l|, i requires 0 <= i < |l| => l[i].dst)
  }

  /** The addresses at keys not below `start`, largest key first. */
  ghost function Report(index: map<nat, Address>, start: nat): seq<Address>
    decreases |index|
  {
    if index == map[] then []
    else
      var k := MaxKey(index);
      RemoveShrinks(index, k);
      if k < start then [] else [index[k]] + Report(index - {k}, start)
  }

  lemma MaxExists(keys: set<nat>)
    requires keys != {}
    ensures exists k :: k in keys && forall j | j in keys :: j <= k
  {
    var k :| k in keys;
    var rest := keys - {k};
    if rest != {} {
      MaxExists(rest);
      var m :| m in rest && forall j | j in rest :: j <= m;
      var most := if m > k then m else k;
      forall j | j in keys ensures j <= most { assert j == k || j in rest; }
      assert most in keys;
    } else {
      forall j | j in keys ensures j <= k { assert j == k || j in rest; }
    }
  }

  ghost function MaxKey(m: map<nat, Address>): (k: nat)
    requires m != map[]
    ensures k in m && forall j | j in m :: j <= k
  {
    assert exists k :: k in m && forall j | j in m :: j <= k by {
      var x :| x in m;
      assert x in m.Keys;
      MaxExists(m.Keys);
    }
    var k :| k in m && forall j | j in m :: j <= k;
    k
  }

  lemma SinceSplits(l: seq<Entry>, start: nat)
    requires IsRecency(l)
    ensures forall i | 0 <= i < Since(l, start) :: l[i].number >= start
    ensures forall i | Since(l, start) <= i < |l| :: l[i].number < start
  {
    if l != [] && l[0].number >= start {
      SinceSplits(l[1..], start);
      assert forall i | 1 <= i < |l| :: l[i] == l[1..][i - 1];
    }
  }

  lemma MaxIsNewest(s: Store, l: seq<Entry>)
    requires Agree(s, l) && l != []
    ensures s.index != map[] && MaxKey(s.index) == l[0].number && s.index[l[0].number] == l[0].dst
  {
    assert l[0].number in s.index;
    assert MaxKey(s.index) in Numbers(l);
  }

  lemma EmptyAgrees(s: Store)
    requires Agree(s, [])
    ensures s.index == map[]
  {
    assert s.index.Keys == {};
  }

  lemma AgreeTail(s: Store, l: seq<Entry>)
    requires Agree(s, l) && l != []
    ensures Agree(Store(s.cache - {l[0].dst}, s.index - {l[0].number}, s.last), l[1..])
  {
    hide Agree;
    AgreeDrop(s, l, 0);
    assert DropAt(l, 0) == l[1..];
  }

  /** The report is the part of the list that is recent enough. */
  lemma {:induction false} ReportIsPrefix(s: Store, l: seq<Entry>, start: nat)
    requires Agree(s, l)
    ensures Report(s.index, start) == DstOf(l[..Since(l, start)])
    decreases |l|
  {
    hide Agree, MaxKey;
    if l == [] {
      EmptyAgrees(s);
    } else {
      MaxIsNewest(s, l);
      var k := l[0].number;
      if k >= start {
        AgreeTail(s, l);
        ReportIsPrefix(Store(s.cache - {l[0].dst}, s.index - {k}, s.last), l[1..], start);
        assert l[..Since(l, start)] == [l[0]] + l[1..][..Since(l[1..], start)];
      }
    }
  }

  /** A report lists exactly the cached addresses updated at `start` or later, newest first,
      each once. */
  lemma ReportIsExact(s: Store, l: seq<Entry>, start: nat)
    requires Agree(s, l)
    ensures var r := Report(s.index, start);
      && (forall a :: a in r <==> a in s.cache && s.cache[a].number >= start)
      && (forall i, j | 0 <= i < j < |r| :: r[i] != r[j])
      && (forall i, j | 0 <= i < j < |r| && r[i] in s.cache && r[j] in s.cache :: s.cache[r[i]].number > s.cache[r[j]].number)
  {
    ReportIsPrefix(s, l, start);
    SinceSplits(l, start);
    var n := Since(l, start);
    var r := Report(s.index, start);
    assert forall i | 0 <= i < n :: r[i] == l[i].dst;
    forall a
      ensures a in r <==> a in s.cache && s.cache[a].number >= start
    {
      if a in r {
        var i :| 0 <= i < n && r[i] == a;
        assert s.cache[a] == l[i];
      }
      if a in s.cache && s.cache[a].number >= start {
        var i := Locate(s, l, a);
        assert r[i] == a;
      }
    }
  }

  lemma {:induction false} EvictKeepsValues(s: Store, max: nat)
    requires 1 <= max
    ensures var t := Evict(s, max); forall a | a in t.cache :: a in s.cache && t.cache[a] == s.cache[a]
    decreases |s.index|
  {
    if |s.index| >= max {
      RemoveShrinks(s.index, MinKey(s.index));
      EvictKeepsValues(EvictOne(s), max);
    }
  }

  /** An entry found after a run is either older than the run, and then unchanged, or it was
      numbered during the run. */
  lemma {:induction false} RunNumbers(s: Store, ops: seq<Op>, max: nat, a: Address)
    requires 1 <= max && NoClear(ops)
    ensures var t := Run(s, ops, max);
      && s.last <= t.last
      && (a in t.cache ==> t.cache[a].number > s.last || (a in s.cache && t.cache[a] == s.cache[a]))
    decreases |ops|
  {
    if ops != [] {
      var t := Step(s, ops[0], max);
      RunNumbers(t, ops[1..], max, a);
      EvictKeepsValues(s, max);
    }
  }

  ghost predicate UpdatedIn(ops: seq<Op>, a: Address) {
    exists i | 0 <= i < |ops| :: ops[i].DoUpdate? && ops[i].a == a
  }

  lemma {:induction false} UpdatedIsNewer(s: Store, ops: seq<Op>, max: nat, a: Address)
    requires 1 <= max && NoClear(ops) && UpdatedIn(ops, a)
    ensures a in Run(s, ops, max).cache ==> Run(s, ops, max).cache[a].number > s.last
    decreases |ops|
  {
    var t := Step(s, ops[0], max);
    if ops[0].DoUpdate? && ops[0].a == a {
      RunNumbers(t, ops[1..], max, a);
      assert t.cache[a].number == s.last + 1 == t.last;
    } else {
      var i :| 0 <= i < |ops| && ops[i].DoUpdate? && ops[i].a == a;
      assert ops[1..][i - 1] == ops[i];
      UpdatedIsNewer(t, ops[1..], max, a);
      RunNumbers(s, [ops[0]], max, a);
      assert [ops[0]][1..] == [];
      assert Run(s, [ops[0]], max) == Run(t, [], max) == t;
    }
  }

  /** A client that polls with the `end` of its previous report misses nothing: every address
      updated since then that is still cached is in the new report. */
  lemma PollingMissesNothing(s: Store, l: seq<Entry>, ops: seq<Op>, max: nat, a: Address)
    requires 1 <= max && Agree(s, l) && |l| <= max && NoClear(ops) && UpdatedIn(ops, a)
    ensures var t := Run(s, ops, max);
      a in t.cache ==> a in Report(t.index, s.last)
  {
    var t := Run(s, ops, max);
    RunAgrees(s, l, ops, max);
    UpdatedIsNewer(s, ops, max, a);
    ReportIsExact(t, RunList(l, s.last, ops, max), s.last);
  }

  /** After Clear the cache is no LRU cache any more: with room for two addresses, the update of a
      second address throws out the one updated just before it. */
  lemma ClearBreaksLru(a: Address, b: Address, data: Bytes)
    requires a != b
    ensures var s := Run(Empty(), [DoUpdate(a, 0, data, 0), DoClear, DoUpdate(a, 0, data, 0)], 2);
      var t := Update(s, b, 0, data, 0, 2);
      a in s.cache && a !in t.cache && |s.cache| == 1
  {
    var s0 := Empty();
    var s1 := Update(s0, a, 0, data, 0, 2);
    var s2 := Clear(s1);
    var s3 := Update(s2, a, 0, data, 0, 2);
    var ops := [DoUpdate(a, 0, data, 0), DoClear, DoUpdate(a, 0, data, 0)];
    assert ops[1..] == [DoClear, DoUpdate(a, 0, data, 0)] && ops[1..][1..] == [ops[2]] && ops[1..][1..][1..] == [];
    assert Run(s0, ops, 2) == Run(s1, ops[1..], 2) == Run(s2, ops[1..][1..], 2) == Run(s3, [], 2);
    assert s1.index == map[1 := a];
    assert s3.index == map[1 := a, 2 := a];
    assert s3.index.Keys == {1, 2};
    assert MinKey(s3.index) == 1;
    RemoveShrinks(s3.index, 1);
    var s4 := EvictOne(s3);
    assert a !in s4.cache;
    assert Evict(s3, 2) == Evict(s4, 2) == s4;
  }

  // ------------------------------------------------------------- the object

  /** A group write or response carrying a value: T_DATA_XXX_REQ, APCI response or write. */
  predicate CarriesValue(data: Bytes) {
    Tpdu.FromPacket(data).DataXxx? && |data| >= 2 && data[0] % 4 == 0 && (data[1] / 64 == 1 || data[1] / 64 == 2)
  }

  /** Which APDUs are cached: responses (0x40) and writes (0x80) with up to six bits of value in the
      second byte or more bytes behind it, and no reads, memory accesses or connected data. */
  lemma CachedApdus(data: Bytes)
    ensures CarriesValue(data) <==> |data| >= 2 && data[0] == 0 && 0x40 <= data[1] <= 0xBF
  {
  }

  /** Where an ordered map's iteration starts. */
  method FirstKey(m: map<nat, Address>) returns (k: nat)
    requires m != map[]
    ensures k == MinKey(m)
  {
    ghost var first := MinKey(m);
    k :| k in m && forall j | j in m :: k <= j;
    assert k <= first <= k;
  }

  /** Where an ordered map's iteration ends. */
  method LastKey(m: map<nat, Address>) returns (k: nat)
    requires m != map[]
    ensures k == MaxKey(m)
  {
    ghost var last := MaxKey(m);
    k :| k in m && forall j | j in m :: j <= k;
    assert last <= k <= last;
  }

  class Cache {
    var cache: map<Address, Entry>
    var index: map<nat, Address>
    var last: nat
    var enable: bool
    const maxsize: nat
    var nexts: nat

    function State(): Store
      reads this
    {
      Store(cache, index, last)
    }

    constructor (max: nat)
      ensures State() == Empty() && maxsize == max && !enable && nexts == 0
    {
      cache, index, last, enable, maxsize, nexts := map[], map[], 0, false, max, 0;
    }

    method DropOldest()
      requires |index| >= 1
      modifies this
      ensures State() == EvictOne(old(State())) && |index| == old(|index|) - 1
      ensures last == old(last) && enable == old(enable) && nexts == old(nexts)
    {
      var k := FirstKey(index);
      RemoveShrinks(index, k);
      cache := cache - {index[k]};
      index := index - {k};
    }

    /** The eviction loop. */
    method EvictOldest()
      requires 1 <= maxsize
      modifies this
      ensures State() == Evict(old(State()), maxsize)
      ensures last == old(last) && enable == old(enable) && nexts == old(nexts)
    {
      while |index| >= maxsize
        invariant Evict(State(), maxsize) == Evict(old(State()), maxsize)
        invariant last == old(last) && enable == old(enable) && nexts == old(nexts)
        decreases |index|
      {
        DropOldest();
      }
    }

    /** Fewer than 2^32 updates, so that the update number does not wrap. */
    method SendLData(l: LData, now: int)
      requires 1 <= maxsize && last < MAX_SEQ
      modifies this
      ensures enable == old(enable) && nexts == old(nexts) + 1
      ensures State() == if old(enable) && CarriesValue(l.data)
                         then Update(old(State()), l.dest, l.source, l.data, now, maxsize)
                         else old(State())
    {
      if enable && CarriesValue(l.data) {
        if l.dest !in cache {
          EvictOldest();
        } else {
          index := index - {cache[l.dest].number};
        }
        last := last + 1;
        cache := cache[l.dest := Entry(l.dest, l.source, l.data, now, last)];
        index := index[last := l.dest];
      }
      nexts := nexts + 1;
    }

    method RemoveAddress(a: Address)
      modifies this
      ensures State() == Remove(old(State()), a)
      ensures enable == old(enable) && nexts == old(nexts)
    {
      if a in cache {
        index := index - {cache[a].number};
        cache := cache - {a};
      }
    }

    method ClearAll()
      modifies this
      ensures State() == Clear(old(State()))
      ensures enable == old(enable) && nexts == old(nexts)
    {
      cache := map[];
    }

    /** GCTracker::handler: walk the index backwards from its end. */
    method LastUpdates(start: nat) returns (a: seq<Address>, end: nat)
      ensures a == Report(index, start) && end == last
    {
      a := [];
      var rest := index;
      while rest != map[]
        invariant forall k | k in rest :: k in index && rest[k] == index[k]
        invariant a + Report(rest, start) == Report(index, start)
        decreases |rest|
      {
        var k := LastKey(rest);
        if k < start {
          break;
        }
        RemoveShrinks(rest, k);
        a := a + [rest[k]];
        var below := rest - {k};
        if k == start {
          assert Report(below, start) == [];
          break;
        }
        rest := below;
      }
      end := last;
    }
  }
}
