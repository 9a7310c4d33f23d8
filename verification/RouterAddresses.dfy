/** Who owns which individual address: learning, client address allocation and the choice of links
    a frame goes out on (src/libserver/router.cpp, link.h, eibnetserver.cpp). */
module RouterAddresses {
  import opened KnxTypes
  import Mod = Modulo

  /** Bus: a driver with a whole bus behind it, which remembers every source address it has seen.
      Single: a client with one address. Server: creates links, never carries frames.
      Cache: the group cache. */
  datatype Kind =
    | Bus(addrs: set<Address>)
    | Single(one: Address, writeOnly: bool)
    | Server(route: bool)
    | Cache(mine: Address)

  /** `lease` is the allocated address the link stands for (0: none): a tunnel gives it back when it
      stops, a client connection when it closes. */
  datatype Link = Link(kind: Kind, addr: Address, isLocal: bool, up: bool, lease: Address)

  /** A frame accepted from a link, waiting to be forwarded. */
  datatype Queued = Queued(frame: LData, from: nat)

  /** `taken` marks the allocated positions of the client block; `pending` are the addresses held by
      clients that have no registered link at the moment, one for each such client. */
  datatype Table = Table(
    own: Address,
    links: map<nat, Link>,
    nextId: nat,
    start: Address,
    pos: nat,
    taken: seq<bool>,
    pending: multiset<Address>,
    buf: seq<Queued>)

  const UNPROGRAMMED: Address := 0xFFFF

  predicate Has(l: Link, a: Address) {
    match l.kind
    case Bus(addrs) => a in addrs
    case Single(one, _) => a == one
    case Server(_) => false
    case Cache(mine) => a == mine
  }

  predicate Checks(l: Link, a: Address) {
    match l.kind
    case Bus(_) => true
    case Single(one, writeOnly) => !writeOnly && a == one
    case Server(route) => route
    case Cache(_) => false
  }

  predicate ChecksGroup(l: Link, a: Address) {
    match l.kind
    case Bus(_) => true
    case Single(_, writeOnly) => !writeOnly
    case Server(route) => route
    case Cache(_) => true
  }

  predicate Known(links: map<nat, Link>, a: Address) {
    exists i | i in links :: Has(links[i], a)
  }

  /** In the client address block. */
  predicate InBlock(t: Table, a: Address) {
    t.start <= a < t.start + |t.taken|
  }

  // ------------------------------------------------------------- receiving

  /** A frame without source gets the link's address, or else the router's own. */
  function WithSource(t: Table, id: nat, l: LData): LData
    requires id in t.links
  {
    if l.source != 0 then l
    else if t.links[id].addr != 0 then l.(source := t.links[id].addr)
    else l.(source := t.own)
  }

  datatype Verdict = Reject | Accept | Learn

  /** recv_L_Data's decision, for a frame whose source has been filled in. */
  function Judge(t: Table, id: nat, l: LData): Verdict
    requires id in t.links
  {
    if l.source == t.own then (if t.links[id].isLocal then Accept else Reject)
    else if exists i | i in t.links && i != id :: Has(t.links[i], l.source) then Reject
    else if Has(t.links[id], l.source) then Accept
    else if InBlock(t, l.source) then Reject
    else if l.source != UNPROGRAMMED then Learn
    else Accept
  }

  function AddAddress(l: Link, a: Address): Link {
    if l.kind.Bus? then l.(kind := Bus(l.kind.addrs + {a})) else l
  }

  function Receive(t: Table, id: nat, l: LData): Table
    requires id in t.links
  {
    if l.addressType == Individual && l.dest == 0 then t
    else
      var m := WithSource(t, id, l);
      match Judge(t, id, m)
      case Reject => t
      case Accept => t.(buf := t.buf + [Queued(m, id)])
      case Learn => t.(links := t.links[id := AddAddress(t.links[id], m.source)], buf := t.buf + [Queued(m, id)])
  }

  // ------------------------------------------------------------- forwarding

  /** The destination is the router itself or known on a link other than the sender's. */
  predicate Found(t: Table, l: LData) {
    l.dest == t.own ||
    (l.dest != UNPROGRAMMED && exists i | i in t.links :: !Has(t.links[i], l.source) && Has(t.links[i], l.dest))
  }

  /** The links send_L_Data hands a frame to. With hop count 7 an individually addressed frame
      goes only where its destination is known. */
  function Targets(t: Table, l: LData): set<nat> {
    set i | i in t.links && t.links[i].up && !Has(t.links[i], l.source) &&
            (if l.addressType == Group then l.hopCount == 7 || ChecksGroup(t.links[i], l.dest)
             else if l.hopCount == 7 || Found(t, l) then Has(t.links[i], l.dest)
             else Checks(t.links[i], l.dest))
  }

  // ------------------------------------------------------------- client addresses

  /** The address at a position of the block, truncated to 16 bits. */
  function BlockAddress(t: Table, p: nat): Address {
    AddressAt(t.start, p)
  }

  function AddressAt(start: Address, p: nat): Address {
    (start + p) % 0x10000
  }

  predicate Available(t: Table, p: nat)
    requires p < |t.taken|
  {
    !t.taken[p] && BlockAddress(t, p) != t.own && !Known(t.links, BlockAddress(t, p))
  }

  /** The k-th position after the last one issued. */
  function After(t: Table, k: nat): nat
    requires t.taken != []
  {
    (t.pos + k) % |t.taken|
  }

  /** The distance to the first available position, searching from distance `k`; more than the
      block's length if there is none. */
  function FirstFrom(t: Table, k: nat): (r: nat)
    requires t.taken != [] && 1 <= k <= |t.taken| + 1
    ensures k <= r <= |t.taken| + 1
    ensures forall j | k <= j < r :: !Available(t, After(t, j))
    ensures r <= |t.taken| ==> Available(t, After(t, r))
    decreases |t.taken| + 1 - k
  {
    if k > |t.taken| || Available(t, After(t, k)) then k else FirstFrom(t, k + 1)
  }

  /** get_client_addr: the new table and the address, 0 if there is none. */
  function Allocate(t: Table): (Table, Address) {
    if t.taken == [] then (t, 0)
    else
      var k := FirstFrom(t, 1);
      if k > |t.taken| then (t, 0)
      else
        var p := After(t, k);
        var a := BlockAddress(t, p);
        (t.(pos := p, taken := t.taken[p := true], pending := if a == 0 then t.pending else t.pending + multiset{a}), a)
  }

  /** release_client_addr; an address that is not allocated is reported and ignored. */
  function Release(t: Table, a: Address): Table {
    if InBlock(t, a) && t.taken[a - t.start] then t.(taken := t.taken[a - t.start := false]) else t
  }

  // ------------------------------------------------------------- runs

  /** A client connects and is allocated an address, and later registers a link for it; a tunnel is
      opened, which allocates and registers at once; another link is registered; a tunnel stops and
      is dropped; a client's link is dropped while the client keeps its address; a client closes,
      with its link still registered or without. */
  datatype Event =
    | Recv(id: nat, l: LData)
    | Alloc
    | OpenTunnel
    | OpenSingle(a: Address, writeOnly: bool)
    | OpenOther(link: Link)
    | GiveBack(id: nat)
    | Drop(id: nat)
    | CloseClient(a: Address)
    | SetAddr(id: nat, a: Address)
    | SetUp(id: nat, up: bool)
    | Forward

  /** A configured link, or one without address, claims nothing but 0 and the router's own. */
  ghost predicate ClaimsNothing(t: Table, l: Link) {
    l.lease == 0 && !l.kind.Single? && forall a: Address | Has(l, a) :: a == 0 || a == t.own
  }

  /** When an event can happen. A single-address link asserts that it is never taught a second
      address; a tunnel is dropped only after it gave its address back. */
  ghost predicate Enabled(t: Table, e: Event) {
    match e
    case Recv(id, l) =>
      id in t.links && (Judge(t, id, WithSource(t, id, l)).Learn? ==> t.links[id].kind.Bus?)
    case Alloc => true
    case OpenTunnel => true
    case OpenSingle(a, _) => a in t.pending
    case OpenOther(link) => ClaimsNothing(t, link)
    case GiveBack(id) => id in t.links && t.links[id].lease != 0
    case Drop(id) => id in t.links && (t.links[id].kind.Single? || t.links[id].lease == 0)
    case CloseClient(a) => a in t.pending
    case SetAddr(id, _) => id in t.links
    case SetUp(id, _) => id in t.links
    case Forward => t.buf != []
  }

  function Register(t: Table, l: Link): Table {
    t.(links := t.links[t.nextId := l], nextId := t.nextId + 1)
  }

  function Tunnel(a: Address): Link {
    Link(Bus({a}), 0, false, false, a)
  }

  function Client(a: Address, writeOnly: bool): Link {
    Link(Single(a, writeOnly), a, false, false, a)
  }

  function Step(t: Table, e: Event): Table
    requires (e.Recv? || e.GiveBack? || e.Drop? || e.SetAddr? || e.SetUp?) ==> e.id in t.links
    requires e.Forward? ==> t.buf != []
  {
    match e
    case Recv(id, l) => Receive(t, id, l)
    case Alloc => Allocate(t).0
    case OpenTunnel =>
      var (u, a) := Allocate(t);
      if a == 0 then u else Register(u, Tunnel(a)).(pending := t.pending)
    case OpenSingle(a, w) => Register(t, Client(a, w)).(pending := t.pending - multiset{a})
    case OpenOther(link) => Register(t, link)
    case GiveBack(id) =>
      Release(t, t.links[id].lease).(links := t.links[id := t.links[id].(lease := 0)])
    case Drop(id) =>
      var lease := t.links[id].lease;
      t.(links := t.links - {id}, pending := if lease != 0 then t.pending + multiset{lease} else t.pending)
    case CloseClient(a) => Release(t, a).(pending := t.pending - multiset{a})
    case SetAddr(id, a) => t.(links := t.links[id := t.links[id].(addr := a)])
    case SetUp(id, up) => t.(links := t.links[id := t.links[id].(up := up)])
    case Forward => t.(buf := t.buf[1..])
  }

  /** The router as it starts: no link, and the search begins at the first position. */
  function Empty(own: Address, start: Address, len: nat): Table {
    Table(own, map[], 0, start, if len == 0 then 0 else len - 1, seq(len, _ => false), multiset{}, [])
  }

  ghost function Run(t: Table, events: seq<Event>): Table
    decreases |events|
  {
    if events == [] then t
    else Run(if Enabled(t, events[0]) then Step(t, events[0]) else t, events[1..])
  }

  // ------------------------------------------------------------- what holds for every block

  /** The source of a queued frame is claimed by the link it came from. */
  ghost predicate OriginOk(t: Table, q: Queued) {
    && q.from < t.nextId
    && (q.frame.source != UNPROGRAMMED && q.frame.source != t.own && q.from in t.links ==>
          Has(t.links[q.from], q.frame.source))
  }

  ghost predicate Base(t: Table) {
    && (t.taken != [] ==> t.pos < |t.taken|)
    && (forall i | i in t.links :: i < t.nextId)
    && (forall k | 0 <= k < |t.buf| :: OriginOk(t, t.buf[k]))
  }

  /** No link ever forgets an address. */
  lemma NoneForgotten(t: Table, e: Event, i: nat, a: Address)
    requires Enabled(t, e) && i in t.links && i < t.nextId && i in Step(t, e).links && Has(t.links[i], a)
    ensures Has(Step(t, e).links[i], a)
  {
  }

  /** An accepted frame comes from a link that claims its source by then. */
  lemma AcceptedHasOrigin(t: Table, id: nat, l: LData)
    requires Enabled(t, Recv(id, l)) && id < t.nextId
    ensures var u := Receive(t, id, l);
      u.buf == t.buf || (|u.buf| == |t.buf| + 1 && u.buf[..|t.buf|] == t.buf && OriginOk(u, u.buf[|t.buf|]))
  {
  }

  lemma StepKeepsOrigins(t: Table, e: Event)
    requires Base(t) && Enabled(t, e)
    ensures var u := Step(t, e); forall k | 0 <= k < |u.buf| :: OriginOk(u, u.buf[k])
  {
    var u := Step(t, e);
    if e.Recv? {
      AcceptedHasOrigin(t, e.id, e.l);
    }
    forall k | 0 <= k < |u.buf|
      ensures OriginOk(u, u.buf[k])
    {
      var j := if e.Forward? then k + 1 else k;
      if j < |t.buf| {
        var q := t.buf[j];
        assert OriginOk(t, q) && u.buf[k] == q;
        if q.frame.source != UNPROGRAMMED && q.frame.source != t.own && q.from in u.links {
          KnownBefore(t, e, q.from);
          NoneForgotten(t, e, q.from, q.frame.source);
        }
      }
    }
  }

  /** A link with an old number was there before. */
  lemma KnownBefore(t: Table, e: Event, i: nat)
    requires Enabled(t, e) && i < t.nextId && i in Step(t, e).links
    ensures i in t.links
  {
  }

  /** Numbers of links are never used again. */
  lemma StepKeepsIds(t: Table, e: Event, i: nat)
    requires Enabled(t, e) && i in Step(t, e).links && (i in t.links ==> i < t.nextId)
    ensures i < Step(t, e).nextId
  {
    AllocShape(t);
    hide Has, Judge, Allocate;
  }

  lemma StepKeepsBlock(t: Table, e: Event)
    requires Enabled(t, e)
    ensures var u := Step(t, e);
      u.own == t.own && u.start == t.start && |u.taken| == |t.taken| && (u.pos == t.pos || u.pos < |u.taken|)
  {
    AllocShape(t);
    hide Has, Judge, Allocate;
  }

  lemma StepKeepsBase(t: Table, e: Event)
    requires Base(t) && Enabled(t, e)
    ensures Base(Step(t, e)) && Step(t, e).own == t.own && Step(t, e).start == t.start && |Step(t, e).taken| == |t.taken|
  {
    StepKeepsOrigins(t, e);
    StepKeepsBlock(t, e);
    forall i | i in Step(t, e).links ensures i < Step(t, e).nextId { StepKeepsIds(t, e, i); }
    hide OriginOk, Step;
  }

  /** Allocation moves the search and marks a position, and touches nothing else. */
  lemma AllocShape(t: Table)
    ensures var u := Allocate(t).0;
      && u == t.(pos := u.pos, taken := u.taken, pending := u.pending) && |u.taken| == |t.taken|
      && (u.pos == t.pos || u.pos < |t.taken|)
  {
    hide Available, BlockAddress;
  }

  lemma AllocPending(t: Table)
    ensures var (u, a) := Allocate(t);
      a != 0 ==> a in u.pending && u.pending - multiset{a} == t.pending
  {
    hide Available, BlockAddress;
    var (u, a) := Allocate(t);
    if a != 0 {
      assert u.pending == t.pending + multiset{a};
      assert u.pending - multiset{a} == t.pending;
    }
  }

  lemma {:induction false} RunKeepsBase(t: Table, events: seq<Event>)
    requires Base(t)
    ensures var u := Run(t, events); Base(u) && u.own == t.own && u.start == t.start && |u.taken| == |t.taken|
    decreases |events|
  {
    hide Base, Step;
    if events != [] {
      if Enabled(t, events[0]) {
        StepKeepsBase(t, events[0]);
        RunKeepsBase(Step(t, events[0]), events[1..]);
      } else {
        RunKeepsBase(t, events[1..]);
      }
    }
  }

  /** A frame in the queue is never sent back to the link it came from, whatever happened since it
      was accepted and whatever the router changed of it but its source. */
  lemma NoEcho(own: Address, start: Address, len: nat, events: seq<Event>, k: nat, l: LData)
    requires var u := Run(Empty(own, start, len), events); k < |u.buf| && l.source == u.buf[k].frame.source
    requires l.source != UNPROGRAMMED && l.source != own
    ensures var u := Run(Empty(own, start, len), events); u.buf[k].from !in Targets(u, l)
  {
    RunKeepsBase(Empty(own, start, len), events);
    var u := Run(Empty(own, start, len), events);
    assert OriginOk(u, u.buf[k]);
  }

  // ------------------------------------------------------------- unique ownership

  /** Each address other than 0 and the router's own is claimed by at most one registered link. */
  ghost predicate Unique(t: Table) {
    forall i, j, a: Address | i in t.links && j in t.links && i != j && a != 0 && a != t.own ::
      !(Has(t.links[i], a) && Has(t.links[j], a))
  }

  /** Every position of the block past the last address is cut down to an address nobody gets: 0,
      which means that there is none, or the router's own. */
  predicate Fits(own: Address, start: Address, len: nat) {
    forall p | 0 <= p < len && start + p >= 0x10000 :: AddressAt(start, p) == 0 || AddressAt(start, p) == own
  }

  /** An address of the block, marked as allocated. */
  predicate Marked(t: Table, a: Address) {
    a != 0 && a != t.own && InBlock(t, a) && t.taken[a - t.start]
  }

  ghost predicate LinkOk(t: Table, i: nat)
    requires i in t.links
  {
    && i < t.nextId
    && (t.links[i].lease != 0 ==> t.links[i].lease != t.own && Has(t.links[i], t.links[i].lease))
    && (t.links[i].kind.Single? && t.links[i].lease != 0 ==> Marked(t, t.links[i].lease))
  }

  /** What a client without link relies on: its address is its own. */
  ghost predicate PendingOk(t: Table, a: Address) {
    t.pending[a] == 1 && Marked(t, a) && !Known(t.links, a)
  }

  ghost predicate Inv(t: Table) {
    && Fits(t.own, t.start, |t.taken|)
    && Unique(t)
    && (forall i | i in t.links :: LinkOk(t, i))
    && (forall a | a in t.pending :: PendingOk(t, a))
  }

  /** Replacing a link by one with the same addresses changes nothing that matters here. */
  lemma ReplaceKeeps(t: Table, id: nat, l: Link)
    requires Inv(t) && id in t.links
    requires l.kind == t.links[id].kind && (l.lease == t.links[id].lease || l.lease == 0)
    ensures Inv(t.(links := t.links[id := l]))
  {
    var u := t.(links := t.links[id := l]);
    assert forall i | i in u.links :: i in t.links && (forall a: Address :: Has(u.links[i], a) == Has(t.links[i], a));
    forall i | i in u.links ensures LinkOk(u, i) { assert LinkOk(t, i); }
    forall b | b in u.pending ensures PendingOk(u, b) { assert PendingOk(t, b); }
  }

  lemma LearnKeeps(t: Table, id: nat, a: Address)
    requires Inv(t) && id in t.links && t.links[id].kind.Bus?
    requires a != t.own && !InBlock(t, a)
    requires forall i | i in t.links && i != id :: !Has(t.links[i], a)
    ensures Inv(t.(links := t.links[id := AddAddress(t.links[id], a)]))
  {
    var l := AddAddress(t.links[id], a);
    var u := t.(links := t.links[id := l]);
    assert forall i, b: Address | i in u.links :: Has(u.links[i], b) <==> Has(t.links[i], b) || (i == id && b == a);
    forall i | i in u.links ensures LinkOk(u, i) { assert LinkOk(t, i); }
    forall b | b in u.pending ensures PendingOk(u, b) { assert PendingOk(t, b); }
  }

  /** The queue of frames plays no part. */
  lemma BufKeeps(t: Table, buf: seq<Queued>)
    requires Inv(t)
    ensures Inv(t.(buf := buf))
  {
    var u := t.(buf := buf);
    forall i | i in u.links ensures LinkOk(u, i) { assert LinkOk(t, i); }
    forall b | b in u.pending ensures PendingOk(u, b) { assert PendingOk(t, b); }
  }

  lemma ReceiveKeeps(t: Table, id: nat, l: LData)
    requires Inv(t) && Enabled(t, Recv(id, l))
    ensures Inv(Receive(t, id, l))
  {
    if !(l.addressType == Individual && l.dest == 0) {
      var m := WithSource(t, id, l);
      match Judge(t, id, m)
      case Reject =>
      case Accept => BufKeeps(t, t.buf + [Queued(m, id)]);
      case Learn =>
        LearnKeeps(t, id, m.source);
        BufKeeps(t.(links := t.links[id := AddAddress(t.links[id], m.source)]), t.buf + [Queued(m, id)]);
    }
  }

  /** Registering a link whose addresses nobody claims and nobody waits for. */
  lemma RegisterKeeps(t: Table, l: Link)
    requires Inv(t)
    requires forall a: Address | Has(l, a) && a != 0 && a != t.own :: !Known(t.links, a) && a !in t.pending
    requires l.lease != 0 ==> l.lease != t.own && Has(l, l.lease)
    requires l.kind.Single? && l.lease != 0 ==> Marked(t, l.lease)
    ensures Inv(Register(t, l))
  {
    var u := Register(t, l);
    assert forall i | i in t.links :: LinkOk(t, i) && i < t.nextId;
    forall i | i in u.links ensures LinkOk(u, i) { if i != t.nextId { assert LinkOk(t, i); } }
    forall i, j, a: Address | i in u.links && j in u.links && i != j && a != 0 && a != u.own
      ensures !(Has(u.links[i], a) && Has(u.links[j], a))
    {
      if i == t.nextId && Has(l, a) {
        assert !Known(t.links, a);
      } else if j == t.nextId && Has(l, a) {
        assert !Known(t.links, a);
      }
    }
    forall b | b in u.pending ensures PendingOk(u, b) { assert PendingOk(t, b); }
  }

  /** A client stops waiting; nobody waits for its address then. */
  lemma FewerPending(t: Table, a: Address)
    requires Inv(t) && a in t.pending
    ensures Inv(t.(pending := t.pending - multiset{a})) && a !in t.pending - multiset{a}
  {
    var u := t.(pending := t.pending - multiset{a});
    assert PendingOk(t, a);
    forall i | i in u.links ensures LinkOk(u, i) { assert LinkOk(t, i); }
    forall b | b in u.pending ensures PendingOk(u, b) { assert b in t.pending && PendingOk(t, b); }
  }

  /** Giving back an address that no client relies on. */
  lemma ReleaseKeeps(t: Table, a: Address)
    requires Inv(t) && a !in t.pending
    requires forall i | i in t.links && t.links[i].kind.Single? :: t.links[i].lease != a
    ensures Inv(Release(t, a))
  {
    var u := Release(t, a);
    forall b: Address | b != a && Marked(t, b) ensures Marked(u, b) {}
    forall i | i in u.links ensures LinkOk(u, i) { assert LinkOk(t, i); }
    forall b | b in u.pending ensures PendingOk(u, b) { assert PendingOk(t, b); }
  }

  /** A leased address is nobody else's. */
  lemma LeaseIsOwn(t: Table, id: nat)
    requires Inv(t) && id in t.links && t.links[id].lease != 0
    ensures t.links[id].lease !in t.pending
    ensures forall i | i in t.links && i != id :: t.links[i].lease != t.links[id].lease
  {
    var lease := t.links[id].lease;
    assert LinkOk(t, id);
    assert Known(t.links, lease);
    assert lease in t.pending ==> PendingOk(t, lease);
    forall i | i in t.links && i != id ensures t.links[i].lease != lease { assert LinkOk(t, i); }
  }

  /** A link that gave its address back keeps claiming it until it is dropped. */
  lemma GiveBackKeeps(t: Table, id: nat)
    requires Inv(t) && Enabled(t, GiveBack(id))
    ensures Inv(Step(t, GiveBack(id)))
  {
    LeaseIsOwn(t, id);
    ReplaceKeeps(t, id, t.links[id].(lease := 0));
    hide Inv;
    var u := t.(links := t.links[id := t.links[id].(lease := 0)]);
    ReleaseKeeps(u, t.links[id].lease);
    assert Step(t, GiveBack(id)) == Release(u, t.links[id].lease);
  }

  lemma DropKeeps(t: Table, id: nat)
    requires Inv(t) && Enabled(t, Drop(id))
    ensures Inv(Step(t, Drop(id)))
  {
    var u := Step(t, Drop(id));
    var lease := t.links[id].lease;
    assert LinkOk(t, id);
    forall i | i in u.links ensures LinkOk(u, i) { assert LinkOk(t, i); }
    forall b | b in u.pending ensures PendingOk(u, b) {
      if b in t.pending {
        assert PendingOk(t, b);
        assert b != lease;
      } else {
        assert b == lease && Has(t.links[id], b);
      }
    }
  }

  lemma AllocKeeps(t: Table)
    requires Inv(t)
    ensures Inv(Allocate(t).0)
  {
    if t.taken != [] && FirstFrom(t, 1) <= |t.taken| {
      var (u, a) := Allocate(t);
      var p := After(t, FirstFrom(t, 1));
      assert a == t.start + p || a == 0;
      assert a in t.pending ==> PendingOk(t, a);
      forall b: Address | Marked(t, b) ensures Marked(u, b) {}
      forall i | i in u.links ensures LinkOk(u, i) { assert LinkOk(t, i); }
      forall b | b in u.pending ensures PendingOk(u, b) {
        if b in t.pending {
          assert PendingOk(t, b);
        }
      }
    }
  }

  /** An address a client waits with is nobody else's. */
  lemma PendingIsOwn(t: Table, a: Address)
    requires Inv(t) && a in t.pending
    ensures Marked(t, a) && !Known(t.links, a)
    ensures forall i | i in t.links :: t.links[i].lease != a
  {
    assert PendingOk(t, a);
    forall i | i in t.links ensures t.links[i].lease != a { assert LinkOk(t, i); }
  }

  lemma CloseKeeps(t: Table, a: Address)
    requires Inv(t) && a in t.pending
    ensures Inv(Step(t, CloseClient(a)))
  {
    hide Inv;
    PendingIsOwn(t, a);
    FewerPending(t, a);
    ReleaseKeeps(t.(pending := t.pending - multiset{a}), a);
  }

  lemma OpenKeeps(t: Table, a: Address, l: Link)
    requires Inv(t) && a in t.pending
    requires l == Tunnel(a) || l == Client(a, false) || l == Client(a, true)
    ensures Inv(Register(t, l).(pending := t.pending - multiset{a}))
  {
    hide Inv;
    PendingIsOwn(t, a);
    FewerPending(t, a);
    RegisterKeeps(t.(pending := t.pending - multiset{a}), l);
  }

  lemma StepKeepsInv(t: Table, e: Event)
    requires Inv(t) && Enabled(t, e)
    ensures Inv(Step(t, e))
  {
    hide Inv;
    match e
    case Recv(id, l) => ReceiveKeeps(t, id, l);
    case Alloc => AllocKeeps(t);
    case OpenTunnel =>
      AllocKeeps(t);
      var (u, a) := Allocate(t);
      if a != 0 {
        AllocPending(t);
        OpenKeeps(u, a, Tunnel(a));
      }
    case OpenSingle(a, w) => OpenKeeps(t, a, Client(a, w));
    case OpenOther(link) => RegisterKeeps(t, link);
    case GiveBack(id) => GiveBackKeeps(t, id);
    case Drop(id) => DropKeeps(t, id);
    case CloseClient(a) => CloseKeeps(t, a);
    case SetAddr(id, a) => ReplaceKeeps(t, id, t.links[id].(addr := a));
    case SetUp(id, up) => ReplaceKeeps(t, id, t.links[id].(up := up));
    case Forward => BufKeeps(t, t.buf[1..]);
  }

  lemma {:induction false} RunKeepsInv(t: Table, events: seq<Event>)
    requires Inv(t)
    ensures Inv(Run(t, events))
    decreases |events|
  {
    hide Inv, Step;
    if events != [] {
      if Enabled(t, events[0]) {
        StepKeepsInv(t, events[0]);
        RunKeepsInv(Step(t, events[0]), events[1..]);
      } else {
        RunKeepsInv(t, events[1..]);
      }
    }
  }

  // ------------------------------------------------------------- blocks that do not fit

  lemma {:induction false} RunConcat(t: Table, a: seq<Event>, b: seq<Event>)
    ensures Run(t, a + b) == Run(Run(t, a), b)
    decreases |a|
  {
    hide Step;
    if a == [] {
      assert a + b == b;
    } else {
      assert (a + b)[1..] == a[1..] + b;
      RunConcat(if Enabled(t, a[0]) then Step(t, a[0]) else t, a[1..], b);
    }
  }

  lemma RunOne(t: Table, e: Event)
    requires Enabled(t, e)
    ensures Run(t, [e]) == Step(t, e)
  {
    hide Step;
    assert [e][1..] == [];
  }

  lemma RunTwo(t: Table, e: Event, f: Event)
    requires Enabled(t, e) && Enabled(Step(t, e), f)
    ensures Run(t, [e, f]) == Step(Step(t, e), f)
  {
    hide Run;
    RunOne(t, e);
    RunOne(Step(t, e), f);
    RunConcat(t, [e], [f]);
    assert [e, f] == [e] + [f];
  }

  /** The number of positions not taken. */
  function Free(taken: seq<bool>): nat {
    if taken == [] then 0 else Free(taken[1..]) + if taken[0] then 0 else 1
  }

  lemma {:induction false} FreeTaken(taken: seq<bool>, p: nat)
    requires p < |taken| && !taken[p]
    ensures Free(taken) == Free(taken[p := true]) + 1
    decreases taken
  {
    if p == 0 {
      assert taken[p := true][1..] == taken[1..];
    } else {
      FreeTaken(taken[1..], p - 1);
      assert taken[p := true][1..] == taken[1..][p - 1 := true];
    }
  }

  lemma {:induction false} FreeNone(taken: seq<bool>, p: nat)
    requires p < |taken| && !taken[p]
    ensures Free(taken) > 0
    decreases taken
  {
    if p > 0 {
      FreeNone(taken[1..], p - 1);
    }
  }

  lemma {:induction false} FreeBound(taken: seq<bool>)
    ensures Free(taken) <= |taken|
    decreases taken
  {
    if taken != [] {
      FreeBound(taken[1..]);
    }
  }

  function Allocs(n: nat): seq<Event> {
    seq(n, _ => Alloc)
  }

  /** Before any link is registered: an address is held as often as it was handed out. */
  ghost predicate Held(t: Table) {
    && t.links == map[] && t.nextId == 0 && t.buf == []
    && (t.taken != [] ==> t.pos < |t.taken|)
    && (forall p | 0 <= p < |t.taken| && t.taken[p] && BlockAddress(t, p) != 0 :: BlockAddress(t, p) in t.pending)
    && (forall p, q | 0 <= p < q < |t.taken| && t.taken[p] && t.taken[q] && BlockAddress(t, p) == BlockAddress(t, q) != 0 ::
          t.pending[BlockAddress(t, p)] >= 2)
  }

  lemma AllocHeld(t: Table)
    requires Held(t) && Allocate(t).0 != t
    ensures var u := Allocate(t).0; Held(u) && Free(u.taken) + 1 == Free(t.taken)
    ensures var u := Allocate(t).0; u.own == t.own && u.start == t.start && |u.taken| == |t.taken|
  {
    var p := After(t, FirstFrom(t, 1));
    FreeTaken(t.taken, p);
  }

  /** Allocating as often as there are positions takes them all, except where the router's own
      address is. */
  lemma {:induction false} AllocAll(t: Table, n: nat)
    requires Held(t) && Free(t.taken) <= n
    ensures var u := Run(t, Allocs(n));
      && Held(u) && u.own == t.own && u.start == t.start && |u.taken| == |t.taken|
      && forall p | 0 <= p < |u.taken| && BlockAddress(u, p) != u.own :: u.taken[p]
    decreases n
  {
    if n == 0 {
      forall p | 0 <= p < |t.taken| ensures t.taken[p] { if !t.taken[p] { FreeNone(t.taken, p); } }
    } else {
      assert Allocs(n)[0] == Alloc && Allocs(n)[1..] == Allocs(n - 1);
      var u := Step(t, Alloc);
      if u == t {
        NoneAvailable(t);
        AllocsIdle(t, n);
      } else {
        AllocHeld(t);
        AllocAll(u, n - 1);
      }
    }
  }

  lemma AllocChanges(t: Table)
    requires t.taken != [] && FirstFrom(t, 1) <= |t.taken|
    ensures Allocate(t).0 != t
  {
    var p := After(t, FirstFrom(t, 1));
    assert Allocate(t).0.taken[p] && !t.taken[p];
  }

  /** No address is handed out only if every position is taken or the router's own. */
  lemma NoneAvailable(t: Table)
    requires Held(t) && Allocate(t).0 == t
    ensures forall p | 0 <= p < |t.taken| && BlockAddress(t, p) != t.own :: t.taken[p]
  {
    if t.taken != [] {
      assert FirstFrom(t, 1) > |t.taken| by {
        if FirstFrom(t, 1) <= |t.taken| {
          AllocChanges(t);
        }
      }
      forall p | 0 <= p < |t.taken| && BlockAddress(t, p) != t.own
        ensures t.taken[p]
      {
        var j := SearchCovers(t, p);
        assert !Available(t, After(t, j));
      }
    }
  }

  lemma {:induction false} AllocsIdle(t: Table, n: nat)
    requires Allocate(t).0 == t
    ensures Run(t, Allocs(n)) == t
    decreases n
  {
    if n > 0 {
      assert Allocs(n)[0] == Alloc && Allocs(n)[1..] == Allocs(n - 1);
      AllocsIdle(t, n - 1);
    }
  }

  /** A link with a bus behind it, and a frame that comes from there. */
  const BUS_LINK := Link(Bus({}), 0, false, false, 0)

  function FrameFrom(a: Address): LData {
    LData(Low, false, true, true, Group, a, 1, 6, [0])
  }

  /** An address from beyond the end that is not recognised as a client address: a bus link learns
      it before the client that holds it registers its link. */
  lemma LearnedTwice(t: Table, a: Address)
    requires Held(t) && a in t.pending && a != 0 && a != t.own && a < t.start
    ensures !Unique(Run(t, [OpenOther(BUS_LINK), Recv(0, FrameFrom(a))] + [OpenSingle(a, false)]))
  {
    var t1 := Step(t, OpenOther(BUS_LINK));
    var t2 := Step(t1, Recv(0, FrameFrom(a)));
    assert t1.links == map[0 := BUS_LINK] && t1.links[0] == BUS_LINK;
    assert Judge(t1, 0, FrameFrom(a)) == Learn;
    RunTwo(t, OpenOther(BUS_LINK), Recv(0, FrameFrom(a)));
    assert t2.pending == t.pending && t2.nextId == 1 && Has(t2.links[0], a);
    var t3 := Step(t2, OpenSingle(a, false));
    RunOne(t2, OpenSingle(a, false));
    RunConcat(t, [OpenOther(BUS_LINK), Recv(0, FrameFrom(a))], [OpenSingle(a, false)]);
    assert Has(t3.links[0], a) && Has(t3.links[1], a);
  }

  /** An address that two positions of the block share: it is handed out twice. */
  lemma HandedOutTwice(t: Table, a: Address)
    requires Held(t) && t.pending[a] >= 2 && a != 0 && a != t.own
    ensures !Unique(Run(t, [OpenSingle(a, false), OpenSingle(a, false)]))
  {
    var t1 := Step(t, OpenSingle(a, false));
    assert t1.links == map[0 := Client(a, false)] && t1.nextId == 1;
    var t2 := Step(t1, OpenSingle(a, false));
    RunTwo(t, OpenSingle(a, false), OpenSingle(a, false));
    assert Has(t2.links[0], a) && Has(t2.links[1], a);
  }

  /** The run that breaks ownership for a block with a position `p` that does not fit. */
  function BreakingRun(start: Address, len: nat, p: nat): seq<Event> {
    var a := AddressAt(start, p);
    Allocs(len) +
    if a < start then [OpenOther(BUS_LINK), Recv(0, FrameFrom(a))] + [OpenSingle(a, false)]
    else [OpenSingle(a, false), OpenSingle(a, false)]
  }

  lemma EmptyHeld(own: Address, start: Address, len: nat)
    ensures var t := Empty(own, start, len);
      Held(t) && Free(t.taken) <= len && t.own == own && t.start == start && |t.taken| == len
  {
    FreeBound(Empty(own, start, len).taken);
  }

  /** An address at or above the start of the block is also where an earlier position points. */
  lemma SharedAddress(start: Address, p: nat)
    requires start + p >= 0x10000 && AddressAt(start, p) >= start
    ensures var q := AddressAt(start, p) - start; q < p && AddressAt(start, q) == AddressAt(start, p)
  {
  }

  lemma BlockBreaks(own: Address, start: Address, len: nat, p: nat)
    requires p < len && start + p >= 0x10000 && AddressAt(start, p) != 0 && AddressAt(start, p) != own
    ensures !Unique(Run(Empty(own, start, len), BreakingRun(start, len, p)))
  {
    hide AddressAt, Run, Empty, Unique, Allocs;
    var t := Empty(own, start, len);
    EmptyHeld(own, start, len);
    AllocAll(t, len);
    var u := Run(t, Allocs(len));
    var a := AddressAt(start, p);
    assert u.taken[p] && BlockAddress(u, p) in u.pending;
    if a < start {
      RunConcat(t, Allocs(len), [OpenOther(BUS_LINK), Recv(0, FrameFrom(a))] + [OpenSingle(a, false)]);
      LearnedTwice(u, a);
    } else {
      SharedAddress(start, p);
      var q := a - start;
      assert u.taken[q] && BlockAddress(u, q) == BlockAddress(u, p);
      RunConcat(t, Allocs(len), [OpenSingle(a, false), OpenSingle(a, false)]);
      HandedOutTwice(u, a);
    }
  }

  /** In every reachable state each address other than 0 and the router's own belongs to at most
      one registered link, also while a stopped tunnel waits to be dropped, if and only if no
      position of the client block past 0xFFFF is cut down to an address that can be handed out. */
  lemma OwnershipIffFits(own: Address, start: Address, len: nat)
    ensures (forall events :: Unique(Run(Empty(own, start, len), events))) <==> Fits(own, start, len)
  {
    var t := Empty(own, start, len);
    if Fits(own, start, len) {
      forall events
        ensures Unique(Run(t, events))
      {
        RunKeepsInv(t, events);
      }
    } else {
      var p :| 0 <= p < len && start + p >= 0x10000 && AddressAt(start, p) != 0 && AddressAt(start, p) != own;
      BlockBreaks(own, start, len, p);
    }
  }

  /** So the block may end at 0xFFFF or one position later, or two if the router's own address is 1. */
  lemma FitsExactly(own: Address, start: Address, len: nat)
    ensures Fits(own, start, len) <==> start + len <= 0x10001 || (start + len == 0x10002 && own == 1)
  {
    var last := 0x10000 - start;
    if start + len > 0x10001 {
      assert AddressAt(start, last) == 0 && AddressAt(start, last + 1) == 1;
      if start + len > 0x10002 {
        assert AddressAt(start, last + 2) == 2;
      }
    }
  }

  // ------------------------------------------------------------- fairness of the allocation

  /** (p + k) % n without the division, for one turn around the block. */
  lemma Around(n: nat, p: nat, k: nat)
    requires p < n && k <= n
    ensures (p + k) % n == if p + k < n then p + k else p + k - n
  {
    if p + k < n {
      Mod.ModSmall(n, p + k);
    } else {
      Mod.SubtractModulus(n, p + k);
      Mod.ModSmall(n, p + k - n);
    }
  }

  /** The search visits every position of the block, the last one issued at its very end. */
  lemma SearchCovers(t: Table, p: nat) returns (k: nat)
    requires t.pos < |t.taken| && p < |t.taken|
    ensures 1 <= k <= |t.taken| && After(t, k) == p
    ensures k == |t.taken| <==> p == t.pos
  {
    k := if p > t.pos then p - t.pos else p + |t.taken| - t.pos;
    Around(|t.taken|, t.pos, k);
  }

  /** In every reachable table: there is no address exactly when none is available; otherwise the
      first available one after the last one issued is taken. */
  lemma AllocateIsFirst(own: Address, start: Address, len: nat, events: seq<Event>)
    ensures var t := Run(Empty(own, start, len), events);
      var (u, a) := Allocate(t);
      if forall p | 0 <= p < |t.taken| :: !Available(t, p) then u == t && a == 0
      else
        && a == BlockAddress(t, u.pos)
        && exists k :: 1 <= k <= |t.taken| && u.pos == After(t, k) && Available(t, After(t, k)) &&
                       forall j | 1 <= j < k :: !Available(t, After(t, j))
  {
    RunKeepsBase(Empty(own, start, len), events);
    var t := Run(Empty(own, start, len), events);
    hide Run, Base;
    if t.taken != [] {
      PosInBlock(t);
      var k := FirstFrom(t, 1);
      assert k <= |t.taken| ==> Available(t, After(t, k));
      if p :| 0 <= p < |t.taken| && Available(t, p) {
        var j := SearchCovers(t, p);
        assert j >= k;
      }
    }
  }

  lemma PosInBlock(t: Table)
    requires Base(t) && t.taken != []
    ensures t.pos < |t.taken|
  {
  }

  /** In every reachable table the address issued last is issued again only when no other address of
      the block is available. */
  lemma LastIssuedIsLast(own: Address, start: Address, len: nat, events: seq<Event>)
    requires var t := Run(Empty(own, start, len), events); Allocate(t).0 != t && Allocate(t).0.pos == t.pos
    ensures var t := Run(Empty(own, start, len), events);
      forall p | 0 <= p < |t.taken| && p != t.pos :: !Available(t, p)
  {
    RunKeepsBase(Empty(own, start, len), events);
    var t := Run(Empty(own, start, len), events);
    hide Run, Base;
    var n := |t.taken|;
    PosInBlock(t);
    var k := FirstFrom(t, 1);
    Around(n, t.pos, k);
    assert k == n;
    forall p | 0 <= p < n && p != t.pos
      ensures !Available(t, p)
    {
      var j := SearchCovers(t, p);
      assert 1 <= j < k;
    }
  }

  // ------------------------------------------------------------- the object

  class Router {
    const own: Address
    var links: map<nat, Link>
    var nextId: nat
    const start: Address
    var pos: nat
    var taken: seq<bool>
    var pending: multiset<Address>
    var buf: seq<Queued>

    function State(): Table
      reads this
    {
      Table(own, links, nextId, start, pos, taken, pending, buf)
    }

    constructor (addr: Address, blockStart: Address, len: nat)
      ensures State() == Empty(addr, blockStart, len)
    {
      own, links, nextId, start := addr, map[], 0, blockStart;
      pos := if len == 0 then 0 else len - 1;
      taken, pending, buf := seq(len, _ => false), multiset{}, [];
    }

    /** hasAddress: is the address the router's own, or claimed by a link other than `skip`, whose own
        claim settles the matter otherwise? The claimant is reported, in whatever order the links come. */
    method HasAddress(a: Address, skip: Option<nat>) returns (found: bool, link: Option<nat>)
      requires skip.Some? ==> skip.value in links
      ensures found <==>
        a == own || (!(skip.Some? && Has(links[skip.value], a)) && Known(links, a))
      ensures if found && a != own then link.Some? && link.value in links && Has(links[link.value], a) else link == skip
    {
      link := skip;
      if a == own {
        return true, skip;
      }
      if skip.Some? && Has(links[skip.value], a) {
        return false, skip;
      }
      found := false;
      var todo := links.Keys;
      while todo != {}
        invariant todo <= links.Keys && !found && link == skip
        invariant forall i | i in links && i !in todo :: !Has(links[i], a)
        decreases todo
      {
        var i :| i in todo;
        todo := todo - {i};
        if skip != Some(i) && Has(links[i], a) {
          return true, Some(i);
        }
      }
    }

    /** recv_L_Data. With unique ownership it does not matter which claimant the search finds. */
    method RecvLData(frame: LData, id: nat)
      requires id in links && Inv(State()) && Enabled(State(), Recv(id, frame))
      modifies this
      ensures State() == Receive(old(State()), id, frame) && Inv(State())
    {
      ReceiveKeeps(State(), id, frame);
      hide Inv;
      if frame.addressType == Individual && frame.dest == 0 {
        return;
      }
      var l := frame;
      if l.source == 0 {
        l := l.(source := links[id].addr);
        if l.source == 0 {
          l := l.(source := own);
        }
      }
      if l.source == own {
        if !links[id].isLocal {
          return;
        }
      } else {
        var found, other := HasAddress(l.source, None);
        FoundClaimant(State(), id, l, found, if other.Some? then other.value else id);
        if found {
          if other != Some(id) {
            return;
          }
        } else if start <= l.source < start + |taken| {
          return;
        } else if l.source != UNPROGRAMMED {
          links := links[id := AddAddress(links[id], l.source)];
        }
      }
      buf := buf + [Queued(l, id)];
    }

    /** Is the position free, and its address nobody's? */
    method IsFree(p: nat) returns (free: bool)
      requires p < |taken|
      ensures free <==> Available(State(), p)
    {
      var a := (start + p) % 0x10000;
      if taken[p] || a == own {
        return false;
      }
      var found, _ := HasAddress(a, None);
      return !found;
    }

    /** get_client_addr. */
    method GetClientAddr() returns (a: Address)
      requires Inv(State())
      modifies this
      ensures State() == Allocate(old(State())).0 && a == Allocate(old(State())).1
      ensures Inv(State())
    {
      AllocKeeps(State());
      hide Inv, Available;
      var i := 1;
      while i <= |taken|
        invariant 1 <= i <= |taken| + 1 && State() == old(State())
        invariant taken != [] ==> FirstFrom(State(), 1) == FirstFrom(State(), i)
        decreases |taken| + 1 - i
      {
        var p := After(State(), i);
        var free := IsFree(p);
        if free {
          a := BlockAddress(State(), p);
          pos := p;
          taken := taken[p := true];
          pending := if a == 0 then pending else pending + multiset{a};
          return;
        }
        i := i + 1;
      }
      return 0;
    }

    /** A tunnel is opened: allocation and registration in one callback. */
    method OpenTunnelLink() returns (a: Address)
      requires Inv(State())
      modifies this
      ensures State() == Step(old(State()), OpenTunnel) && a == Allocate(old(State())).1 && Inv(State())
    {
      StepKeepsInv(State(), OpenTunnel);
      AllocShape(State());
      AllocPending(State());
      hide Inv, Allocate;
      a := GetClientAddr();
      if a == 0 {
        return;
      }
      links, nextId := links[nextId := Tunnel(a)], nextId + 1;
      pending := pending - multiset{a};
    }

    /** release_client_addr. */
    method ReleaseClientAddr(a: Address)
      modifies this
      ensures State() == Release(old(State()), a)
    {
      if a < start {
        return;
      }
      var p := a - start;
      if p >= |taken| {
        return;
      }
      if !taken[p] {
        return;
      }
      taken := taken[p := false];
    }

    /** Is the destination the router or known away from the sender's link? */
    method FindDestination(l: LData) returns (found: bool)
      ensures found <==> Found(State(), l)
    {
      found := l.dest == own;
      if !found && l.dest != UNPROGRAMMED {
        var todo := links.Keys;
        while todo != {} && !found
          invariant todo <= links.Keys
          invariant forall i | i in links && i !in todo && !found :: !(!Has(links[i], l.source) && Has(links[i], l.dest))
          invariant found ==> Found(State(), l)
          decreases todo
        {
          var i :| i in todo;
          todo := todo - {i};
          found := !Has(links[i], l.source) && Has(links[i], l.dest);
        }
      }
    }

    /** send_L_Data's loop over the links: the links the frame is handed to, each once. */
    method SendLData(l: LData) returns (to: seq<nat>)
      ensures forall i :: i in to <==> i in Targets(State(), l)
      ensures forall j, k | 0 <= j < k < |to| :: to[j] != to[k]
    {
      to := [];
      var found := FindDestination(l);
      var todo := links.Keys;
      while todo != {}
        invariant todo <= links.Keys
        invariant forall i :: i in to <==> i in Targets(State(), l) && i !in todo
        invariant forall j, k | 0 <= j < k < |to| :: to[j] != to[k]
        decreases todo
      {
        var i :| i in todo;
        todo := todo - {i};
        if links[i].up && !Has(links[i], l.source) {
          if l.addressType == Group {
            if l.hopCount == 7 || ChecksGroup(links[i], l.dest) {
              to := to + [i];
            }
          } else {
            if if l.hopCount == 7 || found then Has(links[i], l.dest) else Checks(links[i], l.dest) {
              to := to + [i];
            }
          }
        }
      }
    }
  }

  lemma FoundClaimant(t: Table, id: nat, l: LData, found: bool, other: nat)
    requires Inv(t) && id in t.links && l.source != t.own && l.source != 0
    requires found <==> Known(t.links, l.source)
    requires found ==> other in t.links && Has(t.links[other], l.source)
    ensures found ==> (Judge(t, id, l) == Accept <==> other == id) && (Judge(t, id, l) == Reject <==> other != id)
    ensures !found ==> Judge(t, id, l) == (if InBlock(t, l.source) then Reject else if l.source != UNPROGRAMMED then Learn else Accept)
  {
  }
}
