/** What the address table is for: where frames go, whose frames are taken, and what becomes of
    addresses that are given back (src/libserver/router.cpp). */
module RouterDelivery {
  import opened KnxTypes
  import opened RouterAddresses

  /** An address a device or a client can have. */
  predicate Ordinary(t: Table, a: Address) {
    a != 0 && a != t.own && a != UNPROGRAMMED
  }

  /** A frame of the queue, as it is forwarded: the router may have changed anything but its source,
      and the link it came from is still registered. */
  ghost predicate Waiting(t: Table, k: nat, l: LData) {
    && k < |t.buf| && l.source == t.buf[k].frame.source
    && Ordinary(t, l.source) && t.buf[k].from in t.links
  }

  lemma ReachableInv(own: Address, start: Address, len: nat, events: seq<Event>)
    requires Fits(own, start, len)
    ensures var t := Run(Empty(own, start, len), events); Inv(t) && Base(t) && t.own == own
  {
    RunKeepsInv(Empty(own, start, len), events);
    RunKeepsBase(Empty(own, start, len), events);
  }

  /** The link a frame came from is the only one that claims its source. */
  lemma OriginIsOwner(t: Table, k: nat, l: LData)
    requires Inv(t) && Base(t) && Waiting(t, k, l)
    ensures forall i | i in t.links :: Has(t.links[i], l.source) <==> i == t.buf[k].from
  {
    assert OriginOk(t, t.buf[k]);
    hide Has, InBlock;
  }

  /** Of which groups a link wants frames. */
  predicate Subscribes(l: Link) {
    match l.kind
    case Bus(_) => true
    case Single(_, writeOnly) => !writeOnly
    case Server(route) => route
    case Cache(_) => true
  }

  /** A group frame goes to every link that is up and subscribes, whatever its hop count, except to
      the one it came from. Only a broadcast that must not be filtered (hop count 7) also goes to
      links that do not subscribe. */
  lemma GroupGoesToAll(own: Address, start: Address, len: nat, events: seq<Event>, k: nat, l: LData)
    requires Fits(own, start, len) && l.addressType == Group
    requires Waiting(Run(Empty(own, start, len), events), k, l)
    ensures var t := Run(Empty(own, start, len), events);
      Targets(t, l) == set i | i in t.links && i != t.buf[k].from && t.links[i].up &&
                               (Subscribes(t.links[i]) || l.hopCount == 7)
  {
    var t := Run(Empty(own, start, len), events);
    ReachableInv(own, start, len, events);
    hide Run;
    OriginIsOwner(t, k, l);
    hide Has, Inv, Base;
  }

  /** In every table, and whatever the source: the router's own, the one for programming, or that of a link
      that is gone. */
  lemma GroupGoesToSubscribers(t: Table, l: LData, i: nat)
    requires l.addressType == Group && i in t.links
    ensures i in Targets(t, l) <==>
      t.links[i].up && !Has(t.links[i], l.source) && (Subscribes(t.links[i]) || l.hopCount == 7)
  {
  }

  /** A frame to a known address goes to the link that claims it, and to no other. */
  lemma KnownGoesToOwner(own: Address, start: Address, len: nat, events: seq<Event>, k: nat, l: LData, j: nat)
    requires Fits(own, start, len) && l.addressType == Individual
    requires Waiting(Run(Empty(own, start, len), events), k, l)
    requires var t := Run(Empty(own, start, len), events);
      Ordinary(t, l.dest) && j in t.links && j != t.buf[k].from && Has(t.links[j], l.dest)
    ensures var t := Run(Empty(own, start, len), events);
      Targets(t, l) == if t.links[j].up then {j} else {}
  {
    var t := Run(Empty(own, start, len), events);
    ReachableInv(own, start, len, events);
    hide Run;
    OriginIsOwner(t, k, l);
    OnlyOwner(t, l.dest, j);
    hide Has, Inv, Base;
    assert Found(t, l);
  }

  lemma OnlyOwner(t: Table, a: Address, j: nat)
    requires Inv(t) && Ordinary(t, a) && j in t.links && Has(t.links[j], a)
    ensures forall i | i in t.links && i != j :: !Has(t.links[i], a)
  {
    hide Has, InBlock;
  }

  /** A frame to an address that no other link claims goes to every bus and every routing server
      that is up, except where it came from; with hop count 7 it goes nowhere. */
  lemma UnknownGoesToBuses(own: Address, start: Address, len: nat, events: seq<Event>, k: nat, l: LData)
    requires Fits(own, start, len) && l.addressType == Individual && l.dest != own
    requires Waiting(Run(Empty(own, start, len), events), k, l)
    requires var t := Run(Empty(own, start, len), events);
      forall i | i in t.links && i != t.buf[k].from :: !Has(t.links[i], l.dest)
    ensures var t := Run(Empty(own, start, len), events);
      Targets(t, l) ==
        if l.hopCount == 7 then {}
        else set i | i in t.links && i != t.buf[k].from && t.links[i].up &&
                     (t.links[i].kind.Bus? || (t.links[i].kind.Server? && t.links[i].kind.route))
  {
    var t := Run(Empty(own, start, len), events);
    ReachableInv(own, start, len, events);
    hide Run;
    OriginIsOwner(t, k, l);
    hide Inv, Base;
    assert !Found(t, l);
  }

  /** The address used for programming is never searched for: a frame to it goes to every bus that does not
      claim its source, and a group frame from it to every bus that does not claim that address. */
  lemma UnprogrammedIsBroadcast(t: Table, l: LData, i: nat)
    requires i in t.links && t.links[i].up && t.links[i].kind.Bus? && t.own != UNPROGRAMMED && l.hopCount < 7
    ensures l.addressType == Individual && l.dest == UNPROGRAMMED ==>
      (i in Targets(t, l) <==> !Has(t.links[i], l.source))
    ensures l.addressType == Group && l.source == UNPROGRAMMED ==>
      (i in Targets(t, l) <==> !Has(t.links[i], UNPROGRAMMED))
  {
  }

  // ------------------------------------------------------------- whose frames are taken

  lemma NumbersGrow(t: Table, e: Event)
    requires Enabled(t, e)
    ensures Step(t, e).nextId >= t.nextId
  {
    AllocShape(t);
    hide Has, Judge, Allocate;
  }

  /** A link that is gone stays gone. */
  lemma {:induction false} NeverAgain(t: Table, events: seq<Event>, i: nat)
    requires i < t.nextId && i !in t.links
    ensures i !in Run(t, events).links
    decreases |events|
  {
    hide Step;
    if events != [] {
      if Enabled(t, events[0]) {
        NumbersGrow(t, events[0]);
        if i in Step(t, events[0]).links {
          KnownBefore(t, events[0], i);
        }
        NeverAgain(Step(t, events[0]), events[1..], i);
      } else {
        NeverAgain(t, events[1..], i);
      }
    }
  }

  /** As long as a link is registered it keeps every address it has claimed. */
  lemma {:induction false} NeverForgotten(t: Table, events: seq<Event>, i: nat, a: Address)
    requires i < t.nextId && i in t.links && Has(t.links[i], a) && i in Run(t, events).links
    ensures Has(Run(t, events).links[i], a)
    decreases |events|
  {
    hide Step, Has;
    if events != [] {
      if Enabled(t, events[0]) {
        var u := Step(t, events[0]);
        NumbersGrow(t, events[0]);
        if i !in u.links {
          NeverAgain(u, events[1..], i);
        } else {
          NoneForgotten(t, events[0], i, a);
          NeverForgotten(u, events[1..], i, a);
        }
      } else {
        NeverForgotten(t, events[1..], i, a);
      }
    }
  }

  /** A frame that is not dropped for having no destination. */
  predicate HasDestination(l: LData) {
    l.addressType == Group || l.dest != 0
  }

  /** What the router makes of a missing source. */
  function FullSource(t: Table, id: nat, l: LData): Address
    requires id in t.links
  {
    if l.source != 0 then l.source else if t.links[id].addr == 0 then t.own else t.links[id].addr
  }

  /** The owner of an address is heard, and nobody else with it. */
  lemma OwnerIsHeard(t: Table, id: nat, m: LData)
    requires Inv(t) && id in t.links && Ordinary(t, m.source) && Has(t.links[id], m.source) && HasDestination(m)
    ensures Receive(t, id, m) == t.(buf := t.buf + [Queued(m, id)])
    ensures forall x | x in t.links && x != id :: Receive(t, x, m) == t
  {
    OnlyOwner(t, m.source, id);
    hide Has, Inv;
  }

  /** First come, first served: once a frame with an ordinary source was accepted from a link, then
      after whatever else happens, as long as that link is registered, frames with this source are
      accepted from it and dropped from every other link. */
  lemma FirstComeOwns(own: Address, start: Address, len: nat, events: seq<Event>, id: nat, l: LData, more: seq<Event>, m: LData)
    requires Fits(own, start, len)
    requires var t := Run(Empty(own, start, len), events);
      && Enabled(t, Recv(id, l)) && Receive(t, id, l).buf != t.buf
      && m.source == FullSource(t, id, l) && Ordinary(t, m.source) && HasDestination(m)
      && id in Run(Receive(t, id, l), more).links
    ensures var u := Run(Receive(Run(Empty(own, start, len), events), id, l), more);
      && Receive(u, id, m) == u.(buf := u.buf + [Queued(m, id)])
      && forall x | x in u.links && x != id :: Receive(u, x, m) == u
  {
    var t := Run(Empty(own, start, len), events);
    ReachableInv(own, start, len, events);
    hide Run;
    var t1 := Receive(t, id, l);
    StepKeepsInv(t, Recv(id, l));
    StepKeepsBase(t, Recv(id, l));
    Claimed(t, id, l);
    RunKeepsInv(t1, more);
    RunKeepsBase(t1, more);
    hide Inv, Receive, Has;
    IdsBelow(t1, id);
    NeverForgotten(t1, more, id, m.source);
    OwnerIsHeard(Run(t1, more), id, m);
  }

  lemma IdsBelow(t: Table, id: nat)
    requires Base(t) && id in t.links
    ensures id < t.nextId
  {
  }

  /** An accepted frame makes its source the link's. */
  lemma Claimed(t: Table, id: nat, l: LData)
    requires Enabled(t, Recv(id, l)) && Receive(t, id, l).buf != t.buf && Ordinary(t, FullSource(t, id, l))
    ensures id in Receive(t, id, l).links && Has(Receive(t, id, l).links[id], FullSource(t, id, l))
  {
  }

  /** A source nobody claims is accepted from any bus, unless it lies in the block of client
      addresses; the bus claims it then, if it is not the one for programming. */
  lemma NewcomerIsHeard(t: Table, id: nat, l: LData)
    requires id in t.links && t.links[id].kind.Bus? && HasDestination(l)
    requires FullSource(t, id, l) != t.own && !Known(t.links, FullSource(t, id, l))
    ensures var a, u, was := FullSource(t, id, l), Receive(t, id, l), t.links[id];
      if t.start <= a < t.start + |t.taken| then u == t
      else
        && u.buf == t.buf + [Queued(l.(source := a), id)]
        && u.links == t.links[id := was.(kind := Bus(was.kind.addrs + if a == UNPROGRAMMED then {} else {a}))]
  {
    hide Has;
    var a, was := FullSource(t, id, l), t.links[id];
    if a == UNPROGRAMMED {
      assert was.kind.addrs + {} == was.kind.addrs;
      assert t.links[id := was] == t.links;
    }
  }

  /** The router's own address is accepted from local links only; a frame without destination from
      none. */
  lemma OwnSourceIsLocal(t: Table, id: nat, l: LData)
    requires id in t.links && (FullSource(t, id, l) == t.own || !HasDestination(l))
    ensures Receive(t, id, l) ==
      if HasDestination(l) && t.links[id].isLocal then t.(buf := t.buf + [Queued(l.(source := t.own), id)]) else t
  {
  }

  // ------------------------------------------------------------- what is given back

  /** Somebody holds the address: a client without link, or a link that has not given it back. */
  ghost predicate Held(t: Table, a: Address) {
    a in t.pending || exists i | i in t.links :: t.links[i].lease == a
  }

  predicate Taken(t: Table, a: Address) {
    InBlock(t, a) && t.taken[a - t.start]
  }

  /** An address is marked as taken exactly if somebody holds it. */
  ghost predicate Exact(t: Table) {
    forall a: Address | a != 0 :: Taken(t, a) <==> Held(t, a)
  }

  /** The same leases and the same marks. */
  lemma SameHolders(t: Table, u: Table)
    requires Exact(t) && u.taken == t.taken && u.start == t.start && u.pending == t.pending
    requires u.links.Keys == t.links.Keys && forall i | i in t.links :: u.links[i].lease == t.links[i].lease
    ensures Exact(u)
  {
    forall a: Address | a != 0 ensures Taken(u, a) <==> Held(u, a) {
      assert Taken(t, a) <==> Held(t, a);
    }
  }

  lemma AllocExact(t: Table)
    requires Inv(t) && Exact(t)
    ensures Exact(Allocate(t).0)
  {
    var (u, a) := Allocate(t);
    if t.taken != [] && FirstFrom(t, 1) <= |t.taken| {
      var p := After(t, FirstFrom(t, 1));
      AllocAddress(t, p);
      forall b: Address | b != 0 ensures Taken(u, b) <==> Held(u, b) {
        assert Taken(t, b) <==> Held(t, b);
        hide Available, FirstFrom, After, Inv;
      }
    }
  }

  /** The address of a position is the start plus the position, unless it is of no use. */
  lemma AllocAddress(t: Table, p: nat)
    requires Inv(t) && p < |t.taken| && Available(t, p)
    ensures BlockAddress(t, p) == t.start + p || BlockAddress(t, p) == 0
  {
  }

  lemma RegisterExact(t: Table, l: Link, a: Address)
    requires Exact(t) && Base(t) && a != 0 && a in t.pending && t.pending[a] == 1 && l.lease == a
    ensures Exact(Register(t, l).(pending := t.pending - multiset{a}))
  {
    var u := Register(t, l).(pending := t.pending - multiset{a});
    forall b: Address | b != 0 ensures Taken(u, b) <==> Held(u, b) {
      assert Taken(t, b) <==> Held(t, b);
      if b == a {
        assert u.links[t.nextId].lease == a;
      } else if i :| i in t.links && t.links[i].lease == b {
        assert u.links[i].lease == b;
      }
    }
  }

  lemma GiveBackExact(t: Table, id: nat)
    requires Inv(t) && Exact(t) && Enabled(t, GiveBack(id))
    ensures Exact(Step(t, GiveBack(id)))
  {
    LeaseIsOwn(t, id);
    hide Inv;
    var u, a := Step(t, GiveBack(id)), t.links[id].lease;
    forall b: Address | b != 0 ensures Taken(u, b) <==> Held(u, b) {
      assert Taken(t, b) <==> Held(t, b);
      if b != a {
        if i :| i in t.links && t.links[i].lease == b {
          assert u.links[i].lease == b;
        }
      }
    }
  }

  lemma DropExact(t: Table, id: nat)
    requires Exact(t) && Enabled(t, Drop(id))
    ensures Exact(Step(t, Drop(id)))
  {
    var u, a := Step(t, Drop(id)), t.links[id].lease;
    forall b: Address | b != 0 ensures Taken(u, b) <==> Held(u, b) {
      assert Taken(t, b) <==> Held(t, b);
      if b != a {
        if i :| i in t.links && t.links[i].lease == b {
          assert u.links[i].lease == b;
        }
      }
    }
  }

  lemma CloseExact(t: Table, a: Address)
    requires Inv(t) && Exact(t) && a in t.pending
    ensures Exact(Step(t, CloseClient(a)))
  {
    PendingIsOwn(t, a);
    assert PendingOk(t, a);
    hide Inv;
    var u := Step(t, CloseClient(a));
    forall b: Address | b != 0 ensures Taken(u, b) <==> Held(u, b) {
      assert Taken(t, b) <==> Held(t, b);
    }
  }

  lemma OpenExact(t: Table, a: Address, l: Link)
    requires Inv(t) && Base(t) && Exact(t) && a in t.pending && l.lease == a
    ensures Exact(Register(t, l).(pending := t.pending - multiset{a}))
  {
    assert PendingOk(t, a);
    RegisterExact(t, l, a);
  }

  lemma OpenOtherExact(t: Table, l: Link)
    requires Exact(t) && Base(t) && l.lease == 0
    ensures Exact(Register(t, l))
  {
    var u := Register(t, l);
    forall b: Address | b != 0 ensures Taken(u, b) <==> Held(u, b) {
      assert Taken(t, b) <==> Held(t, b);
      if i :| i in t.links && t.links[i].lease == b {
        assert u.links[i].lease == b;
      }
    }
  }

  lemma ReceiveHolders(t: Table, id: nat, l: LData)
    requires Exact(t) && id in t.links
    ensures Exact(Receive(t, id, l))
  {
    SameHolders(t, Receive(t, id, l));
    hide Exact, Judge;
  }

  lemma StepExact(t: Table, e: Event)
    requires Inv(t) && Base(t) && Exact(t) && Enabled(t, e)
    ensures Exact(Step(t, e))
  {
    hide Inv, Exact, Base, Judge, Allocate, Receive;
    match e
    case Recv(id, l) => ReceiveHolders(t, id, l);
    case Alloc => AllocExact(t);
    case OpenTunnel =>
      AllocExact(t);
      AllocKeeps(t);
      AllocBase(t);
      AllocPending(t);
      var (u, a) := Allocate(t);
      if a != 0 {
        OpenExact(u, a, Tunnel(a));
      }
    case OpenSingle(a, w) => OpenExact(t, a, Client(a, w));
    case OpenOther(link) => OpenOtherExact(t, link);
    case GiveBack(id) => GiveBackExact(t, id);
    case Drop(id) => DropExact(t, id);
    case CloseClient(a) => CloseExact(t, a);
    case SetAddr(id, a) => SameHolders(t, Step(t, e));
    case SetUp(id, up) => SameHolders(t, Step(t, e));
    case Forward => SameHolders(t, Step(t, e));
  }

  lemma AllocBase(t: Table)
    requires Base(t)
    ensures Base(Allocate(t).0)
  {
    StepKeepsBase(t, Alloc);
  }

  lemma {:induction false} RunExact(t: Table, events: seq<Event>)
    requires Inv(t) && Base(t) && Exact(t)
    ensures Exact(Run(t, events))
    decreases |events|
  {
    hide Inv, Base, Exact, Step;
    if events != [] {
      if Enabled(t, events[0]) {
        StepKeepsInv(t, events[0]);
        StepKeepsBase(t, events[0]);
        StepExact(t, events[0]);
        RunExact(Step(t, events[0]), events[1..]);
      } else {
        RunExact(t, events[1..]);
      }
    }
  }

  /** No address leaks and none is handed out twice: in every reachable state an address of the block
      is marked as taken exactly if a client or a link holds it. */
  lemma NothingLeaks(own: Address, start: Address, len: nat, events: seq<Event>)
    requires Fits(own, start, len)
    ensures var t := Run(Empty(own, start, len), events);
      forall a: Address | a != 0 ::
        (t.start <= a < t.start + |t.taken| && t.taken[a - t.start]) <==> Held(t, a)
  {
    var t0 := Empty(own, start, len);
    RunKeepsInv(t0, []);
    RunExact(t0, events);
    hide Run;
    var t := Run(t0, events);
    assert forall a: Address | a != 0 :: Taken(t, a) <==> Held(t, a);
  }

  /** An address that is given back can be had again: at once when a client without link closes, */
  lemma ClosedIsAvailable(own: Address, start: Address, len: nat, events: seq<Event>, a: Address)
    requires Fits(own, start, len) && a in Run(Empty(own, start, len), events).pending
    ensures var t := Run(Empty(own, start, len), events);
      InBlock(t, a) && Available(Step(t, CloseClient(a)), a - t.start)
  {
    hide Run, Inv, Step, Available;
    ReachableInv(own, start, len, events);
    ClosedIsFree(Run(Empty(own, start, len), events), a);
  }

  /** and when the link is dropped if a tunnel or a client's link had it. */
  lemma DroppedIsAvailable(own: Address, start: Address, len: nat, events: seq<Event>, id: nat)
    requires Fits(own, start, len)
    requires var t := Run(Empty(own, start, len), events); id in t.links && t.links[id].lease != 0
    ensures var t := Run(Empty(own, start, len), events);
      var a := t.links[id].lease;
      InBlock(t, a) && Available(Step(Step(t, GiveBack(id)), Drop(id)), a - t.start)
  {
    hide Run, Inv, Available, Release;
    ReachableInv(own, start, len, events);
    NothingLeaks(own, start, len, events);
    var t := Run(Empty(own, start, len), events);
    assert Held(t, t.links[id].lease);
    DroppedIsFree(t, id);
  }

  lemma ClosedIsFree(t: Table, a: Address)
    requires Inv(t) && a in t.pending
    ensures InBlock(t, a) && Available(Step(t, CloseClient(a)), a - t.start)
  {
    PendingIsOwn(t, a);
  }

  lemma DroppedIsFree(t: Table, id: nat)
    requires Inv(t) && id in t.links && t.links[id].lease != 0 && Taken(t, t.links[id].lease)
    ensures Available(Step(Step(t, GiveBack(id)), Drop(id)), t.links[id].lease - t.start)
  {
    var a := t.links[id].lease;
    assert LinkOk(t, id) && a != t.own && Has(t.links[id], a);
    var u := Step(Step(t, GiveBack(id)), Drop(id));
    assert !Known(u.links, a) by {
      forall i | i in u.links ensures !Has(u.links[i], a) {
        assert i in t.links && i != id && u.links[i] == t.links[i];
      }
    }
  }

  // ------------------------------------------------------------- new links

  /** Links that may be registered at any time: a bus nothing was heard from yet, a server, and the group
      cache, which goes by the router's own address. */
  lemma ConfiguredLinksRegister(t: Table, l: Link)
    requires l.lease == 0 && (l.kind == Bus({}) || l.kind.Server? || l.kind == Cache(t.own) || l.kind == Cache(0))
    ensures Enabled(t, OpenOther(l))
  {
  }

  /** A new client's or tunnel's link gets no frame before it is up, and from then on the group frames of
      others if it subscribes. */
  lemma NewLinkGetsFrames(t: Table, a: Address, writeOnly: bool, l: LData)
    requires Base(t) && a in t.pending && l.addressType == Group && l.source != a && l.hopCount < 7
    ensures var id, u := t.nextId, Step(t, OpenSingle(a, writeOnly));
      && id in u.links && id !in Targets(u, l)
      && (id in Targets(Step(u, SetUp(id, true)), l) <==> !writeOnly)
      && id !in Targets(Step(Step(u, SetUp(id, true)), SetUp(id, false)), l)
    ensures var id, u := t.nextId, Register(t, Tunnel(a));
      && id !in Targets(u, l) && id in Targets(Step(u, SetUp(id, true)), l)
  {
  }

  /** A client need not know its address: a frame without source from its new link is taken for one from
      the address it was given, and one in the router's name is refused. A tunnel has to fill in the
      source itself: a frame without is refused. */
  lemma NewLinkIsHeard(t: Table, a: Address, writeOnly: bool, l: LData)
    requires Inv(t) && Base(t) && a in t.pending && HasDestination(l) && l.source == 0 && Ordinary(t, a)
    ensures var id, u := t.nextId, Step(t, OpenSingle(a, writeOnly));
      && Receive(u, id, l) == u.(buf := u.buf + [Queued(l.(source := a), id)])
      && (t.own != 0 ==> Receive(u, id, l.(source := t.own)) == u)
    ensures var id, u := t.nextId, Register(t, Tunnel(a)).(pending := t.pending - multiset{a});
      && Receive(u, id, l) == u
      && Receive(u, id, l.(source := a)) == u.(buf := u.buf + [Queued(l.(source := a), id)])
  {
    OpenKeeps(t, a, Client(a, writeOnly));
    OpenKeeps(t, a, Tunnel(a));
    var id, u, v := t.nextId, Step(t, OpenSingle(a, writeOnly)), Register(t, Tunnel(a)).(pending := t.pending - multiset{a});
    OwnerIsHeard(u, id, l.(source := a));
    OwnerIsHeard(v, id, l.(source := a));
    OwnSourceIsLocal(v, id, l);
    if t.own != 0 {
      OwnSourceIsLocal(u, id, l.(source := t.own));
    }
    hide Inv, Base;
  }

  /** The address a link is given later stands in for a missing source from then on. */
  lemma GivenAddressIsUsed(t: Table, id: nat, a: Address, l: LData)
    requires id in t.links && l.source == 0 && a != 0
    ensures FullSource(Step(t, SetAddr(id, a)), id, l) == a && WithSource(Step(t, SetAddr(id, a)), id, l).source == a
  {
  }
}
