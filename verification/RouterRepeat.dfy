/** The router's suppression of repeated frames. A sender that misses an acknowledgement repeats
    its frame with the repeat flag set; the router remembers what it forwarded for a second, and
    drops a flagged frame that it remembers. */
module RouterRepeat {
  import opened KnxTypes
  import Lpdu

  const ONE_SECOND := 1000000

  /** The router's own address, and whether hop count 7 means an unlimited broadcast. */
  datatype Config = Config(own: Address, forceBroadcast: bool)

  /** The packet of a forwarded frame, repeat flag set, and when it may be forgotten. */
  datatype Entry = Entry(packet: Bytes, end: int)

  /** The hop count after one more hop; a frame with none left goes no further. */
  function Hop(c: Config, l: LData): LData
    requires l.hopCount > 0
  {
    if l.hopCount < 7 || !c.forceBroadcast then l.(hopCount := l.hopCount - 1) else l
  }

  /** What identifies a frame whatever its repeat flag. */
  function Key(c: Config, l: LData): Bytes
    requires Lpdu.Encodable(l) && l.hopCount > 0
  {
    Lpdu.Encode(Hop(c, l).(repeated := true))
  }

  predicate Remembered(packet: Bytes, ignore: seq<Entry>) {
    exists k :: 0 <= k < |ignore| && ignore[k].packet == packet
  }

  /** What goes out for an accepted frame. */
  function Outgoing(c: Config, l: LData): LData
    requires l.hopCount > 0
  {
    var h := Hop(c, l);
    h.(repeated := false, dest := if l.addressType == Individual && l.dest == c.own then 0 else l.dest)
  }

  /** One turn of trigger_cb's loop. */
  function Forward(c: Config, ignore: seq<Entry>, l: LData, now: int): (seq<Entry>, Option<LData>)
    requires Lpdu.Encodable(l)
  {
    if l.hopCount == 0 then (ignore, None)
    else if l.repeated && Remembered(Key(c, l), ignore) then (ignore, None)
    else (ignore + [Entry(Key(c, l), now + ONE_SECOND)], Some(Outgoing(c, l)))
  }

  /** Number of entries before the first that is not expired; all of them if there is none. */
  function Expired(ignore: seq<Entry>, now: int): (k: nat)
    ensures k <= |ignore|
    ensures forall j | 0 <= j < k :: ignore[j].end < now
    ensures k < |ignore| ==> ignore[k].end >= now
  {
    if ignore == [] || ignore[0].end >= now then 0 else 1 + Expired(ignore[1..], now)
  }

  /** The end of trigger_cb. A list with nothing but expired entries is left as it is. */
  function Purge(ignore: seq<Entry>, now: int): seq<Entry> {
    var k := Expired(ignore, now);
    if k == |ignore| then ignore else ignore[k..]
  }

  // ------------------------------------------------------------- runs

  /** A frame taken from the queue, or the end of trigger_cb, each with the clock it reads. */
  datatype Event = Frame(frame: LData, time: int) | Purged(time: int)

  ghost predicate Encodable(events: seq<Event>) {
    forall k | 0 <= k < |events| && events[k].Frame? :: Lpdu.Encodable(events[k].frame)
  }

  predicate Monotone(events: seq<Event>) {
    forall i, j | 0 <= i < j < |events| :: events[i].time <= events[j].time
  }

  /** The list after all the events. */
  function Ignore(c: Config, events: seq<Event>): seq<Entry>
    requires Encodable(events)
  {
    if events == [] then []
    else
      var before, e := Ignore(c, events[..|events| - 1]), events[|events| - 1];
      match e
      case Frame(l, now) => assert e in events; Forward(c, before, l, now).0
      case Purged(now) => Purge(before, now)
  }

  /** What event number `k` sends. */
  function Output(c: Config, events: seq<Event>, k: nat): Option<LData>
    requires Encodable(events) && k < |events| && events[k].Frame?
  {
    Forward(c, Ignore(c, events[..k]), events[k].frame, events[k].time).1
  }

  // ------------------------------------------------------------- a repeat is dropped

  lemma PurgeKeepsUnexpired(ignore: seq<Entry>, now: int, x: Entry)
    requires x in ignore && x.end >= now
    ensures x in Purge(ignore, now)
  {
    var i :| 0 <= i < |ignore| && ignore[i] == x;
    var k := Expired(ignore, now);
    assert k <= i;
    assert ignore[k..][i - k] == x;
  }

  lemma TimesOrdered(events: seq<Event>, i: nat, j: nat)
    requires Monotone(events) && i <= j < |events|
    ensures events[i].time <= events[j].time
  {
  }

  lemma KeyIgnoresRepeat(c: Config, l: LData)
    requires Lpdu.Encodable(l) && l.hopCount > 0
    ensures Key(c, l.(repeated := true)) == Key(c, l)
  {
    assert Hop(c, l.(repeated := true)).(repeated := true) == Hop(c, l).(repeated := true);
  }

  /** What a forwarded frame left behind is still there until its second is over. */
  lemma {:induction false} EntryStays(c: Config, events: seq<Event>, i: nat, n: nat)
    requires Encodable(events) && Monotone(events) && i < n <= |events|
    requires events[i].Frame? && Output(c, events, i).Some?
    requires events[n - 1].time <= events[i].time + ONE_SECOND
    ensures Entry(Key(c, events[i].frame), events[i].time + ONE_SECOND) in Ignore(c, events[..n])
    decreases n
  {
    hide Key, Purge, Monotone, Outgoing, Remembered;
    var x := Entry(Key(c, events[i].frame), events[i].time + ONE_SECOND);
    assert events[..n][..n - 1] == events[..n - 1];
    var before := Ignore(c, events[..n - 1]);
    if i == n - 1 {
      assert Ignore(c, events[..n]) == before + [x];
    } else {
      TimesOrdered(events, n - 2, n - 1);
      EntryStays(c, events, i, n - 1);
      match events[n - 1]
      case Frame(l, now) =>
      case Purged(now) => PurgeKeepsUnexpired(before, now, x);
    }
  }

  /** With a clock that never goes back, a frame flagged repeated whose original was forwarded at
      most one second earlier is not forwarded again, whatever came in between. */
  lemma RepeatIsDropped(c: Config, events: seq<Event>, i: nat, j: nat)
    requires Encodable(events) && Monotone(events) && i < j < |events|
    requires events[i].Frame? && Output(c, events, i).Some?
    requires events[j].Frame? && events[j].frame == events[i].frame.(repeated := true)
    requires events[j].time <= events[i].time + ONE_SECOND
    ensures Output(c, events, j) == None
  {
    hide Key, Purge, Monotone, Ignore;
    TimesOrdered(events, j - 1, j);
    KeyIgnoresRepeat(c, events[i].frame);
    EntryStays(c, events, i, j);
    var x := Entry(Key(c, events[i].frame), events[i].time + ONE_SECOND);
    var ignore := Ignore(c, events[..j]);
    var k :| 0 <= k < |ignore| && ignore[k] == x;
    assert Key(c, events[j].frame) == ignore[k].packet;
  }

  // ------------------------------------------------------------- nothing else is dropped

  /** Every entry stems from a frame that was forwarded. */
  lemma {:induction false} EntriesWereForwarded(c: Config, events: seq<Event>, n: nat, x: Entry)
    requires Encodable(events) && n <= |events| && x in Ignore(c, events[..n])
    ensures exists i :: 0 <= i < n && events[i].Frame? && Output(c, events, i).Some? &&
                        x.packet == Key(c, events[i].frame)
    decreases n
  {
    hide Key;
    if n > 0 {
      assert events[..n][..n - 1] == events[..n - 1];
      var before := Ignore(c, events[..n - 1]);
      if x in before {
        EntriesWereForwarded(c, events, n - 1, x);
      } else {
        assert events[n - 1].Frame?;
      }
    }
  }

  lemma ExchangedTwice(l: LData)
    ensures Exchange(Exchange(l)) == l
  {
  }

  /** The packet identifies the frame up to its repeat flag. */
  lemma KeyIdentifies(c: Config, a: LData, b: LData)
    requires Lpdu.WellFormed(a) && Lpdu.WellFormed(b) && a.hopCount > 0 && b.hopCount > 0
    requires Key(c, a) == Key(c, b)
    ensures Hop(c, a).(repeated := true) == Hop(c, b).(repeated := true)
  {
    hide Lpdu.Encode, Lpdu.Decode, Exchange;
    var x, y := Hop(c, a).(repeated := true), Hop(c, b).(repeated := true);
    Lpdu.RoundTrip(x);
    Lpdu.RoundTrip(y);
    ExchangedTwice(x);
    ExchangedTwice(y);
  }

  /** A frame with hops left is dropped only if it is flagged repeated and the same frame, up to
      that flag, was forwarded before. */
  lemma OnlyRepeatsAreDropped(c: Config, events: seq<Event>, j: nat)
    requires Encodable(events) && j < |events| && events[j].Frame? && events[j].frame.hopCount > 0
    requires forall k | 0 <= k < |events| && events[k].Frame? :: Lpdu.WellFormed(events[k].frame)
    requires Output(c, events, j) == None
    ensures events[j].frame.repeated
    ensures exists i :: 0 <= i < j && events[i].Frame? && Output(c, events, i).Some? &&
                        Hop(c, events[i].frame).(repeated := true) == Hop(c, events[j].frame).(repeated := true)
  {
    var ignore := Ignore(c, events[..j]);
    var k :| 0 <= k < |ignore| && ignore[k].packet == Key(c, events[j].frame);
    EntriesWereForwarded(c, events, j, ignore[k]);
    var i :| 0 <= i < j && events[i].Frame? && Output(c, events, i).Some? && ignore[k].packet == Key(c, events[i].frame);
    KeyIdentifies(c, events[i].frame, events[j].frame);
  }

  // ------------------------------------------------------------- what is forwarded

  /** What goes out: one hop less, unless hop count 7 is to mean a broadcast without limit; the flag
      cleared; the router's own address replaced by none; all else as it came. */
  lemma ForwardedFields(c: Config, ignore: seq<Entry>, l: LData, now: int)
    requires Lpdu.Encodable(l) && Forward(c, ignore, l, now).1.Some?
    ensures var o := Forward(c, ignore, l, now).1.value;
      && l.hopCount > 0 && o.hopCount == (if l.hopCount == 7 && c.forceBroadcast then 7 else l.hopCount - 1)
      && !o.repeated
      && o.dest == (if l.addressType == Individual && l.dest == c.own then 0 else l.dest)
      && o == l.(hopCount := o.hopCount, repeated := false, dest := o.dest)
  {
    hide Key;
  }

  /** A router on the way of a frame: how it is set up, what it remembers, and its clock. */
  datatype Station = Station(config: Config, ignore: seq<Entry>, time: int)

  /** The frame behind a chain of routers, if all of them forward it. */
  function Travel(stations: seq<Station>, l: LData): (r: Option<LData>)
    requires Lpdu.Encodable(l)
    ensures r.Some? ==> Lpdu.Encodable(r.value)
    decreases |stations|
  {
    if stations == [] then Some(l)
    else
      match Forward(stations[0].config, stations[0].ignore, l, stations[0].time).1
      case None => None
      case Some(o) => Travel(stations[1..], o)
  }

  /** The routers at the start of the chain that pass a broadcast on without counting. */
  function Uncounted(stations: seq<Station>, hops: byte): (n: nat)
    ensures n <= |stations|
    decreases |stations|
  {
    if stations == [] || hops != 7 || !stations[0].config.forceBroadcast then 0
    else 1 + Uncounted(stations[1..], hops)
  }

  /** A frame is forwarded at most as often as it has hops: every router that counts takes one, and
      a frame that is not flagged as repeated travels exactly as far as they last. */
  lemma {:induction false} TravelsAsFarAsItHasHops(stations: seq<Station>, l: LData)
    requires Lpdu.Encodable(l)
    ensures var r, counted := Travel(stations, l), |stations| - Uncounted(stations, l.hopCount);
      && (r.Some? ==> counted <= l.hopCount as int && r.value.hopCount as int == l.hopCount as int - counted)
      && (!l.repeated ==> (r.Some? <==> counted <= l.hopCount as int))
    decreases |stations|
  {
    hide Key;
    if stations != [] {
      var s := stations[0];
      match Forward(s.config, s.ignore, l, s.time).1
      case None => UncountedOnlyAtSeven(stations, l.hopCount);
      case Some(o) =>
        ForwardedFields(s.config, s.ignore, l, s.time);
        TravelsAsFarAsItHasHops(stations[1..], o);
        UncountedOnlyAtSeven(stations[1..], o.hopCount);
    }
  }

  lemma UncountedOnlyAtSeven(stations: seq<Station>, hops: byte)
    ensures hops != 7 ==> Uncounted(stations, hops) == 0
  {
  }

  // ------------------------------------------------------------- what is purged

  predicate Ordered(ignore: seq<Entry>) {
    forall i, j | 0 <= i < j < |ignore| :: ignore[i].end <= ignore[j].end
  }

  lemma {:induction false} IgnoreIsOrdered(c: Config, events: seq<Event>)
    requires Encodable(events) && Monotone(events)
    ensures Ordered(Ignore(c, events))
    ensures forall x | x in Ignore(c, events) :: events != [] && x.end <= events[|events| - 1].time + ONE_SECOND
    decreases events
  {
    hide Key;
    if events != [] {
      IgnoreIsOrdered(c, events[..|events| - 1]);
    }
  }

  /** With a clock that never goes back a purge leaves exactly the unexpired entries, unless all
      are expired, in which case it leaves them all. */
  lemma PurgeIsExact(c: Config, events: seq<Event>, now: int)
    requires Encodable(events) && Monotone(events)
    ensures var ignore := Ignore(c, events);
      if forall x | x in ignore :: x.end < now then Purge(ignore, now) == ignore
      else forall x :: x in Purge(ignore, now) <==> x in ignore && x.end >= now
  {
    IgnoreIsOrdered(c, events);
    hide Ignore;
    var ignore := Ignore(c, events);
    var k := Expired(ignore, now);
    if k < |ignore| {
      assert ignore[k] in ignore;
      forall x
        ensures x in Purge(ignore, now) <==> x in ignore && x.end >= now
      {
        if x in ignore && x.end >= now {
          PurgeKeepsUnexpired(ignore, now, x);
        }
      }
    }
  }

  // ------------------------------------------------------------- the object

  class Router {
    const config: Config
    var ignore: seq<Entry>

    constructor (own: Address, forceBroadcast: bool)
      ensures config == Config(own, forceBroadcast) && ignore == []
    {
      config, ignore := Config(own, forceBroadcast), [];
    }

    method IsRemembered(packet: Bytes) returns (found: bool)
      ensures found <==> Remembered(packet, ignore)
    {
      for k := 0 to |ignore|
        invariant forall j | 0 <= j < k :: ignore[j].packet != packet
      {
        if ignore[k].packet == packet {
          return true;
        }
      }
      return false;
    }

    /** The part of trigger_cb's loop that decides on one frame. */
    method ForwardFrame(frame: LData, now: int) returns (out: Option<LData>)
      requires Lpdu.Encodable(frame)
      modifies this
      ensures (ignore, out) == Forward(config, old(ignore), frame, now)
    {
      if frame.hopCount == 0 {
        return None;
      }
      var l := frame;
      if l.hopCount < 7 || !config.forceBroadcast {
        l := l.(hopCount := l.hopCount - 1);
      }
      if l.repeated {
        var packet := Lpdu.ToPacket(l);
        var found := IsRemembered(packet);
        assert l == l.(repeated := true);
        if found {
          return None;
        }
      }
      l := l.(repeated := true);
      var packet := Lpdu.ToPacket(l);
      ignore := ignore + [Entry(packet, now + ONE_SECOND)];
      l := l.(repeated := false);
      if l.addressType == Individual && l.dest == config.own {
        l := l.(dest := 0);
      }
      return Some(l);
    }

    /** The scan at the end of trigger_cb. */
    method Forget(now: int)
      modifies this
      ensures ignore == Purge(old(ignore), now)
    {
      var k := 0;
      while k < |ignore| && ignore[k].end < now
        invariant k <= |ignore| && ignore == old(ignore)
        invariant forall j | 0 <= j < k :: ignore[j].end < now
      {
        k := k + 1;
      }
      if k < |ignore| {
        ignore := ignore[k..];
      }
    }
  }
}
