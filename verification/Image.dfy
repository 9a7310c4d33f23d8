/** Memory images of bus coupling units: a header and a list of typed streams. Streams that are
    damaged or of an unknown type are kept as they are. */
module Image {
  import opened KnxTypes

  const CODE: Address := 1
  const BCU1_SIZE: Address := 2
  const BCU2_SIZE: Address := 3
  const BCU_TYPE: Address := 100
  const BCU2_INIT: Address := 101
  const BCU2_KEY: Address := 102
  const STRING_PAR: Address := 500
  const INT_PAR: Address := 501
  const FLOAT_PAR: Address := 502
  const LIST_PAR: Address := 503
  const GROUP_OBJECT: Address := 504

  /** A 32-bit access key. */
  type Key = x: int | 0 <= x < 0x1_0000_0000

  /** The sizes and the start record hold their 16-bit fields in the order of the file. */
  datatype Stream =
    | Invalid(data: Bytes)
    | Unknown(kind: Address, data: Bytes)
    | BcuType(mask: Address)
    | Code(code: Bytes)
    | StringPar(addr: Address, length: Address, name: Bytes)
    | IntPar(addr: Address, size: int, name: Bytes)
    | FloatPar(addr: Address, name: Bytes)
    | ListPar(addr: Address, name: Bytes, elements: seq<Bytes>)
    | GroupObject(no: byte, name: Bytes)
    | Bcu1Size(fields: seq<Address>)
    | Bcu2Size(fields: seq<Address>)
    | Bcu2Start(fields: seq<Address>, pollSlot: byte)
    | Bcu2Key(installKey: Key, keys: seq<Key>)

  // ------------------------------------------------------------- numbers

  function Word(w: Address): Bytes {
    [HighByte(w), LowByte(w)]
  }

  function Words(ws: seq<Address>): Bytes {
    if ws == [] then [] else Word(ws[0]) + Words(ws[1..])
  }

  /** `n` words from position `at`. */
  function ReadWords(c: Bytes, at: nat, n: nat): (ws: seq<Address>)
    requires at + 2 * n <= |c|
    ensures |ws| == n
    decreases n
  {
    if n == 0 then [] else [MakeAddress(c[at], c[at + 1])] + ReadWords(c, at + 2, n - 1)
  }

  function Dword(k: Key): Bytes {
    Word(k / 0x10000) + Word(k % 0x10000)
  }

  function Dwords(ks: seq<Key>): Bytes {
    if ks == [] then [] else Dword(ks[0]) + Dwords(ks[1..])
  }

  function MakeKey(c: Bytes, at: nat): Key
    requires at + 4 <= |c|
  {
    MakeAddress(c[at], c[at + 1]) * 0x10000 + MakeAddress(c[at + 2], c[at + 3])
  }

  /** The keys from position `at` to the end. */
  function ReadKeys(c: Bytes, at: nat): seq<Key>
    requires at <= |c| && (|c| - at) % 4 == 0
    decreases |c| - at
  {
    if at == |c| then [] else [MakeKey(c, at)] + ReadKeys(c, at + 4)
  }

  /** What a 16-bit variable keeps of a number. */
  function Low16(n: nat): Address {
    n % 0x10000
  }

  lemma Low16Small(n: nat)
    requires n <= 0x10000
    ensures Low16(n) == if n == 0x10000 then 0 else n
  {
  }

  /** A byte read as a signed number. */
  function Signed(b: byte): int {
    if b < 128 then b else b - 256
  }

  // ------------------------------------------------------------- strings

  /** The first zero from position `at`, or the end. */
  function FirstZero(c: Bytes, at: nat): (z: nat)
    requires at <= |c|
    ensures at <= z <= |c|
    ensures forall k | at <= k < z :: c[k] != 0
    ensures z < |c| ==> c[z] == 0
    decreases |c| - at
  {
    if at == |c| || c[at] == 0 then at else FirstZero(c, at + 1)
  }

  /** The string that ends exactly at the end of the stream. */
  function NameFrom(c: Bytes, at: nat): Option<Bytes>
    requires at < |c|
  {
    if c[|c| - 1] == 0 && FirstZero(c, at) == |c| - 1 then Some(c[at..|c| - 1]) else None
  }

  /** `n` strings that end exactly at the end of the stream. */
  function StringsFrom(c: Bytes, at: nat, n: nat): Option<seq<Bytes>>
    requires at <= |c|
    decreases n
  {
    if n == 0 then if at == |c| then Some([]) else None
    else
      var z := FirstZero(c, at);
      if z == |c| then None
      else
        match StringsFrom(c, z + 1, n - 1)
        case None => None
        case Some(more) => Some([c[at..z]] + more)
  }

  /** Strings with their terminators. */
  function Terminated(strings: seq<Bytes>): Bytes {
    if strings == [] then [] else strings[0] + [0] + Terminated(strings[1..])
  }

  // ------------------------------------------------------------- reading a stream

  function KindOf(c: Bytes): Address
    requires |c| >= 4
  {
    MakeAddress(c[2], c[3])
  }

  /** The init functions: None for a stream that does not have the form of its type. */
  function Init(c: Bytes): Option<Stream>
    requires |c| >= 4
  {
    var k := KindOf(c);
    if k == STRING_PAR then
      if |c| < 9 then None
      else match NameFrom(c, 8)
        case None => None
        case Some(name) => Some(StringPar(MakeAddress(c[4], c[5]), MakeAddress(c[6], c[7]), name))
    else if k == INT_PAR then
      if |c| < 8 then None
      else match NameFrom(c, 7)
        case None => None
        case Some(name) => Some(IntPar(MakeAddress(c[4], c[5]), Signed(c[6]), name))
    else if k == FLOAT_PAR then
      if |c| < 7 then None
      else match NameFrom(c, 6)
        case None => None
        case Some(name) => Some(FloatPar(MakeAddress(c[4], c[5]), name))
    else if k == LIST_PAR then InitList(c)
    else if k == GROUP_OBJECT then
      if |c| < 6 then None
      else match NameFrom(c, 5)
        case None => None
        case Some(name) => Some(GroupObject(c[4], name))
    else if k == BCU_TYPE then
      if |c| != 6 then None else Some(BcuType(MakeAddress(c[4], c[5])))
    else if k == BCU2_INIT then
      if |c| != 47 then None else Some(Bcu2Start(ReadWords(c, 4, 21), c[46]))
    else if k == CODE then Some(Code(c[4..]))
    else if k == BCU1_SIZE then
      if |c| != 12 then None else Some(Bcu1Size(ReadWords(c, 4, 4)))
    else if k == BCU2_SIZE then
      if |c| != 16 then None else Some(Bcu2Size(ReadWords(c, 4, 6)))
    else if k == BCU2_KEY then
      if |c| % 4 != 0 || |c| < 8 then None else Some(Bcu2Key(MakeKey(c, 4), ReadKeys(c, 8)))
    else Some(Unknown(k, c[4..]))
  }

  /** A list parameter: its name, then as many strings as it announces. */
  function InitList(c: Bytes): (r: Option<Stream>)
    requires |c| >= 4
    ensures r.Some? ==> r.value.ListPar?
  {
    if |c| < 9 || c[|c| - 1] != 0 then None
    else
      var z := FirstZero(c, 8);
      if z >= |c| - 1 then None
      else
        match StringsFrom(c, z + 1, MakeAddress(c[6], c[7]))
        case None => None
        case Some(elements) => Some(ListPar(MakeAddress(c[4], c[5]), c[8..z], elements))
  }

  /** STR_Stream::fromArray: a stream that cannot be read is kept byte by byte. */
  function ReadStream(c: Bytes): Stream
    requires |c| >= 4
  {
    match Init(c)
    case Some(s) => s
    case None => Invalid(c)
  }

  // ------------------------------------------------------------- writing a stream

  function Kind(s: Stream): Address {
    match s
    case Invalid(_) => 0
    case Unknown(k, _) => k
    case BcuType(_) => BCU_TYPE
    case Code(_) => CODE
    case StringPar(_, _, _) => STRING_PAR
    case IntPar(_, _, _) => INT_PAR
    case FloatPar(_, _) => FLOAT_PAR
    case ListPar(_, _, _) => LIST_PAR
    case GroupObject(_, _) => GROUP_OBJECT
    case Bcu1Size(_) => BCU1_SIZE
    case Bcu2Size(_) => BCU2_SIZE
    case Bcu2Start(_, _) => BCU2_INIT
    case Bcu2Key(_, _) => BCU2_KEY
  }

  /** What follows length and type. */
  function Body(s: Stream): Bytes {
    match s
    case Invalid(data) => data
    case Unknown(_, data) => data
    case BcuType(mask) => Word(mask)
    case Code(code) => code
    case StringPar(addr, length, name) => Word(addr) + Word(length) + (name + [0])
    case IntPar(addr, size, name) => Word(addr) + [size % 256] + (name + [0])
    case FloatPar(addr, name) => Word(addr) + (name + [0])
    case ListPar(addr, name, elements) =>
      Word(addr) + Word(Low16(|elements|)) + (name + [0]) + Terminated(elements)
    case GroupObject(no, name) => [no] + (name + [0])
    case Bcu1Size(fields) => Words(fields)
    case Bcu2Size(fields) => Words(fields)
    case Bcu2Start(fields, slot) => Words(fields) + [slot]
    case Bcu2Key(k, keys) => Dword(k) + Dwords(keys)
  }

  /** Length and type, with the length in 16 bits. */
  function Header(kind: Address, size: nat): Bytes {
    Word(Low16(size + 2)) + Word(kind)
  }

  function Plain(s: Stream): Bytes {
    Header(Kind(s), |Body(s)|) + Body(s)
  }

  function Zeros(n: nat): Bytes {
    seq(n, _ => 0)
  }

  /** CArray::setpart: the array grows if it has to. */
  function SetPart(d: Bytes, x: Bytes, at: nat): Bytes {
    var e := if |d| < at + |x| then d + Zeros(at + |x| - |d|) else d;
    e[..at] + x + e[at + |x|..]
  }

  /** Put strings behind one another; the position is kept in 16 bits. */
  function PutStrings(d: Bytes, strings: seq<Bytes>, at: nat): Bytes
    decreases strings
  {
    if strings == [] then d
    else PutStrings(SetPart(d, strings[0] + [0], at), strings[1..], Low16(at + |strings[0]| + 1))
  }

  /** STR_ListParameter::toArray fills its array from the front, string by string. */
  function ListArray(addr: Address, name: Bytes, elements: seq<Bytes>): Bytes {
    var len := Low16(7 + |name| + |Terminated(elements)|);
    var head := Word(len) + Word(LIST_PAR) + Word(addr) + Word(Low16(|elements|));
    var d := head + Zeros(if len < 6 then 0 else len - 6);
    PutStrings(SetPart(d, name + [0], 8), elements, Low16(9 + |name|))
  }

  /** The toArray functions. */
  function WriteStream(s: Stream): Bytes {
    match s
    case Invalid(data) => data
    case ListPar(addr, name, elements) => ListArray(addr, name, elements)
    case _ => Plain(s)
  }

  // ------------------------------------------------------------- reading and writing undo each other

  lemma WordRebuilt(high: byte, low: byte)
    ensures Word(MakeAddress(high, low)) == [high, low]
  {
  }

  lemma {:induction false} WordsRebuilt(c: Bytes, at: nat, n: nat)
    requires at + 2 * n <= |c|
    ensures Words(ReadWords(c, at, n)) == c[at..at + 2 * n]
    decreases n
  {
    hide Word, MakeAddress;
    if n > 0 {
      WordRebuilt(c[at], c[at + 1]);
      WordsRebuilt(c, at + 2, n - 1);
      assert c[at..at + 2 * n] == [c[at], c[at + 1]] + c[at + 2..at + 2 * n];
    }
  }

  lemma KeyRebuilt(c: Bytes, at: nat)
    requires at + 4 <= |c|
    ensures Dword(MakeKey(c, at)) == c[at..at + 4]
  {
    hide Word, MakeAddress;
    WordRebuilt(c[at], c[at + 1]);
    WordRebuilt(c[at + 2], c[at + 3]);
    assert c[at..at + 4] == [c[at], c[at + 1]] + [c[at + 2], c[at + 3]];
  }

  lemma {:induction false} KeysRebuilt(c: Bytes, at: nat)
    requires at <= |c| && (|c| - at) % 4 == 0
    ensures Dwords(ReadKeys(c, at)) == c[at..]
    decreases |c| - at
  {
    hide Dword, MakeKey;
    if at < |c| {
      KeyRebuilt(c, at);
      KeysRebuilt(c, at + 4);
      assert c[at..] == c[at..at + 4] + c[at + 4..];
    }
  }

  lemma NameRebuilt(c: Bytes, at: nat)
    requires at < |c| && NameFrom(c, at).Some?
    ensures NameFrom(c, at).value + [0] == c[at..]
  {
  }

  lemma CutAt(c: Bytes, at: nat, z: nat)
    requires at <= z < |c|
    ensures c[at..] == c[at..z] + [c[z]] + c[z + 1..]
  {
  }

  lemma TerminatedCons(x: Bytes, more: seq<Bytes>)
    ensures Terminated([x] + more) == x + [0] + Terminated(more)
  {
    assert ([x] + more)[1..] == more;
  }

  lemma {:induction false} StringsRebuilt(c: Bytes, at: nat, n: nat)
    requires at <= |c| && StringsFrom(c, at, n).Some?
    ensures Terminated(StringsFrom(c, at, n).value) == c[at..] && |StringsFrom(c, at, n).value| == n
    decreases n
  {
    if n > 0 {
      hide Terminated;
      var z := FirstZero(c, at);
      StringsRebuilt(c, z + 1, n - 1);
      CutAt(c, at, z);
      TerminatedCons(c[at..z], StringsFrom(c, z + 1, n - 1).value);
    }
  }

  /** A stream as the image parser cuts it: its length field is right. */
  predicate IsStream(c: Bytes) {
    |c| >= 4 && MakeAddress(c[0], c[1]) + 2 == |c|
  }

  lemma HeaderRebuilt(c: Bytes)
    requires IsStream(c)
    ensures Header(KindOf(c), |c| - 4) + c[4..] == c
  {
    hide Word, MakeAddress, Low16;
    var n: Address := MakeAddress(c[0], c[1]);
    assert |c| - 4 + 2 == n;
    Low16Small(n);
    WordRebuilt(c[0], c[1]);
    WordRebuilt(c[2], c[3]);
    assert Header(KindOf(c), |c| - 4) == [c[0], c[1]] + [c[2], c[3]];
    assert c == [c[0], c[1]] + [c[2], c[3]] + c[4..];
  }

  lemma BodyOfNamed(c: Bytes, s: Stream)
    requires IsStream(c) && Init(c) == Some(s)
    requires s.StringPar? || s.IntPar? || s.FloatPar? || s.GroupObject?
    ensures Kind(s) == KindOf(c) && Body(s) == c[4..]
  {
    hide FirstZero, ReadWords, ReadKeys, InitList, Word, MakeAddress, NameFrom;
    var k := KindOf(c);
    if k == STRING_PAR {
      NameRebuilt(c, 8);
      WordRebuilt(c[4], c[5]);
      WordRebuilt(c[6], c[7]);
      assert c[4..] == [c[4], c[5]] + [c[6], c[7]] + c[8..];
    } else if k == INT_PAR {
      NameRebuilt(c, 7);
      WordRebuilt(c[4], c[5]);
      assert Signed(c[6]) % 256 == c[6];
      assert c[4..] == [c[4], c[5]] + [c[6]] + c[7..];
    } else if k == FLOAT_PAR {
      NameRebuilt(c, 6);
      WordRebuilt(c[4], c[5]);
      assert c[4..] == [c[4], c[5]] + c[6..];
    } else if k == GROUP_OBJECT {
      NameRebuilt(c, 5);
      assert c[4..] == [c[4]] + c[5..];
    }
  }

  lemma BodyOfFixed(c: Bytes, s: Stream)
    requires IsStream(c) && Init(c) == Some(s)
    requires s.BcuType? || s.Bcu1Size? || s.Bcu2Size? || s.Bcu2Start? || s.Bcu2Key? || s.Code? || s.Unknown?
    ensures Kind(s) == KindOf(c) && Body(s) == c[4..]
  {
    hide FirstZero, ReadWords, ReadKeys, InitList, Word, MakeAddress, NameFrom, Words, Dwords, Dword, MakeKey;
    var k := KindOf(c);
    if k == BCU_TYPE {
      WordRebuilt(c[4], c[5]);
      assert c[4..] == [c[4], c[5]];
    } else if k == BCU1_SIZE {
      WordsRebuilt(c, 4, 4);
    } else if k == BCU2_SIZE {
      WordsRebuilt(c, 4, 6);
    } else if k == BCU2_INIT {
      WordsRebuilt(c, 4, 21);
      assert c[4..] == c[4..46] + [c[46]];
    } else if k == BCU2_KEY {
      KeyRebuilt(c, 4);
      KeysRebuilt(c, 8);
      assert c[4..] == c[4..8] + c[8..];
    }
  }

  // ------------------------------------------------------------- list parameters

  lemma SetPartWithin(d: Bytes, x: Bytes, at: nat)
    requires at + |x| <= |d|
    ensures var e := SetPart(d, x, at);
      |e| == |d| && e[..at + |x|] == d[..at] + x && e[at + |x|..] == d[at + |x|..]
  {
  }

  lemma {:induction false} TerminatedSize(strings: seq<Bytes>)
    ensures |strings| <= |Terminated(strings)|
    decreases strings
  {
    if strings != [] {
      TerminatedSize(strings[1..]);
    }
  }

  lemma OneLeft(strings: seq<Bytes>)
    requires strings != [] && |Terminated(strings)| <= 1
    ensures strings == [[]] && Terminated(strings) == [0]
  {
    TerminatedSize(strings);
    assert strings[1..] == [];
    assert strings[0] == [];
  }

  /** The last string is empty and starts where a 16-bit position is back at 0. */
  predicate Wraps(size: nat, strings: seq<Bytes>) {
    size == 0x10001 && strings != [] && strings[|strings| - 1] == []
  }

  /** The strings written from position `p` on, were it not for the wrapped position. */
  function Written(d: Bytes, strings: seq<Bytes>, p: nat): Bytes
    requires p <= |d|
  {
    var r := d[..p] + Terminated(strings);
    if Wraps(|d|, strings) && r != [] then r[0 := 0] else r
  }

  lemma WrittenAtTheWrap(d: Bytes, strings: seq<Bytes>)
    requires |d| == 0x10000 + |Terminated(strings)| <= 0x10001 && d[|d| - 1] == 0
    ensures PutStrings(d, strings, 0) == Written(d, strings, 0x10000)
  {
    if strings == [] {
      assert d[..0x10000] == d;
    } else {
      OneLeft(strings);
      assert strings[0] + [0] == [0] && strings[1..] == [];
      assert SetPart(d, [0], 0) == [0] + d[1..] == d[0 := 0];
      assert d == d[..0x10000] + [0];
    }
  }

  /** Writing the first string leaves the rest to be written behind it. */
  lemma WrittenStep(d: Bytes, strings: seq<Bytes>, p: nat)
    requires strings != [] && p + |Terminated(strings)| == |d|
    requires d[|d| - 1] == 0
    ensures var x := strings[0] + [0];
      var e, q := SetPart(d, x, p), p + |x|;
      && q + |Terminated(strings[1..])| == |e| == |d|
      && e[|e| - 1] == 0
      && e[..q] + Terminated(strings[1..]) == d[..p] + Terminated(strings)
  {
    var x, rest := strings[0] + [0], strings[1..];
    assert Terminated(strings) == x + Terminated(rest);
    SetPartWithin(d, x, p);
    var e, q := SetPart(d, x, p), p + |x|;
    hide Terminated, SetPart;
    if q < |d| {
      assert e[|d| - 1] == e[q..][|d| - 1 - q] == d[q..][|d| - 1 - q];
    } else {
      assert e[|d| - 1] == e[..q][q - 1] == x[|x| - 1];
    }
    assert (d[..p] + x) + Terminated(rest) == d[..p] + (x + Terminated(rest));
  }

  lemma WrapsInRest(size: nat, strings: seq<Bytes>, p: nat)
    requires strings != [] && p < 0x10000 && p + |Terminated(strings)| == size <= 0x10001
    ensures Wraps(size, strings) <==> Wraps(size, strings[1..])
    ensures p + |strings[0]| + 1 <= 0x10000 || strings[1..] == []
  {
    var rest := strings[1..];
    TerminatedSize(rest);
    assert |Terminated(strings)| == |strings[0]| + 1 + |Terminated(rest)|;
    if rest == [] {
      assert strings == [strings[0]];
    } else {
      assert rest[|rest| - 1] == strings[|strings| - 1];
    }
  }

  lemma PutStep(d: Bytes, strings: seq<Bytes>, p: nat)
    requires strings != [] && p < 0x10000
    ensures var x := strings[0] + [0];
      PutStrings(d, strings, Low16(p)) == PutStrings(SetPart(d, x, p), strings[1..], Low16(p + |x|))
  {
    Low16Small(p);
    hide SetPart, Low16;
  }

  lemma WrittenRest(d: Bytes, strings: seq<Bytes>, p: nat)
    requires strings != [] && 1 <= p < 0x10000 && p + |Terminated(strings)| == |d| <= 0x10001 && d[|d| - 1] == 0
    ensures var x := strings[0] + [0];
      var e, q := SetPart(d, x, p), p + |x|;
      q <= |e| && Written(e, strings[1..], q) == Written(d, strings, p)
  {
    WrittenStep(d, strings, p);
    WrapsInRest(|d|, strings, p);
    hide SetPart, Terminated, Wraps;
  }

  lemma {:induction false} PutStringsWrites(d: Bytes, strings: seq<Bytes>, p: nat)
    requires 1 <= p <= 0x10000 && |d| == p + |Terminated(strings)| <= 0x10001 && d[|d| - 1] == 0
    ensures PutStrings(d, strings, Low16(p)) == Written(d, strings, p)
    decreases strings
  {
    hide SetPart, Wraps, Written, PutStrings, Low16;
    Low16Small(p);
    if p == 0x10000 {
      WrittenAtTheWrap(d, strings);
    } else if strings == [] {
      NoMore(d, p);
    } else {
      WrittenStep(d, strings, p);
      WrapsInRest(|d|, strings, p);
      WrittenRest(d, strings, p);
      PutStep(d, strings, p);
      var x, rest := strings[0] + [0], strings[1..];
      var e, q := SetPart(d, x, p), p + |x|;
      if q <= 0x10000 {
        PutStringsWrites(e, rest, q);
      } else {
        NoMore(e, q);
      }
    }
  }

  lemma NoMore(e: Bytes, q: nat)
    requires |e| == q
    ensures e == Written(e, [], q) && PutStrings(e, [], Low16(q)) == e
  {
    assert e[..q] == e;
  }

  lemma FourWords(c: Bytes)
    requires |c| >= 8
    ensures c[..8] == Word(MakeAddress(c[0], c[1])) + Word(MakeAddress(c[2], c[3])) +
                      Word(MakeAddress(c[4], c[5])) + Word(MakeAddress(c[6], c[7]))
  {
    hide Word, MakeAddress;
    WordRebuilt(c[0], c[1]);
    WordRebuilt(c[2], c[3]);
    WordRebuilt(c[4], c[5]);
    WordRebuilt(c[6], c[7]);
    assert c[..8] == [c[0], c[1]] + [c[2], c[3]] + [c[4], c[5]] + [c[6], c[7]];
  }

  /** The parts of a list parameter as it was read. */
  lemma ListParts(c: Bytes, s: Stream)
    requires |c| >= 4 && InitList(c) == Some(s)
    ensures |c| >= 9 && s.ListPar? && s.addr == MakeAddress(c[4], c[5])
    ensures |s.elements| == MakeAddress(c[6], c[7])
    ensures var z := 8 + |s.name|; z + 1 < |c| && c[8..z] == s.name && c[z] == 0 && c[z + 1..] == Terminated(s.elements)
  {
    hide MakeAddress, StringsFrom, Terminated;
    var z := FirstZero(c, 8);
    StringsRebuilt(c, z + 1, MakeAddress(c[6], c[7]));
  }

  lemma ListHead(c: Bytes, s: Stream)
    requires IsStream(c) && KindOf(c) == LIST_PAR && InitList(c) == Some(s)
    ensures |c| >= 9 && |c| - 2 < 0x10000
    ensures c[..8] == Word(|c| - 2) + Word(LIST_PAR) + Word(s.addr) + Word(Low16(|s.elements|))
  {
    ListParts(c, s);
    FourWords(c);
    hide Word, MakeAddress, InitList, Terminated, Low16;
    Low16Small(|s.elements|);
  }

  /** The array with its head and its name, before the strings are put in. */
  lemma NamePut(c: Bytes, s: Stream, d: Bytes)
    requires IsStream(c) && KindOf(c) == LIST_PAR && InitList(c) == Some(s)
    requires d == c[..8] + Zeros(|c| - 8)
    ensures var e, z := SetPart(d, s.name + [0], 8), 8 + |s.name|;
      |e| == |c| && z + 1 < |c| && e[..z + 1] == c[..z + 1] && e[|e| - 1] == 0
  {
    hide InitList, Terminated, KindOf, MakeAddress;
    ListParts(c, s);
    var z := 8 + |s.name|;
    SetPartWithin(d, s.name + [0], 8);
    hide SetPart;
    var e := SetPart(d, s.name + [0], 8);
    assert d[..8] == c[..8];
    assert e[|e| - 1] == e[z + 1..][|e| - z - 2] == d[z + 1..][|e| - z - 2];
    assert c[..z + 1] == c[..8] + (c[8..z] + [c[z]]);
  }

  lemma ListArrayUnfolded(addr: Address, name: Bytes, elements: seq<Bytes>, len: Address)
    requires len >= 6 && 7 + |name| + |Terminated(elements)| == len
    ensures var d := Word(len) + Word(LIST_PAR) + Word(addr) + Word(Low16(|elements|)) + Zeros(len - 6);
      ListArray(addr, name, elements) == PutStrings(SetPart(d, name + [0], 8), elements, Low16(9 + |name|))
  {
    hide Word, SetPart, PutStrings, Terminated, Low16;
    Low16Small(len);
  }

  lemma ListRebuilt(c: Bytes, s: Stream)
    requires IsStream(c) && KindOf(c) == LIST_PAR && InitList(c) == Some(s)
    ensures WriteStream(s) == if Wraps(|c|, s.elements) then c[0 := 0] else c
  {
    hide InitList, Word, Terminated, PutStrings, Wraps, SetPart, MakeAddress, ListArray, KindOf, Zeros, Low16;
    ListParts(c, s);
    ListHead(c, s);
    var z := 8 + |s.name|;
    var d := c[..8] + Zeros(|c| - 8);
    TailSize(c, z + 1, Terminated(s.elements));
    ListArrayUnfolded(s.addr, s.name, s.elements, |c| - 2);
    NamePut(c, s, d);
    var e := SetPart(d, s.name + [0], 8);
    PutStringsWrites(e, s.elements, z + 1);
    assert c == c[..z + 1] + Terminated(s.elements);
  }

  lemma TailSize(c: Bytes, at: nat, tail: Bytes)
    requires at <= |c| && c[at..] == tail
    ensures |c| == at + |tail|
  {
  }

  /** A list parameter of 65537 bytes whose last string is empty. */
  predicate Damaged(s: Stream) {
    s.ListPar? && Wraps(9 + |s.name| + |Terminated(s.elements)|, s.elements)
  }

  lemma ListIsRebuilt(c: Bytes, s: Stream)
    requires IsStream(c) && KindOf(c) == LIST_PAR && InitList(c) == Some(s)
    ensures |WriteStream(s)| == |c| && (WriteStream(s) == c <==> !Damaged(s))
  {
    hide InitList, Terminated, MakeAddress, KindOf, WriteStream;
    ListParts(c, s);
    ListRebuilt(c, s);
    FirstByteOfLongest(c);
    TailSize(c, 9 + |s.name|, Terminated(s.elements));
  }

  lemma OnlyListsAreLists(c: Bytes, s: Stream)
    requires |c| >= 4 && Init(c) == Some(s)
    ensures !s.Invalid? && (s.ListPar? <==> KindOf(c) == LIST_PAR)
  {
    hide KindOf, ReadWords, ReadKeys, MakeKey, MakeAddress, NameFrom, InitList;
  }

  lemma PlainIsRebuilt(c: Bytes, s: Stream)
    requires IsStream(c) && Init(c) == Some(s) && KindOf(c) != LIST_PAR
    ensures !s.ListPar? && !s.Invalid? && Plain(s) == c
  {
    hide Init, Body, Header, KindOf, Kind, MakeAddress;
    OnlyListsAreLists(c, s);
    if s.StringPar? || s.IntPar? || s.FloatPar? || s.GroupObject? {
      BodyOfNamed(c, s);
    } else {
      BodyOfFixed(c, s);
    }
    HeaderRebuilt(c);
  }

  /** What is written for a stream that was read is the stream itself, for every type including the
      invalid and the unknown, unless its position wrapped: then its first byte is overwritten. */
  lemma StreamIsRebuilt(c: Bytes)
    requires IsStream(c)
    ensures |WriteStream(ReadStream(c))| == |c|
    ensures WriteStream(ReadStream(c)) == c <==> !Damaged(ReadStream(c))
  {
    match Init(c)
    case None =>
    case Some(s) =>
      if KindOf(c) == LIST_PAR {
        assert Init(c) == InitList(c);
        ListIsRebuilt(c, s);
        hide Init, InitList, WriteStream, KindOf, MakeAddress, Damaged;
      } else {
        PlainIsRebuilt(c, s);
        hide Init, InitList, Plain, KindOf, MakeAddress;
      }
  }

  lemma FirstByteOfLongest(c: Bytes)
    requires IsStream(c)
    ensures |c| == 0x10001 ==> c[0] == 255 && c[0 := 0] != c
  {
    if |c| == 0x10001 {
      assert c[0] == 255;
      assert c[0 := 0][0] == 0;
    }
  }

  // ------------------------------------------------------------- images

  const MAGIC: Bytes := [0xbc, 0x68, 0x0c, 0x05, 0xbc, 0x68, 0x0c, 0x05]

  predicate HasHeader(c: Bytes) {
    |c| >= 10 && c[..8] == MAGIC && c[8] == |c| / 256 % 256 && c[9] == |c| % 256
  }

  /** The size of the stream at `pos`, 0 if there is none. */
  function StreamAt(c: Bytes, pos: nat): (n: nat)
    ensures n > 0 ==> n >= 4 && pos + n <= |c| && IsStream(c[pos..pos + n])
  {
    if pos + 4 >= |c| then 0
    else
      var len := MakeAddress(c[pos], c[pos + 1]);
      if pos + 2 + len > |c| || len < 2 then 0
      else
        assert c[pos..pos + len + 2][0] == c[pos] && c[pos..pos + len + 2][1] == c[pos + 1];
        len + 2
  }

  /** The streams from `pos` on; every one takes at least four bytes. */
  function ReadStreams(c: Bytes, pos: nat): Option<seq<Stream>>
    requires pos <= |c|
    decreases |c| - pos
  {
    if pos == |c| then Some([])
    else
      var n := StreamAt(c, pos);
      if n == 0 then None
      else
        match ReadStreams(c, pos + n)
        case None => None
        case Some(more) => Some([ReadStream(c[pos..pos + n])] + more)
  }

  /** Image::fromArray. */
  function ReadImage(c: Bytes): Option<seq<Stream>> {
    if HasHeader(c) then ReadStreams(c, 10) else None
  }

  function WriteStreams(streams: seq<Stream>): Bytes {
    if streams == [] then [] else WriteStream(streams[0]) + WriteStreams(streams[1..])
  }

  lemma EqualParts(a: Bytes, b: Bytes, x: Bytes, y: Bytes)
    requires |a| == |x|
    ensures a + b == x + y <==> a == x && b == y
  {
    if a + b == x + y {
      assert a == (a + b)[..|a|] && x == (x + y)[..|a|];
      assert b == (a + b)[|a|..] && y == (x + y)[|a|..];
    }
  }

  lemma {:induction false} StreamsAreRebuilt(c: Bytes, pos: nat)
    requires pos <= |c| && ReadStreams(c, pos).Some?
    ensures var streams := ReadStreams(c, pos).value;
      WriteStreams(streams) == c[pos..] <==> forall k | 0 <= k < |streams| :: !Damaged(streams[k])
    decreases |c| - pos
  {
    hide ReadStream, WriteStream, Damaged, StreamAt;
    if pos < |c| {
      var n := StreamAt(c, pos);
      var p := c[pos..pos + n];
      StreamIsRebuilt(p);
      StreamsAreRebuilt(c, pos + n);
      var streams, more := ReadStreams(c, pos).value, ReadStreams(c, pos + n).value;
      assert streams == [ReadStream(p)] + more && streams[1..] == more;
      assert c[pos..] == p + c[pos + n..];
      EqualParts(WriteStream(streams[0]), WriteStreams(more), p, c[pos + n..]);
      assert (forall k | 0 <= k < |streams| :: !Damaged(streams[k])) <==>
             !Damaged(streams[0]) && forall k | 0 <= k < |more| :: !Damaged(more[k]) by {
        assert forall k | 0 <= k < |more| :: more[k] == streams[k + 1];
        assert forall k | 1 <= k < |streams| :: streams[k] == more[k - 1];
      }
    }
  }

  /** Whenever an array is accepted as an image, its streams written one after the other are the
      array after its ten-byte header, exactly if no stream is a list parameter of 65537 bytes
      ending in an empty string. */
  lemma ImageIsLossless(c: Bytes)
    requires ReadImage(c).Some?
    ensures var streams := ReadImage(c).value;
      WriteStreams(streams) == c[10..] <==> forall k | 0 <= k < |streams| :: !Damaged(streams[k])
  {
    StreamsAreRebuilt(c, 10);
  }

  lemma ReadLongestList(c: Bytes)
    requires |c| == 0x10001 && c[6] == 0 && c[7] == 1 && c[65535] == 0 && c[65536] == 0
    requires forall k | 8 <= k < 65535 :: c[k] == 1
    ensures InitList(c) == Some(ListPar(MakeAddress(c[4], c[5]), c[8..65535], [[]]))
  {
    assert FirstZero(c, 8) == 65535;
    assert FirstZero(c, 65536) == 65536 && c[65536..65536] == [];
    hide FirstZero;
    var none: seq<Bytes> := [];
    assert StringsFrom(c, 65537, 0) == Some(none);
    assert [c[65536..65536]] + none == [[]];
    assert StringsFrom(c, 65536, 1) == Some([[]]);
  }

  lemma LongestIsDamaged(s: Stream)
    requires s.ListPar? && |s.name| == 65527 && s.elements == [[]]
    ensures Damaged(s)
  {
    assert s.elements[1..] == [];
    assert Terminated(s.elements) == [] + [0] + [];
  }

  /** A name of 65527 bytes and one empty string. */
  function LongestList(): Bytes {
    seq(0x10001, i => if i < 2 then 0xff else if i == 3 then 0xf7 else if i == 2 || i == 7 then 1
                      else if 8 <= i < 65535 then 1 else 0)
  }

  lemma LongestListIsDamaged(c: Bytes)
    requires c == LongestList()
    ensures |c| == 0x10001 && c[0] == 0xff && c[1] == 0xff && IsStream(c) && Damaged(ReadStream(c))
  {
    assert IsStream(c) && KindOf(c) == LIST_PAR;
    ReadLongestList(c);
    hide InitList, KindOf, IsStream, Damaged, LongestList;
    assert Init(c) == InitList(c);
    LongestIsDamaged(ReadStream(c));
  }

  /** An image that holds nothing else. */
  function LongestImage(): Bytes {
    MAGIC + [0x00, 0x0b] + LongestList()
  }

  lemma OneStream(image: Bytes, c: Bytes)
    requires |c| == 0x10001 && c[0] == 0xff && c[1] == 0xff && image == MAGIC + [0x00, 0x0b] + c
    ensures ReadImage(image) == Some([ReadStream(c)])
  {
    hide ReadStream;
    assert image[..8] == MAGIC && |image| == 0x1000b && image[8] == 0x00 && image[9] == 0x0b;
    assert image[10] == 0xff && image[11] == 0xff;
    assert StreamAt(image, 10) == 0x10001 && image[10..10 + 0x10001] == c;
    assert ReadStreams(image, |image|) == Some([]);
    assert [ReadStream(c)] + [] == [ReadStream(c)];
  }

  /** An array that is accepted as an image and not given back as it was. */
  lemma LongestImageIsDamaged()
    ensures ReadImage(LongestImage()).Some?
    ensures WriteStreams(ReadImage(LongestImage()).value) != LongestImage()[10..]
  {
    hide LongestList, ReadStream, WriteStreams, Damaged, ReadImage, IsStream;
    var c := LongestList();
    LongestListIsDamaged(c);
    OneStream(LongestImage(), c);
    assert ReadImage(LongestImage()).value[0] == ReadStream(c);
    ImageIsLossless(LongestImage());
  }

  // ------------------------------------------------------------- the loops

  /** The scan for the end of a string. */
  method FindZero(c: Bytes, at: nat) returns (z: nat)
    requires at <= |c|
    ensures z == FirstZero(c, at)
  {
    z := at;
    while z < |c| && c[z] != 0
      invariant at <= z <= |c|
      invariant FirstZero(c, z) == FirstZero(c, at)
    {
      z := z + 1;
    }
  }

  /** STR_ListParameter::init. */
  method ReadList(c: Bytes) returns (r: Option<Stream>)
    requires |c| >= 4
    ensures r == InitList(c)
  {
    hide FirstZero;
    if |c| < 9 || c[|c| - 1] != 0 {
      return None;
    }
    var el := MakeAddress(c[6], c[7]);
    var d := FindZero(c, 8);
    if d >= |c| - 1 {
      return None;
    }
    var name := c[8..d];
    d := d + 1;
    ghost var start := d;
    var elements: seq<Bytes> := [];
    PrependNothing(StringsFrom(c, start, el));
    for i := 0 to el
      invariant d <= |c|
      invariant StringsFrom(c, start, el) == Prepend(elements, StringsFrom(c, d, el - i))
    {
      var d1 := d;
      ghost var was := elements;
      d := FindZero(c, d1);
      if d >= |c| {
        return None;
      }
      elements := elements + [c[d1..d]];
      d := d + 1;
      PrependMore(was, c[d1..d - 1], StringsFrom(c, d, el - i - 1));
    }
    assert elements + [] == elements;
    if d != |c| {
      return None;
    }
    return Some(ListPar(MakeAddress(c[4], c[5]), name, elements));
  }

  function Prepend<T>(a: seq<T>, r: Option<seq<T>>): Option<seq<T>> {
    match r
    case None => None
    case Some(b) => Some(a + b)
  }

  lemma PrependNothing<T>(r: Option<seq<T>>)
    ensures Prepend([], r) == r
  {
    if r.Some? {
      assert [] + r.value == r.value;
    }
  }

  lemma PrependMore<T>(a: seq<T>, x: T, r: Option<seq<T>>)
    ensures Prepend(a + [x], r) == Prepend(a, Prepend([x], r))
  {
    if r.Some? {
      assert (a + [x]) + r.value == a + ([x] + r.value);
    }
  }

  /** STR_ListParameter::toArray. */
  method WriteList(addr: Address, name: Bytes, elements: seq<Bytes>) returns (d: Bytes)
    ensures d == ListArray(addr, name, elements)
  {
    hide SetPart, Low16, Word, PutStrings;
    var len: nat := Low16(7 + |name|);
    ghost var total: nat := 7 + |name|;
    for i := 0 to |elements|
      invariant len == Low16(total) && total == 7 + |name| + |Terminated(elements[..i])|
    {
      Low16Sum(total, |elements[i]| + 1);
      TerminatedMore(elements, i);
      len := Low16(len + |elements[i]| + 1);
      total := total + |elements[i]| + 1;
    }
    assert elements[..|elements|] == elements;
    d := Word(len) + Word(LIST_PAR) + Word(addr) + Word(Low16(|elements|));
    d := d + Zeros(if len < 6 then 0 else len - 6);
    d := SetPart(d, name + [0], 8);
    var p: nat := Low16(9 + |name|);
    ghost var whole := PutStrings(d, elements, p);
    assert elements[0..] == elements;
    for i := 0 to |elements|
      invariant whole == PutStrings(d, elements[i..], p)
    {
      PutUnfolded(d, elements[i..], p);
      assert elements[i..][1..] == elements[i + 1..] && elements[i..][0] == elements[i];
      d := SetPart(d, elements[i] + [0], p);
      p := Low16(p + |elements[i]| + 1);
    }
    PutUnfolded(d, [], p);
  }

  lemma PutUnfolded(d: Bytes, strings: seq<Bytes>, at: nat)
    ensures PutStrings(d, strings, at) ==
      if strings == [] then d
      else PutStrings(SetPart(d, strings[0] + [0], at), strings[1..], Low16(at + |strings[0]| + 1))
  {
  }

  lemma Low16Sum(a: nat, b: nat)
    ensures Low16(Low16(a) + b) == Low16(a + b)
  {
  }

  lemma {:induction false} TerminatedMore(strings: seq<Bytes>, i: nat)
    requires i < |strings|
    ensures |Terminated(strings[..i + 1])| == |Terminated(strings[..i])| + |strings[i]| + 1
    decreases i
  {
    if i == 0 {
      assert strings[..1][1..] == [] && strings[..0] == [];
    } else {
      TerminatedMore(strings[1..], i - 1);
      assert strings[..i + 1][1..] == strings[1..][..i] && strings[..i][1..] == strings[1..][..i - 1];
    }
  }

  lemma NextStream(c: Bytes, pos: nat)
    requires pos < |c|
    ensures var n := StreamAt(c, pos);
      ReadStreams(c, pos) ==
      if n == 0 then None else Prepend([ReadStream(c[pos..pos + n])], ReadStreams(c, pos + n))
  {
    hide StreamAt, ReadStream;
  }

  /** Image::fromArray: the loop ends because every stream takes at least four bytes. */
  method ParseImage(c: Bytes) returns (r: Option<seq<Stream>>)
    ensures r == ReadImage(c)
  {
    hide ReadStream, ReadStreams, StreamAt, Prepend, HasHeader;
    if !HasHeader(c) {
      return None;
    }
    var pos := 10;
    HeaderSize(c);
    ghost var all := ReadStreams(c, pos);
    var streams: seq<Stream> := [];
    PrependNothing(all);
    while pos < |c|
      invariant 10 <= pos <= |c| && all == Prepend(streams, ReadStreams(c, pos))
      decreases |c| - pos
    {
      NextStream(c, pos);
      PrependFails(streams);
      var n := SizeAt(c, pos);
      if n == 0 {
        return None;
      }
      var s := ReadStream(c[pos..pos + n]);
      PrependMore(streams, s, ReadStreams(c, pos + n));
      streams := streams + [s];
      pos := pos + n;
    }
    LastStream(c, streams);
    return Some(streams);
  }

  /** The checks at the head of the loop. */
  method SizeAt(c: Bytes, pos: nat) returns (n: nat)
    requires pos < |c|
    ensures n == StreamAt(c, pos)
  {
    if pos + 4 >= |c| {
      return 0;
    }
    var len: int := MakeAddress(c[pos], c[pos + 1]);
    if pos + 2 + len > |c| || len < 2 {
      return 0;
    }
    return len + 2;
  }

  lemma HeaderSize(c: Bytes)
    requires HasHeader(c)
    ensures |c| >= 10
  {
  }

  lemma PrependFails(streams: seq<Stream>)
    ensures Prepend(streams, None) == None
  {
  }

  lemma LastStream(c: Bytes, streams: seq<Stream>)
    ensures Prepend(streams, ReadStreams(c, |c|)) == Some(streams)
  {
    assert streams + [] == streams;
  }
}
