/** Reading undoes writing: which streams and which images come back as they were
    (src/common/image.cpp). */
module ImageWrite {
  import opened KnxTypes
  import opened Image

  predicate NoZero(name: Bytes) {
    forall k | 0 <= k < |name| :: name[k] != 0
  }

  predicate KnownKind(k: Address) {
    || k == 1 || k == 2 || k == 3
    || k == 100 || k == 101 || k == 102
    || k == 500 || k == 501 || k == 502 || k == 503 || k == 504
  }

  /** The fields are ones their places in the file can hold: records have their fixed number of
      fields, strings hold no terminator, a list has an element. */
  ghost predicate FieldsFit(s: Stream) {
    match s
    case Invalid(data) => IsStream(data) && Init(data) == None
    case Unknown(k, _) => !KnownKind(k)
    case BcuType(_) => true
    case Code(_) => true
    case StringPar(_, _, name) => NoZero(name)
    case IntPar(_, size, name) => -128 <= size < 128 && NoZero(name)
    case FloatPar(_, name) => NoZero(name)
    case ListPar(_, name, elements) => NoZero(name) && elements != [] && forall x | x in elements :: NoZero(x)
    case GroupObject(_, name) => NoZero(name)
    case Bcu1Size(fields) => |fields| == 4
    case Bcu2Size(fields) => |fields| == 6
    case Bcu2Start(fields, _) => |fields| == 21
    case Bcu2Key(_, _) => true
  }

  /** And the stream is not too long for its length field, nor the list that overwrites itself. */
  ghost predicate Fits(s: Stream) {
    FieldsFit(s) && (!s.Invalid? ==> |Body(s)| <= 0xFFFD) && !Damaged(s)
  }

  // ------------------------------------------------------------- fields

  lemma WordRead(w: Address)
    ensures |Word(w)| == 2 && MakeAddress(Word(w)[0], Word(w)[1]) == w
  {
  }

  lemma {:induction false} WordsRead(c: Bytes, at: nat, ws: seq<Address>)
    requires at + 2 * |ws| <= |c| && c[at..at + 2 * |ws|] == Words(ws)
    ensures ReadWords(c, at, |ws|) == ws
    decreases |ws|
  {
    hide Word, MakeAddress;
    if ws != [] {
      var part := c[at..at + 2 * |ws|];
      WordRead(ws[0]);
      assert part[0] == Word(ws[0])[0] && part[1] == Word(ws[0])[1];
      assert c[at + 2..at + 2 + 2 * |ws[1..]|] == part[2..] == Words(ws[1..]);
      WordsRead(c, at + 2, ws[1..]);
    }
  }

  lemma {:induction false} WordsSize(ws: seq<Address>)
    ensures |Words(ws)| == 2 * |ws|
    decreases |ws|
  {
    if ws != [] {
      WordsSize(ws[1..]);
    }
  }

  lemma KeyRead(c: Bytes, at: nat, k: Key)
    requires at + 4 <= |c| && c[at..at + 4] == Dword(k)
    ensures MakeKey(c, at) == k
  {
    hide Word, MakeAddress;
    var part := c[at..at + 4];
    WordRead(k / 0x10000);
    WordRead(k % 0x10000);
    assert part == Word(k / 0x10000) + Word(k % 0x10000);
    assert part[0] == c[at] && part[1] == c[at + 1] && part[2] == c[at + 2] && part[3] == c[at + 3];
  }

  lemma {:induction false} KeysRead(c: Bytes, at: nat, ks: seq<Key>)
    requires at <= |c| && c[at..] == Dwords(ks)
    ensures (|c| - at) % 4 == 0 && ReadKeys(c, at) == ks
    decreases |ks|
  {
    hide Dword, MakeKey;
    if ks != [] {
      DwordSize(ks[0]);
      KeysCut(c, at, Dword(ks[0]), Dwords(ks[1..]));
      KeyRead(c, at, ks[0]);
      KeysRead(c, at + 4, ks[1..]);
      assert [ks[0]] + ks[1..] == ks;
      hide Dwords;
    }
  }

  lemma KeysCut(c: Bytes, at: nat, first: Bytes, rest: Bytes)
    requires at <= |c| && c[at..] == first + rest && |first| == 4
    ensures at + 4 <= |c| && c[at..at + 4] == first && c[at + 4..] == rest
  {
    var all := c[at..];
    assert c[at..at + 4] == all[..4] && c[at + 4..] == all[4..];
  }

  lemma DwordSize(k: Key)
    ensures |Dword(k)| == 4
  {
  }

  /** The first zero is where the first zero is. */
  lemma FirstZeroIs(c: Bytes, at: nat, name: Bytes)
    requires at + |name| < |c| && c[at..at + |name|] == name && NoZero(name) && c[at + |name|] == 0
    ensures FirstZero(c, at) == at + |name|
  {
    assert forall k | at <= k < at + |name| :: c[k] == name[k - at];
  }

  lemma NameRead(c: Bytes, at: nat, name: Bytes)
    requires at <= |c| && c[at..] == name + [0] && NoZero(name)
    ensures at < |c| && NameFrom(c, at) == Some(name)
  {
    assert |c| == at + |name| + 1 && c[|c| - 1] == c[at..][|name|];
    assert c[at..at + |name|] == c[at..][..|name|];
    FirstZeroIs(c, at, name);
  }

  lemma {:induction false} StringsRead(c: Bytes, at: nat, strings: seq<Bytes>)
    requires at <= |c| && c[at..] == Terminated(strings) && forall x | x in strings :: NoZero(x)
    ensures StringsFrom(c, at, |strings|) == Some(strings)
    decreases |strings|
  {
    hide FirstZero, NoZero;
    if strings != [] {
      var x := strings[0];
      var tail := Terminated(strings[1..]);
      FirstStringCut(c, at, x, tail);
      FirstZeroIs(c, at, x);
      StringsRead(c, at + |x| + 1, strings[1..]);
      assert [x] + strings[1..] == strings;
    }
  }

  lemma FirstStringCut(c: Bytes, at: nat, x: Bytes, tail: Bytes)
    requires at <= |c| && c[at..] == x + [0] + tail
    ensures at + |x| < |c| && c[at..at + |x|] == x && c[at + |x|] == 0 && c[at + |x| + 1..] == tail
  {
    var all := c[at..];
    assert c[at..at + |x|] == all[..|x|] && c[at + |x|] == all[|x|] && c[at + |x| + 1..] == all[|x| + 1..];
  }

  // ------------------------------------------------------------- one stream

  /** Length, kind and body of what is written. */
  lemma PlainParts(s: Stream)
    requires |Body(s)| <= 0xFFFD
    ensures var c := Plain(s);
      |c| == |Body(s)| + 4 && IsStream(c) && KindOf(c) == Kind(s) && c[4..] == Body(s)
  {
    hide Body, Kind;
    var c, n := Plain(s), |Body(s)| + 2;
    WordRead(n);
    WordRead(Kind(s));
    hide Word, MakeAddress, Low16;
    Low16Small(n);
    assert c[0] == Word(n)[0] && c[1] == Word(n)[1] && c[2] == Word(Kind(s))[0] && c[3] == Word(Kind(s))[1];
  }

  lemma WordAt(c: Bytes, at: nat, w: Address, rest: Bytes)
    requires at <= |c| && c[at..] == Word(w) + rest
    ensures at + 2 <= |c| && MakeAddress(c[at], c[at + 1]) == w && c[at + 2..] == rest
  {
    WordRead(w);
    var all := c[at..];
    assert all[0] == c[at] && all[1] == c[at + 1] && all[2..] == c[at + 2..];
    hide MakeAddress, HighByte, LowByte;
  }

  lemma NamedReads(s: Stream)
    requires s.StringPar? || s.IntPar? || s.FloatPar? || s.GroupObject?
    requires FieldsFit(s) && |Body(s)| <= 0xFFFD
    ensures IsStream(Plain(s)) && Init(Plain(s)) == Some(s)
  {
    hide Plain, Word, MakeAddress, KindOf, IsStream, InitList, ReadWords, ReadKeys, NameFrom, NoZero, FirstZero;
    PlainParts(s);
    var c := Plain(s);
    match s
    case StringPar(addr, length, name) =>
      assert c[4..] == Word(addr) + (Word(length) + (name + [0]));
      WordAt(c, 4, addr, Word(length) + (name + [0]));
      WordAt(c, 6, length, name + [0]);
      NameRead(c, 8, name);
    case IntPar(addr, size, name) =>
      assert c[4..] == Word(addr) + ([size % 256] + (name + [0]));
      WordAt(c, 4, addr, [size % 256] + (name + [0]));
      assert c[6] == c[6..][0] && c[7..] == c[6..][1..] == name + [0];
      assert Signed(size % 256) == size;
      NameRead(c, 7, name);
    case FloatPar(addr, name) =>
      WordAt(c, 4, addr, name + [0]);
      NameRead(c, 6, name);
    case GroupObject(no, name) =>
      assert c[4] == c[4..][0] && c[5..] == c[4..][1..] == name + [0];
      NameRead(c, 5, name);
  }

  lemma RecordReads(s: Stream)
    requires s.Bcu1Size? || s.Bcu2Size? || s.Bcu2Start?
    requires FieldsFit(s) && |Body(s)| <= 0xFFFD
    ensures IsStream(Plain(s)) && Init(Plain(s)) == Some(s)
  {
    hide Plain, Words, MakeAddress, KindOf, IsStream, InitList, ReadKeys, NameFrom, ReadWords;
    PlainParts(s);
    var c := Plain(s);
    WordsSize(s.fields);
    assert c[4..4 + 2 * |s.fields|] == c[4..][..2 * |s.fields|] == Words(s.fields);
    WordsRead(c, 4, s.fields);
    if s.Bcu2Start? {
      assert c[46] == c[4..][42];
    }
  }

  lemma OtherReads(s: Stream)
    requires s.Unknown? || s.BcuType? || s.Code? || s.Bcu2Key?
    requires FieldsFit(s) && |Body(s)| <= 0xFFFD
    ensures IsStream(Plain(s)) && Init(Plain(s)) == Some(s)
  {
    hide Plain, Word, MakeAddress, KindOf, IsStream, InitList, ReadWords, NameFrom, Dword, Dwords, MakeKey, ReadKeys;
    PlainParts(s);
    var c := Plain(s);
    match s
    case Unknown(_, _) =>
    case Code(_) =>
    case BcuType(mask) =>
      assert Word(mask) + [] == Word(mask);
      WordAt(c, 4, mask, []);
    case Bcu2Key(k, keys) =>
      DwordSize(k);
      assert c[4..8] == c[4..][..4] == Dword(k) && c[8..] == c[4..][4..] == Dwords(keys);
      KeyRead(c, 4, k);
      KeysRead(c, 8, keys);
  }

  lemma LastIsZero(strings: seq<Bytes>)
    requires strings != []
    ensures Terminated(strings) != [] && Terminated(strings)[|Terminated(strings)| - 1] == 0
    decreases |strings|
  {
    if |strings| > 1 {
      LastIsZero(strings[1..]);
    } else {
      assert strings[1..] == [];
    }
  }

  /** The parts of a written list. */
  lemma ListLayout(s: Stream, c: Bytes)
    requires s.ListPar? && |s.elements| < 0x10000 && |c| >= 4 && c[4..] == Body(s)
    ensures var z := 8 + |s.name|;
      && z < |c| && MakeAddress(c[4], c[5]) == s.addr && MakeAddress(c[6], c[7]) == |s.elements|
      && c[8..z] == s.name && c[z] == 0 && c[z + 1..] == Terminated(s.elements)
  {
    hide Word, MakeAddress, Terminated, Low16;
    var name, tail := s.name, Terminated(s.elements);
    Low16Small(|s.elements|);
    assert c[4..] == Word(s.addr) + (Word(|s.elements|) + (name + [0] + tail));
    WordAt(c, 4, s.addr, Word(|s.elements|) + (name + [0] + tail));
    WordAt(c, 6, |s.elements|, name + [0] + tail);
    FirstStringCut(c, 8, name, tail);
  }

  lemma InitIsInitList(c: Bytes)
    requires |c| >= 4 && KindOf(c) == LIST_PAR
    ensures Init(c) == InitList(c)
  {
    hide KindOf, InitList;
  }

  /** The scans of the reader find these parts again. */
  lemma ListScanned(s: Stream, c: Bytes)
    requires s.ListPar? && s.elements != [] && NoZero(s.name) && (forall x | x in s.elements :: NoZero(x))
    requires |s.elements| < 0x10000 && |c| >= 4 && c[4..] == Body(s)
    ensures InitList(c) == Some(s)
  {
    hide Body, MakeAddress, NoZero, FirstZero, Terminated, StringsFrom;
    var tail := Terminated(s.elements);
    LastIsZero(s.elements);
    ListLayout(s, c);
    FirstZeroIs(c, 8, s.name);
    assert c[|c| - 1] == c[9 + |s.name|..][|tail| - 1];
    StringsRead(c, 9 + |s.name|, s.elements);
  }

  lemma ListReads(s: Stream)
    requires s.ListPar? && FieldsFit(s) && |Body(s)| <= 0xFFFD
    ensures IsStream(Plain(s)) && InitList(Plain(s)) == Some(s) && Init(Plain(s)) == Some(s)
  {
    hide Plain, Body, KindOf, IsStream, NoZero, Init, InitList, Terminated;
    PlainParts(s);
    WordSizes(s);
    TerminatedSize(s.elements);
    ListScanned(s, Plain(s));
    InitIsInitList(Plain(s));
  }

  lemma PlainReads(s: Stream)
    requires !s.Invalid? && FieldsFit(s) && |Body(s)| <= 0xFFFD
    ensures IsStream(Plain(s)) && Init(Plain(s)) == Some(s) && KindOf(Plain(s)) == Kind(s)
  {
    hide Init, InitList, IsStream, KindOf, Plain, FieldsFit, Body, Kind;
    PlainParts(s);
    if s.ListPar? {
      ListReads(s);
    } else if s.StringPar? || s.IntPar? || s.FloatPar? || s.GroupObject? {
      NamedReads(s);
    } else if s.Bcu1Size? || s.Bcu2Size? || s.Bcu2Start? {
      RecordReads(s);
    } else {
      OtherReads(s);
    }
  }

  // ------------------------------------------------------------- what was read fits

  lemma {:induction false} StringsFit(c: Bytes, at: nat, n: nat)
    requires at <= |c| && StringsFrom(c, at, n).Some?
    ensures forall x | x in StringsFrom(c, at, n).value :: NoZero(x)
    decreases n
  {
    if n > 0 {
      var z := FirstZero(c, at);
      StringsFit(c, z + 1, n - 1);
      assert NoZero(c[at..z]);
    }
  }

  lemma NameFits(c: Bytes, at: nat)
    requires at < |c| && NameFrom(c, at).Some?
    ensures NoZero(NameFrom(c, at).value)
  {
  }

  lemma ListFits(c: Bytes, s: Stream)
    requires IsStream(c) && KindOf(c) == LIST_PAR && InitList(c) == Some(s)
    ensures FieldsFit(s) && |Body(s)| + 4 == |c|
  {
    hide Terminated, StringsFrom, MakeAddress, Word, NoZero, Low16, KindOf;
    ListParts(c, s);
    var z := FirstZero(c, 8);
    StringsFit(c, z + 1, MakeAddress(c[6], c[7]));
    assert NoZero(s.name) by { ListName(c, s); }
    TailSize(c, 9 + |s.name|, Terminated(s.elements));
    if s.elements == [] {
      NoStrings();
      assert false;
    }
    WordSizes(s);
  }

  lemma NoStrings()
    ensures Terminated([]) == []
  {
  }

  lemma WordSizes(s: Stream)
    requires s.ListPar?
    ensures |Body(s)| == 5 + |s.name| + |Terminated(s.elements)|
  {
  }

  lemma ListName(c: Bytes, s: Stream)
    requires |c| >= 4 && InitList(c) == Some(s)
    ensures NoZero(s.name)
  {
    hide StringsFrom, MakeAddress;
    var z := FirstZero(c, 8);
    assert s.name == c[8..z];
  }

  /** Everything that is read fits, and takes as many bytes as were read. */
  lemma ReadFits(c: Bytes, s: Stream)
    requires IsStream(c) && Init(c) == Some(s)
    ensures !s.Invalid? && FieldsFit(s) && |Body(s)| + 4 == |c| <= 0x10001
  {
    OnlyListsAreLists(c, s);
    if KindOf(c) == LIST_PAR {
      assert Init(c) == InitList(c);
      hide InitList, Init, KindOf, Body, FieldsFit, MakeAddress;
      LengthField(c);
      ListFits(c, s);
    } else {
      hide Init, KindOf, Body, FieldsFit, MakeAddress;
      LengthField(c);
      PlainFits(c, s);
    }
  }

  lemma LengthField(c: Bytes)
    requires IsStream(c)
    ensures |c| <= 0x10001
  {
  }

  lemma PlainFits(c: Bytes, s: Stream)
    requires IsStream(c) && Init(c) == Some(s) && KindOf(c) != LIST_PAR
    ensures FieldsFit(s) && |Body(s)| + 4 == |c|
  {
    OnlyListsAreLists(c, s);
    if s.StringPar? || s.IntPar? || s.FloatPar? || s.GroupObject? {
      BodyOfNamed(c, s);
      hide IsStream, MakeAddress, Body, InitList, ReadWords, ReadKeys, NameFrom, NoZero, Kind;
      var k := KindOf(c);
      if k == STRING_PAR {
        NameFits(c, 8);
      } else if k == INT_PAR {
        NameFits(c, 7);
      } else if k == FLOAT_PAR {
        NameFits(c, 6);
      } else {
        NameFits(c, 5);
      }
    } else {
      BodyOfFixed(c, s);
      hide IsStream, MakeAddress, Body, InitList, ReadKeys, NameFrom, NoZero;
    }
  }

  // ------------------------------------------------------------- reading undoes writing

  /** Writing a value whose fields fit. */
  lemma WrittenForm(s: Stream)
    requires !s.Invalid? && FieldsFit(s) && |Body(s)| <= 0xFFFD
    ensures WriteStream(s) == if Damaged(s) then Plain(s)[0 := 0] else Plain(s)
    ensures Damaged(s) ==> Plain(s)[0] == 255 && |Plain(s)| == 0x10001
  {
    if s.ListPar? {
      hide FieldsFit, Body, WriteStream, Damaged, Plain;
      ListForm(s);
    } else {
      hide FieldsFit, Body, Plain, ListArray, Terminated;
    }
  }

  lemma ListForm(s: Stream)
    requires s.ListPar? && FieldsFit(s) && |Body(s)| <= 0xFFFD
    ensures WriteStream(s) == if Damaged(s) then Plain(s)[0 := 0] else Plain(s)
    ensures Damaged(s) ==> Plain(s)[0] == 255 && |Plain(s)| == 0x10001
  {
    hide Plain, Init, InitList, Terminated, IsStream, KindOf, FieldsFit, Wraps, Body, WriteStream;
    PlainReads(s);
    ListReads(s);
    ListRebuilt(Plain(s), s);
    PlainParts(s);
    WordSizes(s);
    WrapsOnlyLongest(|Plain(s)|, s.elements);
    FirstByteOfLongest(Plain(s));
  }

  lemma WrapsOnlyLongest(size: nat, strings: seq<Bytes>)
    ensures Wraps(size, strings) ==> size == 0x10001
  {
  }

  /** For every stream of every kind: what is written for it is a stream, and reads back as it was,
      exactly if its fields fit. */
  lemma ReadUndoesWrite(s: Stream)
    ensures IsStream(WriteStream(s)) && ReadStream(WriteStream(s)) == s <==> Fits(s)
  {
    hide Init, InitList, Plain, Body, FieldsFit, Damaged, WriteStream, MakeAddress;
    if s.Invalid? {
      InvalidReads(s);
    } else if FieldsFit(s) && |Body(s)| <= 0xFFFD {
      WrittenForm(s);
      PlainReads(s);
      if Damaged(s) {
        NotAStream(Plain(s));
      }
    } else if IsStream(WriteStream(s)) && ReadStream(WriteStream(s)) == s {
      ReadFits(WriteStream(s), s);
      assert false;
    }
  }

  /** The head of what is written, byte by byte: how many bytes follow the length, high byte first,
      and the number of the kind. */
  lemma HeadBytes(s: Stream)
    requires !s.Invalid? && Fits(s)
    ensures var c := WriteStream(s);
      && |c| >= 4 && 256 * (c[0] as int) + c[1] as int == |c| - 2
      && 256 * (c[2] as int) + c[3] as int == match s
         case Unknown(k, _) => k
         case Code(_) => 1
         case Bcu1Size(_) => 2
         case Bcu2Size(_) => 3
         case BcuType(_) => 100
         case Bcu2Start(_, _) => 101
         case Bcu2Key(_, _) => 102
         case StringPar(_, _, _) => 500
         case IntPar(_, _, _) => 501
         case FloatPar(_, _) => 502
         case ListPar(_, _, _) => 503
         case GroupObject(_, _) => 504
  {
    hide Init, InitList, Plain, Body, WriteStream, FieldsFit, Damaged;
    WrittenForm(s);
    PlainParts(s);
  }

  lemma InvalidReads(s: Stream)
    requires s.Invalid?
    ensures IsStream(WriteStream(s)) && ReadStream(WriteStream(s)) == s <==> Fits(s)
  {
    hide MakeAddress, Init;
    if IsStream(s.data) && Init(s.data).Some? {
      OnlyListsAreLists(s.data, Init(s.data).value);
    }
  }

  lemma NotAStream(c: Bytes)
    requires |c| == 0x10001 && c[0] == 255
    ensures !IsStream(c[0 := 0])
  {
  }

  // ------------------------------------------------------------- whole images

  /** Image::toArray. The size is put into the header while the array holds nothing else. */
  function WriteImage(streams: seq<Stream>): Bytes {
    MAGIC + [0, 10] + WriteStreams(streams)
  }

  ghost predicate AllFit(streams: seq<Stream>) {
    forall k | 0 <= k < |streams| :: Fits(streams[k])
  }

  /** The parser wants more than four bytes from the start of the last stream. */
  predicate LastIsLong(streams: seq<Stream>) {
    streams == [] || |WriteStream(streams[|streams| - 1])| > 4
  }

  lemma StreamAtWritten(c: Bytes, pos: nat, p: Bytes, rest: Bytes)
    requires pos <= |c| && c[pos..] == p + rest && IsStream(p)
    ensures pos + |p| <= |c| && c[pos..pos + |p|] == p && c[pos + |p|..] == rest
    ensures StreamAt(c, pos) == if |p| == 4 && rest == [] then 0 else |p|
  {
    var all := c[pos..];
    assert c[pos..pos + |p|] == all[..|p|] && c[pos + |p|..] == all[|p|..];
    assert c[pos] == all[0] && c[pos + 1] == all[1];
    hide MakeAddress;
  }

  lemma {:induction false} WrittenSize(streams: seq<Stream>)
    requires AllFit(streams)
    ensures |WriteStreams(streams)| >= 4 * |streams|
    decreases |streams|
  {
    hide WriteStream, Fits, ReadStream;
    if streams != [] {
      ReadUndoesWrite(streams[0]);
      WrittenSize(streams[1..]);
    }
  }

  lemma {:induction false} StreamsRead(c: Bytes, pos: nat, streams: seq<Stream>)
    requires pos <= |c| && c[pos..] == WriteStreams(streams) && AllFit(streams)
    ensures ReadStreams(c, pos) == if LastIsLong(streams) then Some(streams) else None
    decreases |streams|
  {
    hide ReadStream, WriteStream, Fits, StreamAt, IsStream;
    if streams != [] {
      var p, rest := WriteStream(streams[0]), WriteStreams(streams[1..]);
      ReadUndoesWrite(streams[0]);
      ShortestStream(p);
      StreamAtWritten(c, pos, p, rest);
      WrittenSize(streams[1..]);
      StreamsRead(c, pos + |p|, streams[1..]);
      if streams[1..] != [] {
        assert streams[1..][|streams| - 2] == streams[|streams| - 1];
      }
      assert [streams[0]] + streams[1..] == streams;
    }
  }

  lemma ShortestStream(p: Bytes)
    requires IsStream(p)
    ensures |p| >= 4
  {
  }

  /** Streams written behind any header are read back, unless the last one is as short as can be. */
  lemma StreamsReadBack(header: Bytes, streams: seq<Stream>)
    requires |header| == 10 && AllFit(streams)
    ensures ReadStreams(header + WriteStreams(streams), 10) == if LastIsLong(streams) then Some(streams) else None
  {
    hide ReadStreams, WriteStreams, Fits, LastIsLong;
    var c := header + WriteStreams(streams);
    assert c[10..] == WriteStreams(streams);
    StreamsRead(c, 10, streams);
  }

  lemma WrittenHeader(streams: seq<Stream>)
    ensures HasHeader(WriteImage(streams)) <==> |WriteStreams(streams)| % 0x10000 == 0
  {
    hide WriteStreams;
    var c, n := WriteImage(streams), |WriteStreams(streams)|;
    assert c[..8] == MAGIC && c[8] == 0 && c[9] == 10 && |c| == 10 + n;
    SizeBytes(n);
  }

  lemma SizeBytes(n: nat)
    ensures (10 + n) / 256 % 256 == 0 && (10 + n) % 256 == 10 <==> n % 0x10000 == 0
  {
  }

  /** An image that was written is read back exactly if its streams together take a multiple of
      65536 bytes, none included, and the last is longer than four bytes: the header says ten. */
  lemma ImageReadsBackIff(streams: seq<Stream>)
    requires AllFit(streams)
    ensures ReadImage(WriteImage(streams)) == Some(streams) <==>
      |WriteStreams(streams)| % 0x10000 == 0 && LastIsLong(streams)
  {
    hide ReadStreams, WriteStreams, Fits, LastIsLong, HasHeader;
    WrittenHeader(streams);
    StreamsReadBack(MAGIC + [0, 10], streams);
  }

  lemma {:induction false} WriteStreamsMore(streams: seq<Stream>, i: nat)
    requires i < |streams|
    ensures WriteStreams(streams[..i + 1]) == WriteStreams(streams[..i]) + WriteStream(streams[i])
    decreases i
  {
    hide WriteStream;
    if i == 0 {
      assert streams[..1][1..] == [] && streams[..0] == [];
    } else {
      WriteStreamsMore(streams[1..], i - 1);
      assert streams[..i + 1][1..] == streams[1..][..i] && streams[..i][1..] == streams[1..][..i - 1];
      assert streams[1..][i - 1] == streams[i];
    }
  }

  /** Image::toArray: each stream is put at the end of what there is. */
  method ToArray(streams: seq<Stream>) returns (data: Bytes)
    ensures data == WriteImage(streams)
  {
    hide WriteStream;
    data := MAGIC + [0, 0];
    data := data[8 := |data| / 256 % 256];
    data := data[9 := |data| % 256];
    for i := 0 to |streams|
      invariant data == MAGIC + [0, 10] + WriteStreams(streams[..i])
    {
      WriteStreamsMore(streams, i);
      data := SetPart(data, WriteStream(streams[i]), |data|);
    }
    assert streams[..|streams|] == streams;
  }
}
