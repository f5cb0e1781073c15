/** PCAPNG recordings: the writer, the reader, and what one makes of the other's
    output (layouts of sections 3.1, 3.5, 4.1, 4.2 and 4.3 of the IETF pcapng draft). */
module Pcapng {
  import opened Prelude

  const SECTION_HEADER := 0x0a0d0d0a
  const INTERFACE_DESCRIPTION := 1
  const ENHANCED_PACKET := 6
  const MAGIC := 0x1a2b3c4d
  const ETHERNET := 1
  const MAX_SNAP := 65536
  const MAX_BLOCK := 1048576
  const WORD16 := 0x1_0000
  const WORD32 := 0x1_0000_0000
  const WORD64 := 0x1_0000_0000_0000_0000
  const MAX_INT64 := 0x7fff_ffff_ffff_ffff

  // ----- Little-endian numbers -----

  function Le16(x: nat): (r: seq<byte>)
    requires x < WORD16
    ensures |r| == 2
  {
    [(x % 256) as byte, (x / 256) as byte]
  }

  function Le32(x: nat): (r: seq<byte>)
    requires x < WORD32
    ensures |r| == 4
  {
    Le16(x % WORD16) + Le16(x / WORD16)
  }

  function U16(s: seq<byte>): (r: nat)
    requires |s| >= 2
    ensures r < WORD16
  {
    s[0] as int + s[1] as int * 256
  }

  function U32(s: seq<byte>): (r: nat)
    requires |s| >= 4
    ensures r < WORD32
  {
    U16(s) + U16(s[2..]) * WORD16
  }

  lemma U16OfLe16(x: nat, rest: seq<byte>)
    requires x < WORD16
    ensures U16(Le16(x) + rest) == x
  {
  }

  lemma U32OfLe32(x: nat)
    requires x < WORD32
    ensures U32(Le32(x)) == x
  {
    var s := Le32(x);
    assert s[2..] == Le16(x / WORD16) + [];
    U16OfLe16(x % WORD16, Le16(x / WORD16));
    U16OfLe16(x / WORD16, []);
  }

  /** A field reads the same whatever follows it. */
  lemma Field(s: seq<byte>, rest: seq<byte>)
    requires |s| == 4
    ensures U32(s + rest) == U32(s)
  {
    assert (s + rest)[2..][0] == s[2..][0] && (s + rest)[2..][1] == s[2..][1];
  }

  // ----- Layouts -----

  function Zeros(n: nat): (r: seq<byte>)
    ensures |r| == n
  {
    seq(n, _ => 0 as byte)
  }

  /** (-n) & 3 */
  function PadLength(n: nat): (r: nat)
    ensures r < 4
  {
    (4 - n % 4) % 4
  }

  function Padded(data: seq<byte>): (r: seq<byte>)
    ensures |r| == |data| + PadLength(|data|) && data <= r
  {
    data + Zeros(PadLength(|data|))
  }

  function OptionBytes(kind: nat, value: seq<byte>): (r: seq<byte>)
    requires kind < WORD16 && |value| < WORD16
    ensures |r| == 4 + |value| + PadLength(|value|)
  {
    Le16(kind) + Le16(|value|) + Padded(value)
  }

  function Block(kind: nat, body: seq<byte>): (r: seq<byte>)
    requires kind < WORD32 && |body| + 12 < WORD32
    ensures |r| == |body| + 12
  {
    Le32(kind) + Le32(|body| + 12) + body + Le32(|body| + 12)
  }

  function SectionBody(): (r: seq<byte>)
    ensures |r| == 16
  {
    Le32(MAGIC) + (Le16(1) + Le16(0) + [255, 255, 255, 255, 255, 255, 255, 255])
  }

  function InterfaceBody(name: seq<byte>): (r: seq<byte>)
    requires |name| < WORD16
    ensures |r| + 12 < MAX_BLOCK
  {
    Le16(ETHERNET) + (Le16(0) + (Le32(MAX_SNAP) + (OptionBytes(2, name) + (OptionBytes(9, [6]) + OptionBytes(0, [])))))
  }

  /** One accepted packet. `at` is its time in microseconds since the epoch. */
  datatype Entry = Entry(id: nat, frame: seq<byte>, wire: nat, at: int, comment: seq<byte>)

  /** What Packet accepts when there are enough interfaces. */
  predicate Sound(p: Entry) {
    && p.id < WORD32
    && 0 < |p.frame| <= MAX_SNAP && |p.frame| <= p.wire < WORD32
    && |p.comment| < WORD16
    && -MAX_INT64 - 1 <= p.at <= MAX_INT64
  }

  predicate AllSound(packets: seq<Entry>) { forall i :: 0 <= i < |packets| ==> Sound(packets[i]) }

  predicate AllOn(packets: seq<Entry>, interfaces: nat) {
    forall i :: 0 <= i < |packets| ==> packets[i].id < interfaces
  }

  predicate AllShort(names: seq<seq<byte>>) { forall i :: 0 <= i < |names| ==> |names[i]| < WORD16 }

  /** uint64(at) */
  function Stamp(at: int): (r: nat)
    requires -MAX_INT64 - 1 <= at <= MAX_INT64
    ensures r < WORD64 && (at >= 0 <==> r <= MAX_INT64) && (at >= 0 ==> r == at)
  {
    if at >= 0 then at else at + WORD64
  }

  function CommentBytes(comment: seq<byte>): (r: seq<byte>)
    requires |comment| < WORD16
    ensures |r| <= 8 + WORD16 + 3
  {
    if comment == [] then [] else OptionBytes(1, comment) + OptionBytes(0, [])
  }

  function PacketBody(p: Entry): (r: seq<byte>)
    requires Sound(p)
    ensures |r| + 12 < MAX_BLOCK
  {
    Le32(p.id) + (Le32(Stamp(p.at) / WORD32) + (Le32(Stamp(p.at) % WORD32) + (Le32(|p.frame|) + (Le32(p.wire)
    + (Padded(p.frame) + CommentBytes(p.comment))))))
  }

  function Flatten(blocks: seq<seq<byte>>): seq<byte>
    decreases |blocks|
  {
    if blocks == [] then [] else Flatten(blocks[..|blocks| - 1]) + blocks[|blocks| - 1]
  }

  function SectionBlock(): seq<byte> { Block(SECTION_HEADER, SectionBody()) }

  function InterfaceBlock(name: seq<byte>): seq<byte>
    requires |name| < WORD16
  {
    Block(INTERFACE_DESCRIPTION, InterfaceBody(name))
  }

  function PacketBlock(p: Entry): seq<byte>
    requires Sound(p)
  {
    Block(ENHANCED_PACKET, PacketBody(p))
  }

  function InterfaceBlocks(names: seq<seq<byte>>): seq<seq<byte>>
    requires AllShort(names)
  {
    seq(|names|, i requires 0 <= i < |names| => InterfaceBlock(names[i]))
  }

  function PacketBlocks(packets: seq<Entry>): seq<seq<byte>>
    requires AllSound(packets)
  {
    seq(|packets|, i requires 0 <= i < |packets| => PacketBlock(packets[i]))
  }

  /** The whole recording. */
  function Recording(names: seq<seq<byte>>, packets: seq<Entry>): seq<byte>
    requires AllShort(names) && AllSound(packets)
  {
    SectionBlock() + Flatten(InterfaceBlocks(names)) + Flatten(PacketBlocks(packets))
  }

  // ----- The layouts byte for byte -----

  /** The least byte comes first. */
  lemma LittleEndian(x: nat)
    requires x < WORD32
    ensures var low, high := x % 65536, x / 65536;
            Le32(x) == [(low % 256) as byte, (low / 256) as byte, (high % 256) as byte, (high / 256) as byte]
  {
  }

  lemma BlockBytes(kind: nat, body: seq<byte>, k: seq<byte>, n: seq<byte>)
    requires kind < WORD32 && |body| + 12 < WORD32 && Le32(kind) == k && Le32(|body| + 12) == n
    ensures Block(kind, body) == k + n + body + n
  {
  }

  lemma SectionNumbers()
    ensures Le32(SECTION_HEADER) == [10, 13, 13, 10] && Le32(28) == [28, 0, 0, 0] && Le32(MAGIC) == [77, 60, 43, 26]
  {
    LittleEndian(SECTION_HEADER);
    LittleEndian(28);
    LittleEndian(MAGIC);
  }

  lemma SectionBodyBytes()
    ensures SectionBody() == [77, 60, 43, 26, 1, 0, 0, 0, 255, 255, 255, 255, 255, 255, 255, 255]
  {
    SectionNumbers();
    assert Le16(1) == [1, 0] && Le16(0) == [0, 0];
  }

  lemma SectionBytes()
    ensures SectionBlock() == [10, 13, 13, 10, 28, 0, 0, 0, 77, 60, 43, 26, 1, 0, 0, 0,
                               255, 255, 255, 255, 255, 255, 255, 255, 28, 0, 0, 0]
  {
    SectionNumbers();
    SectionBodyBytes();
    BlockBytes(SECTION_HEADER, SectionBody(), [10, 13, 13, 10], [28, 0, 0, 0]);
  }

  // ----- Alignment: the writer's own check can never fail -----

  lemma PaddedWords(data: seq<byte>) returns (words: nat)
    ensures |Padded(data)| == 4 * words
  {
    words := |Padded(data)| / 4;
  }

  lemma InterfaceAligned(name: seq<byte>)
    requires |name| < WORD16
    ensures |InterfaceBody(name)| % 4 == 0
  {
    var n := PaddedWords(name);
    assert |InterfaceBody(name)| == 4 * (n + 6);
  }

  lemma PacketAligned(p: Entry)
    requires Sound(p)
    ensures |PacketBody(p)| % 4 == 0
  {
    var f := PaddedWords(p.frame);
    var c := PaddedWords(p.comment);
    assert |PacketBody(p)| == 4 * (5 + f + if p.comment == [] then 0 else 2 + c);
  }

  // ----- The reader -----

  datatype Recorded = Recorded(name: seq<byte>, frame: seq<byte>, wire: nat, at: int, comment: seq<byte>)

  datatype Failure =
    | EmptyFile | ShortInput | BadBlockLength | LengthMismatch | NoSection | BadSection | BadInterface
    | BadOption | BadPacket | BadTimestamp

  datatype OptionList = Options(list: seq<(nat, seq<byte>)>) | Malformed

  function ReadOptions(data: seq<byte>): OptionList
    decreases |data|
  {
    if data == [] then Options([])
    else if |data| < 4 then Malformed
    else
      var kind, size := U16(data), U16(data[2..]);
      var rest := data[4..];
      var padded := size + PadLength(size);
      if |rest| < padded then Malformed
      else if kind == 0 then (if size != 0 then Malformed else Options([]))
      else
        match ReadOptions(rest[padded..])
        case Malformed => Malformed
        case Options(list) => Options([(kind, rest[..size])] + list)
  }

  /** The value the reader's visitor is left with: the last one of that kind that it
      takes, or the default. */
  function Last(list: seq<(nat, seq<byte>)>, kind: nat, default: seq<byte>, size: Option<nat>): seq<byte>
    decreases |list|
  {
    if list == [] then default
    else
      var (k, v) := list[|list| - 1];
      if k == kind && (size.None? || |v| == size.value) then v
      else Last(list[..|list| - 1], kind, default, size)
  }

  datatype InterfaceResult = Interface(name: seq<byte>) | Unusable(why: Failure)

  function ReadInterface(body: seq<byte>): InterfaceResult {
    if |body| < 8 || U16(body) != ETHERNET then Unusable(BadInterface)
    else
      match ReadOptions(body[8..])
      case Malformed => Unusable(BadOption)
      case Options(list) =>
        var name, resolution := Last(list, 2, [], None), Last(list, 9, [6], Some(1));
        if name == [] || resolution != [6] then Unusable(BadInterface) else Interface(name)
  }

  datatype PacketResult = Packet(p: Recorded) | Bad(why: Failure)

  /** What follows a packet's lengths: its options, and its time. */
  function ReadRest(name: seq<byte>, body: seq<byte>, captured: nat, wire: nat, optionStart: nat): PacketResult
    requires 20 + captured <= optionStart <= |body|
  {
    match ReadOptions(body[optionStart..])
    case Malformed => Bad(BadOption)
    case Options(list) =>
      var stamp := U32(body[4..]) * WORD32 + U32(body[8..]);
      if stamp > MAX_INT64 then Bad(BadTimestamp)
      else Packet(Recorded(name, body[20..20 + captured], wire, stamp, Last(list, 1, [], None)))
  }

  function ReadPacket(names: seq<seq<byte>>, body: seq<byte>): PacketResult {
    if |body| < 20 then Bad(BadPacket)
    else
      var id, captured, wire := U32(body), U32(body[12..]), U32(body[16..]);
      if id >= |names| || captured == 0 || captured > MAX_SNAP || wire < captured
         || 20 + captured + PadLength(captured) > |body|
      then Bad(BadPacket)
      else
        ReadRest(names[id], body, captured, wire, 20 + captured + PadLength(captured))
  }

  /** The packets visited before the end of the input or the first failure. */
  datatype Reading = Reading(packets: seq<Recorded>, failure: Option<Failure>)

  function Then(p: Recorded, r: Reading): Reading { r.(packets := [p] + r.packets) }

  function ReadBlocks(input: seq<byte>, names: seq<seq<byte>>, seen: bool): Reading
    decreases |input|
  {
    if input == [] then Reading([], if seen then None else Some(EmptyFile))
    else if |input| < 8 then Reading([], Some(ShortInput))
    else
      var kind, size := U32(input), U32(input[4..]);
      if size < 12 || size % 4 != 0 || size > MAX_BLOCK then Reading([], Some(BadBlockLength))
      else if |input| < size then Reading([], Some(ShortInput))
      else if U32(input[size - 4..]) != size then Reading([], Some(LengthMismatch))
      else ReadBody(kind, input[8..size - 4], input[size..], names, seen)
  }

  function ReadBody(kind: nat, body: seq<byte>, rest: seq<byte>, names: seq<seq<byte>>, seen: bool): Reading
    decreases |rest| + 1
  {
    if !seen && kind != SECTION_HEADER then Reading([], Some(NoSection))
    else if kind == SECTION_HEADER then
      if seen || |body| < 16 || U32(body) != MAGIC then Reading([], Some(BadSection)) else ReadBlocks(rest, names, true)
    else if kind == INTERFACE_DESCRIPTION then
      match ReadInterface(body)
      case Unusable(why) => Reading([], Some(why))
      case Interface(name) => ReadBlocks(rest, names + [name], true)
    else if kind == ENHANCED_PACKET then
      match ReadPacket(names, body)
      case Bad(why) => Reading([], Some(why))
      case Packet(p) => Then(p, ReadBlocks(rest, names, true))
    else ReadBlocks(rest, names, seen)
  }

  // ----- What the reader makes of each layout -----

  lemma BlockFields(kind: nat, body: seq<byte>, rest: seq<byte>)
    requires kind < WORD32 && |body| + 12 < WORD32
    ensures var input, size := Block(kind, body) + rest, |body| + 12;
            && U32(input) == kind && U32(input[4..]) == size && U32(input[size - 4..]) == size
            && input[8..size - 4] == body && input[size..] == rest
  {
    var size := |body| + 12;
    BlockLayout(Le32(kind), Le32(size), body, rest);
    U32OfLe32(kind);
    U32OfLe32(size);
    assert Block(kind, body) + rest == Le32(kind) + Le32(size) + body + Le32(size) + rest;
  }

  lemma BlockLayout(head: seq<byte>, length: seq<byte>, body: seq<byte>, rest: seq<byte>)
    requires |head| == 4 && |length| == 4
    ensures var input, size := head + length + body + length + rest, |body| + 12;
            && U32(input) == U32(head) && U32(input[4..]) == U32(length) && U32(input[size - 4..]) == U32(length)
            && input[8..size - 4] == body && input[size..] == rest
  {
    var input, size := head + length + body + length + rest, |body| + 12;
    assert input == head + (length + body + length + rest);
    Field(head, length + body + length + rest);
    assert input[4..] == length + (body + length + rest);
    Field(length, body + length + rest);
    assert input[size - 4..] == length + rest;
    Field(length, rest);
    assert input[8..size - 4] == body;
    assert input[size..] == rest;
  }

  /** A block of no allowed length, one that is cut short, and a first block that is not a
      section are refused. */
  lemma RefusedBlocks(kind: nat, size: nat, rest: seq<byte>, names: seq<seq<byte>>, seen: bool)
    requires kind < WORD32 && size < WORD32
    ensures var r := ReadBlocks(Le32(kind) + (Le32(size) + rest), names, seen);
            && (size < 12 || size % 4 != 0 || size > 1048576 ==> r == Reading([], Some(BadBlockLength)))
            && (12 <= size <= 1048576 && size % 4 == 0 && |rest| + 8 < size ==> r == Reading([], Some(ShortInput)))
  {
    var input := Le32(kind) + (Le32(size) + rest);
    Field(Le32(kind), Le32(size) + rest);
    assert input[4..] == Le32(size) + rest;
    Field(Le32(size), rest);
    U32OfLe32(kind);
    U32OfLe32(size);
  }

  lemma RefusedSections(kind: nat, body: seq<byte>, rest: seq<byte>, names: seq<seq<byte>>, seen: bool)
    ensures !seen && kind != 0x0a0d0d0a ==> ReadBody(kind, body, rest, names, seen) == Reading([], Some(NoSection))
    ensures seen && kind == 0x0a0d0d0a ==> ReadBody(kind, body, rest, names, seen) == Reading([], Some(BadSection))
    ensures ReadBlocks([], names, seen) == Reading([], if seen then None else Some(EmptyFile))
  {
  }

  lemma BlockRead(kind: nat, body: seq<byte>, rest: seq<byte>, names: seq<seq<byte>>, seen: bool)
    requires kind < WORD32 && |body| % 4 == 0 && |body| + 12 <= MAX_BLOCK
    ensures ReadBlocks(Block(kind, body) + rest, names, seen) == ReadBody(kind, body, rest, names, seen)
  {
    BlockFields(kind, body, rest);
  }

  lemma OptionRead(kind: nat, value: seq<byte>, rest: seq<byte>)
    requires kind < WORD16 && |value| < WORD16
    ensures kind == 0 && value == [] ==> ReadOptions(OptionBytes(kind, value) + rest) == Options([])
    ensures kind != 0 && ReadOptions(rest).Options? ==>
              ReadOptions(OptionBytes(kind, value) + rest) == Options([(kind, value)] + ReadOptions(rest).list)
  {
    var data := OptionBytes(kind, value) + rest;
    assert data == Le16(kind) + (Le16(|value|) + (Padded(value) + rest));
    U16OfLe16(kind, Le16(|value|) + (Padded(value) + rest));
    assert data[2..] == Le16(|value|) + (Padded(value) + rest);
    U16OfLe16(|value|, Padded(value) + rest);
    assert data[4..] == Padded(value) + rest;
    assert (Padded(value) + rest)[..|value|] == value;
    assert (Padded(value) + rest)[|value| + PadLength(|value|)..] == rest;
  }

  lemma EndRead()
    ensures ReadOptions(OptionBytes(0, [])) == Options([])
  {
    assert OptionBytes(0, []) + [] == OptionBytes(0, []);
    OptionRead(0, [], []);
  }

  lemma InterfaceOptions(name: seq<byte>)
    requires |name| < WORD16
    ensures ReadOptions(OptionBytes(2, name) + (OptionBytes(9, [6]) + OptionBytes(0, [])))
            == Options([(2, name), (9, [6])])
  {
    EndRead();
    OptionRead(9, [6], OptionBytes(0, []));
    OptionRead(2, name, OptionBytes(9, [6]) + OptionBytes(0, []));
    assert [(9, [6 as byte])] + [] == [(9, [6])];
    assert [(2, name)] + [(9, [6])] == [(2, name), (9, [6])];
  }

  lemma InterfaceFrom(body: seq<byte>, name: seq<byte>)
    requires |body| >= 8 && U16(body) == ETHERNET && ReadOptions(body[8..]) == Options([(2, name), (9, [6])])
    ensures ReadInterface(body) == if name == [] then Unusable(BadInterface) else Interface(name)
  {
    LastOfTwo(name);
  }

  /** A written interface reads back as its name, unless the name is empty. */
  lemma InterfaceRead(name: seq<byte>)
    requires |name| < WORD16
    ensures ReadInterface(InterfaceBody(name)) == if name == [] then Unusable(BadInterface) else Interface(name)
  {
    var options := OptionBytes(2, name) + (OptionBytes(9, [6]) + OptionBytes(0, []));
    U16OfLe16(ETHERNET, Le16(0) + (Le32(MAX_SNAP) + options));
    InterfaceOptions(name);
    EightThen(Le16(ETHERNET), Le16(0), Le32(MAX_SNAP), options);
    InterfaceFrom(InterfaceBody(name), name);
  }

  lemma PartsOf(a: seq<byte>, b: seq<byte>, c: seq<byte>, d: seq<byte>, e: seq<byte>, f: seq<byte>, g: seq<byte>)
    requires |a| == 2 && |b| == 2 && |c| == 4 && |d| == 4
    ensures var all := a + (b + (c + (d + e + (f + g))));
            && all[..2] == a && all[2..4] == b && all[4..8] == c && all[8..12] == d && all[12..12 + |e|] == e
            && all[12 + |e|..] == f + g
  {
  }

  lemma ResolutionBytes()
    ensures OptionBytes(9, [6]) + OptionBytes(0, []) == [9, 0, 1, 0, 6, 0, 0, 0, 0, 0, 0, 0]
  {
    assert Padded([6]) == [6, 0, 0, 0] && Padded([]) == [];
  }

  /** An interface's link type, snap length, name and resolution, each in its place. */
  lemma InterfaceFields(name: seq<byte>)
    requires |name| < WORD16
    ensures var b, size := InterfaceBody(name), |name| + PadLength(|name|);
            && b[..2] == [1, 0] && b[2..4] == [0, 0] && b[4..8] == [0, 0, 1, 0]
            && b[8..12] == [2, 0, (|name| % 256) as byte, (|name| / 256) as byte]
            && |b| == 24 + size && name <= b[12..12 + size] && b[12 + size..] == [9, 0, 1, 0, 6, 0, 0, 0, 0, 0, 0, 0]
  {
    PartsOf(Le16(1), Le16(0), Le32(MAX_SNAP), Le16(2) + Le16(|name|), Padded(name), OptionBytes(9, [6]),
      OptionBytes(0, []));
    LittleEndian(MAX_SNAP);
    ResolutionBytes();
  }

  lemma BlockKinds(name: seq<byte>, p: Entry)
    requires |name| < WORD16 && Sound(p)
    ensures InterfaceBlock(name)[..4] == [1, 0, 0, 0] && PacketBlock(p)[..4] == [6, 0, 0, 0]
  {
    LittleEndian(1);
    LittleEndian(6);
  }

  lemma EightThen(a: seq<byte>, b: seq<byte>, c: seq<byte>, options: seq<byte>)
    requires |a| == 2 && |b| == 2 && |c| == 4
    ensures (a + (b + (c + options)))[8..] == options
  {
  }

  lemma LastOfTwo(name: seq<byte>)
    ensures Last([(2, name), (9, [6])], 2, [], None) == name
    ensures Last([(2, name), (9, [6])], 9, [6], Some(1)) == [6]
  {
    var list: seq<(nat, seq<byte>)> := [(2, name), (9, [6])];
    assert list[..1] == [(2, name)];
  }

  lemma CommentRead(comment: seq<byte>)
    requires |comment| < WORD16
    ensures var options := ReadOptions(CommentBytes(comment));
            options.Options? && Last(options.list, 1, [], None) == comment
  {
    if comment != [] {
      EndRead();
      OptionRead(1, comment, OptionBytes(0, []));
      assert [(1, comment)] + [] == [(1, comment)];
    }
  }

  lemma FieldLayout(a: seq<byte>, b: seq<byte>, c: seq<byte>, d: seq<byte>, e: seq<byte>, f: seq<byte>)
    requires |a| == |b| == |c| == |d| == |e| == 4
    ensures var body := a + (b + (c + (d + (e + f))));
            && U32(body) == U32(a) && U32(body[4..]) == U32(b) && U32(body[8..]) == U32(c)
            && U32(body[12..]) == U32(d) && U32(body[16..]) == U32(e) && body[20..] == f
  {
    var v := e + f;
    var w := d + v;
    var x := c + w;
    var y := b + x;
    var z := a + y;
    Field(a, y);
    Field(b, x);
    Field(c, w);
    Field(d, v);
    Field(e, f);
    assert z[4..] == y;
    assert z[8..] == y[4..] == x;
    assert z[12..] == x[4..] == w;
    assert z[16..] == w[4..] == v;
    assert z[20..] == v[4..] == f;
  }

  /** `body` holds the fields of `p` where the reader looks for them. */
  predicate HoldsFields(body: seq<byte>, p: Entry)
    requires Sound(p)
  {
    && |body| >= 20 && U32(body) == p.id
    && U32(body[4..]) * WORD32 + U32(body[8..]) == Stamp(p.at)
    && U32(body[12..]) == |p.frame| && U32(body[16..]) == p.wire
  }

  lemma PacketFields(p: Entry)
    requires Sound(p)
    ensures HoldsFields(PacketBody(p), p) && PacketBody(p)[20..] == Padded(p.frame) + CommentBytes(p.comment)
  {
    FieldLayout(Le32(p.id), Le32(Stamp(p.at) / WORD32), Le32(Stamp(p.at) % WORD32), Le32(|p.frame|), Le32(p.wire),
                Padded(p.frame) + CommentBytes(p.comment));
    U32OfLe32(p.id);
    U32OfLe32(Stamp(p.at) / WORD32);
    U32OfLe32(Stamp(p.at) % WORD32);
    U32OfLe32(|p.frame|);
    U32OfLe32(p.wire);
  }

  /** A packet of an unknown interface, an empty one, one that is longer than it may be or
      was on the wire, and one that does not fit its block are refused. */
  lemma RefusedPackets(names: seq<seq<byte>>, id: nat, high: nat, low: nat, captured: nat, wire: nat, rest: seq<byte>)
    requires id < WORD32 && high < WORD32 && low < WORD32 && captured < WORD32 && wire < WORD32
    ensures var body := Le32(id) + (Le32(high) + (Le32(low) + (Le32(captured) + (Le32(wire) + rest))));
            (id >= |names| || captured == 0 || captured > 65536 || wire < captured
             || |rest| < captured + PadLength(captured)) ==> ReadPacket(names, body) == Bad(BadPacket)
  {
    FieldLayout(Le32(id), Le32(high), Le32(low), Le32(captured), Le32(wire), rest);
    U32OfLe32(id);
    U32OfLe32(captured);
    U32OfLe32(wire);
  }

  function Record(names: seq<seq<byte>>, p: Entry): Recorded
    requires p.id < |names|
  {
    Recorded(names[p.id], p.frame, p.wire, p.at, p.comment)
  }

  lemma FieldsRead(names: seq<seq<byte>>, body: seq<byte>, p: Entry, options: seq<byte>)
    requires Sound(p) && p.id < |names| && HoldsFields(body, p) && body[20..] == Padded(p.frame) + options
    requires ReadOptions(options).Options? && Last(ReadOptions(options).list, 1, [], None) == p.comment
    ensures ReadPacket(names, body) == if p.at < 0 then Bad(BadTimestamp) else Packet(Record(names, p))
  {
    Tails(body, p.frame, options);
  }

  /** A written packet reads back as itself, unless its time precedes the epoch. */
  lemma PacketRead(names: seq<seq<byte>>, p: Entry)
    requires Sound(p) && p.id < |names|
    ensures ReadPacket(names, PacketBody(p)) == if p.at < 0 then Bad(BadTimestamp) else Packet(Record(names, p))
  {
    PacketFields(p);
    CommentRead(p.comment);
    FieldsRead(names, PacketBody(p), p, CommentBytes(p.comment));
  }

  lemma Tails(body: seq<byte>, frame: seq<byte>, options: seq<byte>)
    requires |body| >= 20 && body[20..] == Padded(frame) + options
    ensures var size := |frame| + PadLength(|frame|);
            20 + size <= |body| && body[20..20 + |frame|] == frame && body[20 + size..] == options
  {
    var size := |frame| + PadLength(|frame|);
    assert |body[20..]| == size + |options|;
    assert body[20 + size..] == body[20..][size..];
    assert body[20..20 + |frame|] == body[20..][..|frame|];
  }

  lemma SectionRead()
    ensures U32(SectionBody()) == MAGIC
  {
    U32OfLe32(MAGIC);
    Field(Le32(MAGIC), Le16(1) + Le16(0) + [255, 255, 255, 255, 255, 255, 255, 255]);
  }

  lemma SectionBlockRead(rest: seq<byte>)
    ensures ReadBlocks(SectionBlock() + rest, [], false) == ReadBlocks(rest, [], true)
  {
    SectionRead();
    BlockRead(SECTION_HEADER, SectionBody(), rest, [], false);
  }

  /** Whatever came before and follows, the block adds this interface, or stops the reader. */
  ghost predicate ReadsInterface(block: seq<byte>, name: seq<byte>) {
    forall names: seq<seq<byte>>, rest: seq<byte> ::
      ReadBlocks(block + rest, names, true) ==
      if name == [] then Reading([], Some(BadInterface)) else ReadBlocks(rest, names + [name], true)
  }

  lemma InterfaceBlockReads(name: seq<byte>)
    requires |name| < WORD16
    ensures ReadsInterface(InterfaceBlock(name), name)
  {
    InterfaceAligned(name);
    InterfaceRead(name);
    forall names: seq<seq<byte>>, rest: seq<byte>
      ensures ReadBlocks(InterfaceBlock(name) + rest, names, true) ==
              if name == [] then Reading([], Some(BadInterface)) else ReadBlocks(rest, names + [name], true)
    {
      BlockRead(INTERFACE_DESCRIPTION, InterfaceBody(name), rest, names, true);
    }
  }

  /** Whatever follows, the block yields this packet of an interface seen before, or stops the reader. */
  ghost predicate ReadsPacket(block: seq<byte>, names: seq<seq<byte>>, p: Entry)
    requires p.id < |names|
  {
    forall rest: seq<byte> ::
      ReadBlocks(block + rest, names, true) ==
      if p.at < 0 then Reading([], Some(BadTimestamp)) else Then(Record(names, p), ReadBlocks(rest, names, true))
  }

  lemma PacketBlockReads(names: seq<seq<byte>>, p: Entry)
    requires Sound(p) && p.id < |names|
    ensures ReadsPacket(PacketBlock(p), names, p)
  {
    PacketAligned(p);
    PacketRead(names, p);
    forall rest: seq<byte>
      ensures ReadBlocks(PacketBlock(p) + rest, names, true) ==
              if p.at < 0 then Reading([], Some(BadTimestamp))
              else Then(Record(names, p), ReadBlocks(rest, names, true))
    {
      BlockRead(ENHANCED_PACKET, PacketBody(p), rest, names, true);
    }
  }

  // ----- Runs of blocks -----

  predicate Named(names: seq<seq<byte>>) { forall i :: 0 <= i < |names| ==> names[i] != [] }

  predicate AfterEpoch(packets: seq<Entry>) { forall i :: 0 <= i < |packets| ==> packets[i].at >= 0 }

  lemma {:induction false} InterfacesRead(blocks: seq<seq<byte>>, names: seq<seq<byte>>, rest: seq<byte>)
    requires |blocks| == |names|
    requires forall i :: 0 <= i < |names| ==> ReadsInterface(blocks[i], names[i])
    ensures ReadBlocks(Flatten(blocks) + rest, [], true) ==
            if Named(names) then ReadBlocks(rest, names, true) else Reading([], Some(BadInterface))
    decreases |names|
  {
    if names == [] {
      assert Flatten(blocks) + rest == rest;
    } else {
      var k := |names| - 1;
      InterfacesRead(blocks[..k], names[..k], blocks[k] + rest);
      assert Flatten(blocks) + rest == Flatten(blocks[..k]) + (blocks[k] + rest);
      assert ReadsInterface(blocks[k], names[k]);
      NamedPrefix(names);
    }
  }

  lemma NamedPrefix(names: seq<seq<byte>>)
    requires names != []
    ensures var k := |names| - 1;
            names == names[..k] + [names[k]] && (Named(names) <==> Named(names[..k]) && names[k] != [])
  {
  }

  function Records(names: seq<seq<byte>>, packets: seq<Entry>): (r: seq<Recorded>)
    requires AllOn(packets, |names|)
    ensures |r| == |packets|
  {
    seq(|packets|, i requires 0 <= i < |packets| => Record(names, packets[i]))
  }

  ghost predicate PacketRun(blocks: seq<seq<byte>>, names: seq<seq<byte>>, packets: seq<Entry>)
    requires AllOn(packets, |names|)
  {
    |blocks| == |packets| && forall i :: 0 <= i < |packets| ==> ReadsPacket(blocks[i], names, packets[i])
  }

  function After(records: seq<Recorded>, r: Reading): Reading { r.(packets := records + r.packets) }

  /** Packets read back in order. */
  lemma {:induction false} PacketsRead(blocks: seq<seq<byte>>, names: seq<seq<byte>>, packets: seq<Entry>,
                                       rest: seq<byte>)
    requires AllOn(packets, |names|) && PacketRun(blocks, names, packets) && AfterEpoch(packets)
    ensures ReadBlocks(Flatten(blocks) + rest, names, true)
            == After(Records(names, packets), ReadBlocks(rest, names, true))
    decreases |packets|
  {
    var after := ReadBlocks(rest, names, true);
    if packets == [] {
      assert Flatten(blocks) + rest == rest;
      assert Records(names, []) + after.packets == after.packets;
    } else {
      var k := |packets| - 1;
      PacketsRead(blocks[..k], names, packets[..k], blocks[k] + rest);
      assert Flatten(blocks) + rest == Flatten(blocks[..k]) + (blocks[k] + rest);
      assert ReadsPacket(blocks[k], names, packets[k]);
      RecordsGrow(names, packets);
      Hand(Records(names, packets[..k]), Record(names, packets[k]), after);
    }
  }

  lemma RecordsGrow(names: seq<seq<byte>>, packets: seq<Entry>)
    requires AllOn(packets, |names|) && packets != []
    ensures var k := |packets| - 1;
            Records(names, packets) == Records(names, packets[..k]) + [Record(names, packets[k])]
  {
  }

  lemma Hand(visited: seq<Recorded>, p: Recorded, r: Reading)
    ensures After(visited, Then(p, r)) == After(visited + [p], r)
  {
    assert visited + ([p] + r.packets) == (visited + [p]) + r.packets;
  }

  /** The first packet from before the epoch stops the reader. */
  lemma {:induction false} PacketsStop(blocks: seq<seq<byte>>, names: seq<seq<byte>>, packets: seq<Entry>,
                                       rest: seq<byte>)
    requires AllOn(packets, |names|) && PacketRun(blocks, names, packets) && !AfterEpoch(packets)
    ensures ReadBlocks(Flatten(blocks) + rest, names, true).failure == Some(BadTimestamp)
    decreases |packets|
  {
    var k := |packets| - 1;
    assert Flatten(blocks) + rest == Flatten(blocks[..k]) + (blocks[k] + rest);
    if AfterEpoch(packets[..k]) {
      PacketsRead(blocks[..k], names, packets[..k], blocks[k] + rest);
      assert ReadsPacket(blocks[k], names, packets[k]);
    } else {
      PacketsStop(blocks[..k], names, packets[..k], blocks[k] + rest);
    }
  }

  // ----- The round trip -----

  function ReadAll(input: seq<byte>): Reading { ReadBlocks(input, [], false) }

  lemma RecordingRead(names: seq<seq<byte>>, packets: seq<Entry>)
    requires AllShort(names) && AllSound(packets) && AllOn(packets, |names|)
    ensures var reading := ReadAll(Recording(names, packets));
            if !Named(names) then reading == Reading([], Some(BadInterface))
            else if AfterEpoch(packets) then reading == Reading(Records(names, packets), None)
            else reading.failure == Some(BadTimestamp)
  {
    var a, b := Flatten(InterfaceBlocks(names)), Flatten(PacketBlocks(packets));
    assert Recording(names, packets) == SectionBlock() + (a + b);
    SectionBlockRead(a + b);
    forall i | 0 <= i < |names| ensures ReadsInterface(InterfaceBlocks(names)[i], names[i]) {
      InterfaceBlockReads(names[i]);
    }
    InterfacesRead(InterfaceBlocks(names), names, b);
    forall i | 0 <= i < |packets| ensures ReadsPacket(PacketBlocks(packets)[i], names, packets[i]) {
      PacketBlockReads(names, packets[i]);
    }
    assert b + [] == b;
    if AfterEpoch(packets) {
      PacketsRead(PacketBlocks(packets), names, packets, []);
      assert Records(names, packets) + [] == Records(names, packets);
    } else {
      PacketsStop(PacketBlocks(packets), names, packets, []);
    }
  }

  /** Reading a recording yields exactly its packets, in order, and no failure, if
      and only if every interface has a name and no packet precedes the epoch. */
  lemma RoundTrip(names: seq<seq<byte>>, packets: seq<Entry>)
    requires AllShort(names) && AllSound(packets) && AllOn(packets, |names|)
    ensures ReadAll(Recording(names, packets)) == Reading(Records(names, packets), None) <==>
            Named(names) && AfterEpoch(packets)
    ensures ReadAll(Recording(names, packets)).failure == None <==> Named(names) && AfterEpoch(packets)
  {
    RecordingRead(names, packets);
  }

  /** Both failures happen: a recording of one interface without a name, and one of a
      packet a microsecond before the epoch. */
  lemma RecordingsFail(name: seq<byte>, e: Entry)
    requires 0 < |name| < WORD16 && Sound(e) && e.id == 0 && e.at < 0
    ensures ReadAll(Recording([[]], [])).failure == Some(BadInterface)
    ensures ReadAll(Recording([name], [e])).failure == Some(BadTimestamp)
  {
    RecordingRead([[]], []);
    RecordingRead([name], [e]);
  }

  // ----- The reader's loops -----

  /** Walks the options once; `list` is what the visitor is called with. */
  method ParseOptions(input: seq<byte>) returns (ok: bool, list: seq<(nat, seq<byte>)>)
    ensures ok <==> ReadOptions(input).Options?
    ensures ok ==> list == ReadOptions(input).list
  {
    var data := input;
    list := [];
    while |data| > 0
      invariant ReadOptions(input) == WithVisited(list, ReadOptions(data))
      decreases |data|
    {
      if |data| < 4 { return false, list; }
      var kind, size := U16(data), U16(data[2..]);
      var rest := data[4..];
      var padded := size + PadLength(size);
      if |rest| < padded { return false, list; }
      if kind == 0 { return size == 0, list; }
      Visit(list, (kind, rest[..size]), ReadOptions(rest[padded..]));
      list := list + [(kind, rest[..size])];
      data := rest[padded..];
    }
    ok := true;
  }

  function WithVisited(list: seq<(nat, seq<byte>)>, o: OptionList): OptionList {
    match o
    case Malformed => Malformed
    case Options(more) => Options(list + more)
  }

  lemma Visit(list: seq<(nat, seq<byte>)>, entry: (nat, seq<byte>), o: OptionList)
    ensures WithVisited(list, WithVisited([entry], o)) == WithVisited(list + [entry], o)
  {
    if o.Options? {
      assert list + ([entry] + o.list) == (list + [entry]) + o.list;
    }
  }

  method ParseInterface(body: seq<byte>) returns (r: InterfaceResult)
    ensures r == ReadInterface(body)
  {
    if |body| < 8 || U16(body) != ETHERNET { return Unusable(BadInterface); }
    var ok, list := ParseOptions(body[8..]);
    if !ok { return Unusable(BadOption); }
    var name, resolution: seq<byte> := [], [6];
    for i := 0 to |list|
      invariant name == Last(list[..i], 2, [], None) && resolution == Last(list[..i], 9, [6], Some(1))
    {
      assert list[..i + 1][..i] == list[..i];
      if list[i].0 == 2 {
        name := list[i].1;
      } else if list[i].0 == 9 && |list[i].1| == 1 {
        resolution := list[i].1;
      }
    }
    assert list[..|list|] == list;
    r := if name == [] || resolution != [6] then Unusable(BadInterface) else Interface(name);
  }

  method LastComment(list: seq<(nat, seq<byte>)>) returns (comment: seq<byte>)
    ensures comment == Last(list, 1, [], None)
  {
    comment := [];
    for i := 0 to |list|
      invariant comment == Last(list[..i], 1, [], None)
    {
      assert list[..i + 1][..i] == list[..i];
      if list[i].0 == 1 { comment := list[i].1; }
    }
    assert list[..|list|] == list;
  }

  method ParsePacket(names: seq<seq<byte>>, body: seq<byte>) returns (r: PacketResult)
    ensures r == ReadPacket(names, body)
  {
    if |body| < 20 { return Bad(BadPacket); }
    var id, captured, wire := U32(body), U32(body[12..]), U32(body[16..]);
    if id >= |names| || captured == 0 || captured > MAX_SNAP || wire < captured { return Bad(BadPacket); }
    var optionStart := 20 + captured + PadLength(captured);
    if optionStart > |body| { return Bad(BadPacket); }
    r := ParseRest(names[id], body, captured, wire, optionStart);
  }

  method ParseRest(name: seq<byte>, body: seq<byte>, captured: nat, wire: nat, optionStart: nat)
    returns (r: PacketResult)
    requires 20 + captured <= optionStart <= |body|
    ensures r == ReadRest(name, body, captured, wire, optionStart)
  {
    var ok, list := ParseOptions(body[optionStart..]);
    if !ok { return Bad(BadOption); }
    var comment := LastComment(list);
    var stamp := U32(body[4..]) * WORD32 + U32(body[8..]);
    if stamp > MAX_INT64 { return Bad(BadTimestamp); }
    r := Packet(Recorded(name, body[20..20 + captured], wire, stamp, comment));
  }

  /** Walks a recording block by block, handing each packet to the visitor. */
  method Read(input: seq<byte>) returns (r: Reading)
    ensures r == ReadAll(input)
  {
    var rest, names, seen := input, [], false;
    var visited: seq<Recorded> := [];
    while true
      invariant ReadAll(input) == After(visited, ReadBlocks(rest, names, seen))
      decreases |rest|
    {
      if rest == [] { return Reading(visited, if seen then None else Some(EmptyFile)); }
      if |rest| < 8 { return Reading(visited, Some(ShortInput)); }
      var kind, size := U32(rest), U32(rest[4..]);
      if size < 12 || size % 4 != 0 || size > MAX_BLOCK { return Reading(visited, Some(BadBlockLength)); }
      if |rest| < size { return Reading(visited, Some(ShortInput)); }
      if U32(rest[size - 4..]) != size { return Reading(visited, Some(LengthMismatch)); }
      var body := rest[8..size - 4];
      if !seen && kind != SECTION_HEADER { return Reading(visited, Some(NoSection)); }
      if kind == SECTION_HEADER {
        if seen || |body| < 16 || U32(body) != MAGIC { return Reading(visited, Some(BadSection)); }
        seen := true;
      } else if kind == INTERFACE_DESCRIPTION {
        var i := ParseInterface(body);
        if i.Unusable? { return Reading(visited, Some(i.why)); }
        names := names + [i.name];
      } else if kind == ENHANCED_PACKET {
        var p := ParsePacket(names, body);
        if p.Bad? { return Reading(visited, Some(p.why)); }
        Hand(visited, p.p, ReadBlocks(rest[size..], names, true));
        visited := visited + [p.p];
      }
      rest := rest[size..];
    }
  }

  // ----- The writer -----

  datatype WriteError =
    | NoInterfaces | TooManyInterfaces | NameTooLong | Limit
    | UnknownInterface | BadFrame | BadWireLength | CommentTooLong

  lemma Assoc(a: seq<byte>, b: seq<byte>, c: seq<byte>)
    ensures (a + b) + c == a + (b + c)
  {
  }

  lemma FlattenMore(blocks: seq<seq<byte>>, block: seq<byte>)
    ensures Flatten(blocks + [block]) == Flatten(blocks) + block
  {
    assert (blocks + [block])[..|blocks|] == blocks;
  }

  lemma FlattenLast(blocks: seq<seq<byte>>)
    requires blocks != []
    ensures Flatten(blocks) == Flatten(blocks[..|blocks| - 1]) + blocks[|blocks| - 1]
  {
  }

  lemma {:induction false} FlattenConcat(a: seq<seq<byte>>, b: seq<seq<byte>>)
    ensures Flatten(a + b) == Flatten(a) + Flatten(b)
    decreases |b|
  {
    if b == [] {
      assert a + b == a;
    } else {
      var init, last := b[..|b| - 1], b[|b| - 1];
      FlattenConcat(a, init);
      assert a + b == (a + init) + [last];
      FlattenMore(a + init, last);
      FlattenLast(b);
      Assoc(Flatten(a), Flatten(init), last);
    }
  }

  lemma Growing(names: seq<seq<byte>>, k: nat)
    requires AllShort(names) && k <= |names|
    ensures AllShort(names[..k])
    ensures |Flatten(InterfaceBlocks(names[..k]))| <= |Flatten(InterfaceBlocks(names))|
  {
    assert InterfaceBlocks(names) == InterfaceBlocks(names[..k]) + InterfaceBlocks(names[k..]);
    FlattenConcat(InterfaceBlocks(names[..k]), InterfaceBlocks(names[k..]));
  }

  function Header(names: seq<seq<byte>>): seq<byte>
    requires AllShort(names)
  {
    SectionBlock() + Flatten(InterfaceBlocks(names))
  }

  ghost predicate Openable(names: seq<seq<byte>>, maxBytes: nat) {
    |names| < WORD32 && AllShort(names) && (maxBytes > 0 ==> |Recording(names, [])| <= maxBytes)
  }

  lemma HeaderStart(names: seq<seq<byte>>)
    ensures Header(names[..0]) == SectionBlock()
  {
    assert InterfaceBlocks(names[..0]) == [];
  }

  lemma InterfaceBlocksMore(names: seq<seq<byte>>, name: seq<byte>)
    requires AllShort(names) && |name| < WORD16
    ensures AllShort(names + [name])
    ensures InterfaceBlocks(names + [name]) == InterfaceBlocks(names) + [InterfaceBlock(name)]
  {
    var more := names + [name];
    assert forall i :: 0 <= i < |names| ==> more[i] == names[i];
  }

  lemma HeaderGrows(names: seq<seq<byte>>, k: nat)
    requires k < |names| && AllShort(names[..k]) && |names[k]| < WORD16
    ensures AllShort(names[..k + 1]) && Header(names[..k + 1]) == Header(names[..k]) + InterfaceBlock(names[k])
  {
    assert names[..k + 1] == names[..k] + [names[k]];
    InterfaceBlocksMore(names[..k], names[k]);
    FlattenMore(InterfaceBlocks(names[..k]), InterfaceBlock(names[k]));
    Assoc(SectionBlock(), Flatten(InterfaceBlocks(names[..k])), InterfaceBlock(names[k]));
  }

  /** A header that fits has room for each of its beginnings. */
  lemma HeaderFits(names: seq<seq<byte>>, k: nat)
    requires k <= |names|
    ensures AllShort(names) ==> AllShort(names[..k]) && |Header(names[..k])| <= |Recording(names, [])|
    ensures AllShort(names) ==> |SectionBlock()| <= |Recording(names, [])|
  {
    if AllShort(names) {
      HeaderAlone(names);
      Growing(names, k);
    }
  }

  lemma HeaderAlone(names: seq<seq<byte>>)
    requires AllShort(names)
    ensures Recording(names, []) == Header(names)
  {
  }

  lemma HeaderConsistent(v: Progress)
    requires AllShort(v.names) && |v.names| == v.interfaces < WORD32 && v.accepted == [] && v.packets == 0
    requires v.written == Recording(v.names, []) && v.bytes == |v.written| && (v.limit > 0 ==> v.bytes <= v.limit)
    ensures v in Consistents()
  {
  }

  lemma PacketBlocksMore(packets: seq<Entry>, p: Entry)
    requires AllSound(packets) && Sound(p)
    ensures AllSound(packets + [p])
    ensures PacketBlocks(packets + [p]) == PacketBlocks(packets) + [PacketBlock(p)]
  {
    var more := packets + [p];
    assert forall i :: 0 <= i < |packets| ==> more[i] == packets[i];
  }

  lemma RecordingGrows(names: seq<seq<byte>>, packets: seq<Entry>, p: Entry)
    requires AllShort(names) && AllSound(packets) && Sound(p)
    ensures AllSound(packets + [p])
    ensures Recording(names, packets + [p]) == Recording(names, packets) + PacketBlock(p)
  {
    PacketBlocksMore(packets, p);
    FlattenMore(PacketBlocks(packets), PacketBlock(p));
    Assoc(SectionBlock() + Flatten(InterfaceBlocks(names)), Flatten(PacketBlocks(packets)), PacketBlock(p));
  }

  /** The destination: it takes every byte it is given. */
  class Sink {
    var data: seq<byte>

    constructor ()
      ensures data == []
    {
      data := [];
    }
  }

  /** A writer's fields together with what it has been given. */
  datatype Progress = Progress(
    limit: nat, names: seq<seq<byte>>, accepted: seq<Entry>, interfaces: nat, bytes: nat, packets: nat,
      written: seq<byte>)

  /** What has been written is a recording of the accepted packets, within the limit. */
  ghost predicate Consistent(v: Progress) {
    && AllShort(v.names) && |v.names| == v.interfaces < WORD32 && AllSound(v.accepted) && AllOn(v.accepted, |v.names|)
    && v.written == Recording(v.names, v.accepted) && v.bytes == |v.written| && v.packets == |v.accepted|
    && (v.limit > 0 ==> v.bytes <= v.limit)
  }

  ghost function Consistents(): iset<Progress> { iset v | Consistent(v) }

  function Stored(v: Progress, p: Entry, block: seq<byte>): Progress {
    v.(accepted := v.accepted + [p], packets := v.packets + 1, bytes := v.bytes + |block|, written := v.written + block)
  }

  lemma StoreKeeps(v: Progress, p: Entry, block: seq<byte>)
    requires v in Consistents() && Sound(p) && p.id < v.interfaces && block == PacketBlock(p)
    ensures AllSound(v.accepted + [p]) && |Recording(v.names, v.accepted + [p])| == v.bytes + |block|
    ensures v.limit == 0 || v.bytes + |block| <= v.limit ==> Stored(v, p, block) in Consistents()
  {
    RecordingGrows(v.names, v.accepted, p);
  }

  /** What Packet answers before it looks at the size limit. */
  function Refusal(interfaces: nat, frame: seq<byte>, id: nat, wireLength: int,
                   comment: seq<byte>): (r: Option<WriteError>) {
    if id >= interfaces then Some(UnknownInterface)
    else if |frame| == 0 || |frame| > MAX_SNAP then Some(BadFrame)
    else if wireLength >= WORD32 then Some(BadWireLength)
    else if |comment| >= WORD16 then Some(CommentTooLong)
    else None
  }

  /** The packet as it is recorded: never shorter on the wire than the frame. */
  function Submitted(id: nat, frame: seq<byte>, wireLength: int, at: int, comment: seq<byte>): (p: Entry)
    ensures p.wire >= wireLength && p.wire >= |frame|
  {
    Entry(id, frame, if wireLength > |frame| then wireLength else |frame|, at, comment)
  }

  class Writer {
    const out: Sink
    const maxBytes: nat
    var bytes: nat
    var packets: nat
    var interfaces: nat
    ghost const before: seq<byte>
    ghost var names: seq<seq<byte>>
    ghost var accepted: seq<Entry>

    ghost var written: seq<byte>

    ghost function State(): Progress
      reads this
    {
      Progress(maxBytes, names, accepted, interfaces, bytes, packets, written)
    }

    /** What this writer wrote follows what was there before, and is a recording of
        the packets it accepted. */
    ghost predicate Valid()
      reads this, out
    {
      State() in Consistents() && out.data == before + written
    }

    constructor (out: Sink, maxBytes: nat)
      ensures this.out == out && this.maxBytes == maxBytes && before == out.data
      ensures State() == Progress(maxBytes, [], [], 0, 0, 0, [])
    {
      this.out, this.maxBytes, before := out, maxBytes, out.data;
      bytes, packets, interfaces, names, accepted, written := 0, 0, 0, [], [], [];
    }

    /** Writes a block whole or not at all. */
    method AppendBlock(kind: nat, body: seq<byte>, ghost expected: seq<byte>) returns (error: Option<WriteError>)
      requires kind < WORD32 && |body| + 12 < WORD32 && |body| % 4 == 0 && expected == Block(kind, body)
      modifies this`bytes, this`written, out
      ensures error == if maxBytes > 0 && old(bytes) + |expected| > maxBytes then Some(Limit) else None
      ensures error == None ==> out.data == old(out.data) + expected
      ensures error == None ==> written == old(written) + expected && bytes == old(bytes) + |expected|
      ensures error != None ==> out.data == old(out.data) && bytes == old(bytes) && written == old(written)
    {
      var length := |body| + 12;
      if maxBytes > 0 && bytes + length > maxBytes { return Some(Limit); }
      var block := Le32(kind) + Le32(length) + body + Le32(length);
      out.data := out.data + block;
      bytes := bytes + |block|;
      written := written + block;
      error := None;
    }

    /** Opens a recording: refused without interfaces, with too many or too long a
        name, or when the header alone passes the limit, and for no other reason. */
    static method New(out: Sink, interfaceNames: seq<seq<byte>>, maxBytes: nat)
      returns (w: Writer?, error: Option<WriteError>)
      modifies out
      ensures error == None <==> w != null
      ensures w != null ==> fresh(w) && w.Valid() && w.out == out && w.maxBytes == maxBytes
      ensures w != null ==> w.names == interfaceNames && w.accepted == [] && w.before == old(out.data)
      ensures error == None <==> |interfaceNames| != 0 && Openable(interfaceNames, maxBytes)
      ensures maxBytes > 0 ==> |out.data| <= |old(out.data)| + maxBytes
    {
      w := null;
      if |interfaceNames| == 0 {
        error := Some(NoInterfaces);
      } else if |interfaceNames| >= WORD32 {
        error := Some(TooManyInterfaces);
      } else {
        var writer := new Writer(out, maxBytes);
        error := writer.AppendHeader(interfaceNames);
        if error == None {
          HeaderConsistent(writer.State());
          w := writer;
        }
      }
    }

    method AppendHeader(interfaceNames: seq<seq<byte>>) returns (error: Option<WriteError>)
      requires |interfaceNames| < WORD32 && State() == Progress(maxBytes, [], [], 0, 0, 0, []) && out.data == before
      modifies this, out
      ensures error == None <==> Openable(interfaceNames, maxBytes)
      ensures error == None ==>
              State() == Progress(maxBytes, interfaceNames, [], |interfaceNames|, |written|, 0,
                Recording(interfaceNames, []))
      ensures out.data == before + written && (maxBytes > 0 ==> |written| <= maxBytes)
    {
      HeaderFits(interfaceNames, 0);
      error := AppendBlock(SECTION_HEADER, SectionBody(), SectionBlock());
      if error != None { return; }
      HeaderStart(interfaceNames);
      error := AppendInterfaces(interfaceNames);
      if error != None { return; }
      HeaderAlone(interfaceNames);
      interfaces := |interfaceNames|;
      names := interfaceNames;
    }

    method AppendInterfaces(interfaceNames: seq<seq<byte>>) returns (error: Option<WriteError>)
      requires State() == Progress(maxBytes, [], [], 0, |written|, 0, written)
      requires |interfaceNames| < WORD32 && written == Header(interfaceNames[..0])
      requires out.data == before + written && (maxBytes > 0 ==> |written| <= maxBytes)
      modifies this, out
      ensures error == None <==> Openable(interfaceNames, maxBytes)
      ensures error == None ==> written == Header(interfaceNames)
      ensures State() == Progress(maxBytes, [], [], 0, |written|, 0, written)
      ensures out.data == before + written && (maxBytes > 0 ==> |written| <= maxBytes)
    {
      HeaderFits(interfaceNames, |interfaceNames|);
      assert interfaceNames[..|interfaceNames|] == interfaceNames;
      error := None;
      for i := 0 to |interfaceNames|
        invariant AllShort(interfaceNames[..i]) && written == Header(interfaceNames[..i])
        invariant State() == Progress(maxBytes, [], [], 0, |written|, 0, written)
        invariant out.data == before + written && (maxBytes > 0 ==> |written| <= maxBytes)
        invariant error == None
      {
        if |interfaceNames[i]| >= WORD16 { return Some(NameTooLong); }
        HeaderGrows(interfaceNames, i);
        HeaderFits(interfaceNames, i + 1);
        error := AppendInterface(interfaceNames[i]);
        if error != None { return; }
      }
      if AllShort(interfaceNames) { HeaderAlone(interfaceNames); }
    }

    method AppendInterface(name: seq<byte>) returns (error: Option<WriteError>)
      requires |name| < WORD16
      modifies this`bytes, this`written, out
      ensures error == if maxBytes > 0 && old(bytes) + |InterfaceBlock(name)| > maxBytes then Some(Limit) else None
      ensures old(out.data) == before + old(written) ==> out.data == before + written
      ensures error == None ==>
                written == old(written) + InterfaceBlock(name) && bytes == old(bytes) + |InterfaceBlock(name)|
      ensures error != None ==> bytes == old(bytes) && written == old(written)
    {
      InterfaceAligned(name);
      Assoc(before, written, InterfaceBlock(name));
      error := AppendBlock(INTERFACE_DESCRIPTION, InterfaceBody(name), InterfaceBlock(name));
    }

    /** Appends one packet, or refuses it and leaves the recording as it is. */
    method Packet(interfaceID: nat, frame: seq<byte>, wireLength: int, at: int, comment: seq<byte>)
      returns (error: Option<WriteError>)
      requires Valid() && interfaceID < WORD32 && -MAX_INT64 - 1 <= at <= MAX_INT64
      modifies this`bytes, this`packets, this`accepted, this`written, out
      ensures Valid()
      ensures error == Refusal(interfaces, frame, interfaceID, wireLength, comment) ||
              (Refusal(interfaces, frame, interfaceID, wireLength, comment) == None && error == Some(Limit))
      ensures error == None ==> accepted == old(accepted) + [Submitted(interfaceID, frame, wireLength, at, comment)]
      ensures error != None ==> accepted == old(accepted) && out.data == old(out.data)
      ensures error == Some(Limit) ==>
              var p := Submitted(interfaceID, frame, wireLength, at, comment);
              AllShort(names) && AllSound(accepted + [p]) && 0 < maxBytes < |Recording(names, accepted + [p])|
    {
      if interfaceID >= interfaces { return Some(UnknownInterface); }
      if |frame| == 0 || |frame| > MAX_SNAP { return Some(BadFrame); }
      if wireLength >= WORD32 { return Some(BadWireLength); }
      if |comment| >= WORD16 { return Some(CommentTooLong); }
      var wire := if wireLength > |frame| then wireLength else |frame|;
      var p := Entry(interfaceID, frame, wire, at, comment);
      error := Store(p);
    }

    method Store(p: Entry) returns (error: Option<WriteError>)
      requires Valid() && Sound(p) && p.id < interfaces
      modifies this`bytes, this`packets, this`accepted, this`written, out
      ensures Valid()
      ensures error == None ==> accepted == old(accepted) + [p]
      ensures error != None ==> accepted == old(accepted) && written == old(written) && error == Some(Limit)
      ensures error != None ==> AllShort(names) && AllSound(accepted + [p])
      ensures error != None ==> 0 < maxBytes < |Recording(names, accepted + [p])|
    {
      PacketAligned(p);
      StoreKeeps(State(), p, PacketBlock(p));
      error := AppendPacket(p, PacketBody(p), PacketBlock(p));
    }

    method AppendPacket(ghost p: Entry, body: seq<byte>, ghost expected: seq<byte>) returns (error: Option<WriteError>)
      requires |body| + 12 < WORD32 && |body| % 4 == 0 && expected == Block(ENHANCED_PACKET, body)
      modifies this`bytes, this`packets, this`accepted, this`written, out
      ensures error == if maxBytes > 0 && old(bytes) + |expected| > maxBytes then Some(Limit) else None
      ensures State() == if error == None then Stored(old(State()), p, expected) else old(State())
      ensures old(out.data) == before + old(written) ==> out.data == before + written
    {
      Assoc(before, written, expected);
      error := AppendBlock(ENHANCED_PACKET, body, expected);
      if error == None {
        packets := packets + 1;
        accepted := accepted + [p];
      }
    }

    /** What Read makes of everything written so far, if nothing was there before. */
    lemma ReadsBack()
      requires Valid() && before == []
      ensures AllOn(accepted, |names|)
      ensures ReadAll(out.data) == Reading(Records(names, accepted), None) <==> Named(names) && AfterEpoch(accepted)
    {
      assert out.data == Recording(names, accepted);
      RoundTrip(names, accepted);
    }
  }
}
