/** The catalogue's wire image: messages, their framing, and the receiver's decoder. */
module DiscoveryWire {
  import opened Basics

  type Byte = x: int | 0 <= x < 256
  type Word = x: int | 0 <= x < 0x1_0000_0000
  type Text = seq<Byte>

  const Magic := 0x5243

  datatype Property = Property(key: Text, value: Text)

  /** Record 0 stands for the identity of the sender. */
  datatype Message =
    | Info(id: nat, key: Text, value: Text)
    | Record(id: nat, kind: Text, name: Text)
    | Alias(id: nat, name: Text)

  // ---- integers ----

  function Put16(v: int): Text
    requires 0 <= v < 0x1_0000
  {
    [v / 0x100, v % 0x100]
  }

  function Put32(v: Word): Text {
    Put16(v / 0x1_0000) + Put16(v % 0x1_0000)
  }

  function Get16(b: Text): int
    requires |b| == 2
  {
    (b[0] as int) * 0x100 + b[1]
  }

  function Get32(b: Text): int
    requires |b| == 4
  {
    Get16(b[..2]) * 0x1_0000 + Get16(b[2..])
  }

  lemma Round16(v: int)
    requires 0 <= v < 0x1_0000
    ensures |Put16(v)| == 2 && Get16(Put16(v)) == v
  {
  }

  lemma Round32(v: Word)
    ensures |Put32(v)| == 4 && Get32(Put32(v)) == v
  {
    assert Put32(v)[..2] == Put16(v / 0x1_0000) && Put32(v)[2..] == Put16(v % 0x1_0000);
  }

  /** A number is written as its digits to the base 256, the most significant first. */
  lemma Digits(v: Word)
    ensures var b := Put32(v);
            |b| == 4 && 16777216 * (b[0] as int) + 65536 * (b[1] as int) + 256 * (b[2] as int) + b[3] == v
  {
    var high, low := v / 0x1_0000, v % 0x1_0000;
    assert Put32(v) == [high / 0x100, high % 0x100, low / 0x100, low % 0x100];
    assert v == 0x1_0000 * high + low;
  }

  // ---- text ----

  predicate ValidText(text: Text, maximum: nat, allowEmpty: bool) {
    (allowEmpty || text != []) && |text| <= maximum && 0 !in text
  }

  predicate ValidKey(key: Text) {
    ValidText(key, 255, false) && forall i | 0 <= i < |key| :: key[i] < 128
  }

  predicate ValidValue(value: Text) {
    ValidText(value, 65535, true)
  }

  /** Every field fits its width. */
  predicate ValidMessage(m: Message) {
    && m.id < 0x1_0000_0000
    && match m
       case Info(_, key, value) => ValidKey(key) && ValidValue(value)
       case Record(_, kind, name) => ValidText(kind, 255, false) && ValidText(name, 65535, false)
       case Alias(_, name) => ValidText(name, 65535, false)
  }

  // ---- messages ----

  function Code(m: Message): int {
    if m.Info? then 6 else 3
  }

  function Body(m: Message): (body: Text)
    requires ValidMessage(m)
    ensures 8 <= |body| <= 8 + 255 + 65535
  {
    match m
    case Info(id, key, value) => Put32(id) + [|key|, 0] + Put16(|value|) + key + value
    case Record(id, kind, name) => Put32(id) + [0, |kind|] + Put16(|name|) + kind + name
    case Alias(id, name) => Put32(id) + [1, 0] + Put16(|name|) + name
  }

  function Frame(code: int, body: Text): Text
    requires 0 <= code < 0x1_0000 && |body| < 0x1_0000_0000
  {
    Put16(Magic) + Put16(code) + Put32(|body|) + body
  }

  /** A frame begins with the letters "RC", the code and the size of its body. */
  lemma FrameIs(code: int, body: Text)
    requires 0 <= code < 0x1_0000 && |body| < 0x1_0000_0000
    ensures Frame(code, body) == [0x52, 0x43, code / 256, code % 256] + Put32(|body|) + body
  {
    hide Put32;
    assert Put16(Magic) + Put16(code) == [0x52, 0x43, code / 256, code % 256];
  }

  const EndBody: Text := [0, 0, 0, 0]

  /** The end marker. */
  lemma EndIs()
    ensures Frame(5, EndBody) == [0x52, 0x43, 0, 5, 0, 0, 0, 4, 0, 0, 0, 0]
  {
    assert Put32(4) == [0, 0, 0, 4] && Put16(5) == [0, 5] && Put16(Magic) == [0x52, 0x43];
  }

  function Encode(m: Message): (bytes: Text)
    requires ValidMessage(m)
    ensures |bytes| >= 16
  {
    Frame(Code(m), Body(m))
  }

  /** Every message byte by byte: frame, record number, the two small fields, the length of the long text, and the texts. */
  lemma EncodeIs(m: Message)
    requires ValidMessage(m)
    ensures var (code, first, second, long, texts) :=
              match m
              case Info(_, key, value) => (6, |key|, 0, |value|, key + value)
              case Record(_, kind, name) => (3, 0, |kind|, |name|, kind + name)
              case Alias(_, name) => (3, 1, 0, |name|, name);
            Encode(m) == [0x52, 0x43, 0, code] + Put32(8 + |texts|)
                         + Put32(m.id) + [first, second, long / 256, long % 256] + texts
  {
    FrameIs(Code(m), Body(m));
    hide Put32, Frame;
    match m
    case Info(_, key, value) =>
      assert Body(m) == Put32(m.id) + [|key|, 0, |value| / 256, |value| % 256] + (key + value);
    case Record(_, kind, name) =>
      assert Body(m) == Put32(m.id) + [0, |kind|, |name| / 256, |name| % 256] + (kind + name);
    case Alias(_, name) =>
      assert Body(m) == Put32(m.id) + [1, 0, |name| / 256, |name| % 256] + name;
  }

  /** The messages one after another. */
  function Image(messages: seq<Message>): Text
    requires forall i | 0 <= i < |messages| :: ValidMessage(messages[i])
  {
    if messages == [] then []
    else Image(messages[..|messages| - 1]) + Encode(messages[|messages| - 1])
  }

  // ---- the receiver ----

  /** The first message of a stream: its code, its payload and what follows. */
  function Split(bytes: Text): Option<(int, Text, Text)> {
    if |bytes| < 8 || Get16(bytes[..2]) != Magic then None
    else
      var size := Get32(bytes[4..8]);
      if |bytes| < 8 + size then None
      else Some((Get16(bytes[2..4]), bytes[8..8 + size], bytes[8 + size..]))
  }

  function Decode(code: int, payload: Text): Option<Message> {
    if |payload| < 8 then None
    else
      var id := Get32(payload[..4]);
      var size := Get16(payload[6..8]);
      if code == 3 then
        var split := payload[5] as int;
        if |payload| != 8 + split + size then None
        else if payload[4] == 0 then Some(Record(id, payload[8..8 + split], payload[8 + split..]))
        else if payload[4] == 1 && split == 0 then Some(Alias(id, payload[8..]))
        else None
      else if code == 6 then
        var split := payload[4] as int;
        if |payload| != 8 + split + size then None
        else Some(Info(id, payload[8..8 + split], payload[8 + split..]))
      else None
  }

  /** All messages up to the end marker. */
  function Receive(bytes: Text): Option<seq<Message>>
    decreases |bytes|
  {
    match Split(bytes)
    case None => None
    case Some((code, payload, rest)) =>
      if code == 5 then if payload == EndBody && rest == [] then Some([]) else None
      else
        match Decode(code, payload)
        case None => None
        case Some(m) =>
          match Receive(rest)
          case None => None
          case Some(more) => Some([m] + more)
  }

  // ---- round trip ----

  lemma SplitFrame(code: int, body: Text, rest: Text)
    requires 0 <= code < 0x1_0000 && |body| < 0x1_0000_0000
    ensures Split(Frame(code, body) + rest) == Some((code, body, rest))
  {
    var bytes := Frame(code, body) + rest;
    Round16(Magic);
    Round16(code);
    Round32(|body|);
    assert bytes == Put16(Magic) + (Put16(code) + (Put32(|body|) + (body + rest)));
    assert bytes[..2] == Put16(Magic);
    assert bytes[2..4] == Put16(code);
    assert bytes[4..8] == Put32(|body|);
    assert bytes[8..8 + |body|] == body && bytes[8 + |body|..] == rest;
  }

  lemma DecodeBody(m: Message)
    requires ValidMessage(m)
    ensures Decode(Code(m), Body(m)) == Some(m)
  {
    var body := Body(m);
    Round32(m.id);
    assert body[..4] == Put32(m.id);
    match m
    case Info(_, key, value) =>
      Round16(|value|);
      assert body[6..8] == Put16(|value|);
      assert body[8..8 + |key|] == key && body[8 + |key|..] == value;
    case Record(_, kind, name) =>
      Round16(|name|);
      assert body[6..8] == Put16(|name|);
      assert body[8..8 + |kind|] == kind && body[8 + |kind|..] == name;
    case Alias(_, name) =>
      Round16(|name|);
      assert body[6..8] == Put16(|name|);
      assert body[8..] == name;
  }

  /** Receiving undoes sending, whatever follows in the stream. */
  lemma {:induction false} ReceiveImage(messages: seq<Message>, tail: Text)
    requires forall i | 0 <= i < |messages| :: ValidMessage(messages[i])
    requires Receive(tail).Some?
    ensures Receive(Image(messages) + tail) == Some(messages + Receive(tail).value)
  {
    hide Split, Decode, Frame, Body, ValidMessage;
    if messages == [] {
      assert Image(messages) + tail == tail && messages + Receive(tail).value == Receive(tail).value;
    } else {
      var last := messages[|messages| - 1];
      var before := messages[..|messages| - 1];
      ReceiveOne(last, tail);
      ReceiveImage(before, Encode(last) + tail);
      assert Image(messages) + tail == Image(before) + (Encode(last) + tail);
      assert messages + Receive(tail).value == before + ([last] + Receive(tail).value);
    }
  }

  lemma ReceiveOne(m: Message, tail: Text)
    requires ValidMessage(m) && Receive(tail).Some?
    ensures Receive(Encode(m) + tail) == Some([m] + Receive(tail).value)
  {
    hide Split, Decode, Frame, Body, ValidMessage;
    SplitFrame(Code(m), Body(m), tail);
    DecodeBody(m);
  }

  lemma ReceiveEnd()
    ensures Receive(Frame(5, EndBody)) == Some([])
  {
    hide Split, Decode;
    SplitFrame(5, EndBody, []);
    assert Frame(5, EndBody) + [] == Frame(5, EndBody);
  }
}
