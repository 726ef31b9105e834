/** A line of the log (NanoLogLine): its arguments are written, tagged, into a byte buffer that
starts inside the object and moves to the heap when it gets too small, and only the logger's
thread turns them into text.

What an address, a thread id or the bits of a double print as is a parameter (`Env`). */
module LogLine {

  import opened Arithmetic
  import opened Collections
  import Texts

  newtype byte = x: int | 0 <= x < 256

  type Text = seq<byte>

  /** How operator<< of std::ostream prints what the line only holds the bytes of. */
  datatype Env = Env(double: nat -> Text, literal: nat -> Text, thread: nat -> Text)

  /** One use of operator<<. A literal is held as an address; a null pointer is CString(None). */
  datatype Arg =
    | Char(c: byte)
    | Unsigned32(n: nat)
    | Unsigned64(n: nat)
    | Signed32(i: int)
    | Signed64(i: int)
    | Double(bits: nat)
    | Literal(address: nat)
    | String(text: Text)           // std::string const &
    | View(text: Text)             // std::string_view
    | CString(chars: Option<Text>) // char const *, char *

  /** LogLevel: DEBUG, INFO, WARN, CRIT. */
  datatype Header = Header(timestamp: nat, thread: nat, file: nat, name: nat, line: nat, level: byte)

  const STACK_SIZE: nat := 224 // 256 - 2 * sizeof(size_t) - sizeof(unique_ptr) - 8
  const HEADER_SIZE: nat := 37

  // ----- numbers as bytes

  /** Memory order. */
  function Bytes(n: nat, width: nat): (r: seq<byte>)
    ensures |r| == width
  {
    if width == 0 then [] else [(n % 256) as byte] + Bytes(n / 256, width - 1)
  }

  function Number(bytes: seq<byte>): nat {
    if bytes == [] then 0 else bytes[0] as nat + 256 * Number(bytes[1..])
  }

  lemma {:induction false} NumberOfBytes(n: nat, width: nat)
    requires n < Power(256, width)
    ensures Number(Bytes(n, width)) == n
  {
    if width > 0 {
      NumberOfBytes(n / 256, width - 1);
      assert Bytes(n, width)[1..] == Bytes(n / 256, width - 1);
    }
  }

  /** Two's complement. */
  function FromSigned(i: int, modulus: nat): nat
    requires modulus > 0
  {
    i % modulus
  }

  function ToSigned(w: nat, modulus: nat): int {
    if w >= modulus / 2 then w - modulus else w
  }

  lemma SignedRoundTrip(i: int, modulus: nat)
    requires modulus % 2 == 0 && modulus > 0 && 0 - modulus / 2 <= i < modulus / 2
    ensures FromSigned(i, modulus) < modulus && ToSigned(FromSigned(i, modulus), modulus) == i
  {
    if i < 0 { assert i % modulus == i + modulus by { ModUnique(i, -1, modulus, i + modulus); } }
    else { ModUnique(i, 0, modulus, i); }
  }

  // ----- text

  function Ascii(s: string): Text {
    seq(|s|, i requires 0 <= i < |s| => (s[i] as int % 256) as byte)
  }

  function Decimal(n: nat): Text {
    Ascii(Texts.Decimal(n))
  }

  function SignedDecimal(i: int): Text {
    if i < 0 then [45] + Decimal(0 - i) else Decimal(i)
  }

  /** What printing the argument itself would give. */
  function Rendering(env: Env, a: Arg): Text {
    match a
    case Char(c) => [c]
    case Unsigned32(n) => Decimal(n)
    case Unsigned64(n) => Decimal(n)
    case Signed32(i) => SignedDecimal(i)
    case Signed64(i) => SignedDecimal(i)
    case Double(bits) => env.double(bits)
    case Literal(address) => env.literal(address)
    case String(text) => text
    case View(text) => text
    case CString(chars) => if chars.Some? then chars.value else []
  }

  function Renderings(env: Env, args: seq<Arg>): Text {
    if args == [] then [] else Rendering(env, args[0]) + Renderings(env, args[1..])
  }

  // ----- the encoding

  const WORD32: nat := 0x1_0000_0000
  const WORD64: nat := 0x1_0000_0000_0000_0000

  predicate NoNul(text: Text) {
    forall i | 0 <= i < |text| :: text[i] != 0
  }

  /** The values that the argument's type has; strings without NUL. */
  predicate ArgOk(a: Arg) {
    match a
    case Char(_) => true
    case Unsigned32(n) => n < WORD32
    case Unsigned64(n) => n < WORD64
    case Signed32(i) => 0 - WORD32 / 2 <= i < WORD32 / 2
    case Signed64(i) => 0 - WORD64 / 2 <= i < WORD64 / 2
    case Double(bits) => bits < WORD64
    case Literal(address) => address < WORD64
    case String(text) => NoNul(text)
    case View(text) => NoNul(text)
    case CString(chars) => chars.Some? ==> NoNul(chars.value)
  }

  predicate ArgsOk(args: seq<Arg>) {
    forall i | 0 <= i < |args| :: ArgOk(args[i])
  }

  /** encode_c_string */
  function CStringBytes(text: Text): seq<byte> {
    if text == [] then [] else [7] + text + [0]
  }

  /** The tag is the position of the type among the SupportedTypes. */
  function Encoding(a: Arg): seq<byte> {
    match a
    case Char(c) => [0, c]
    case Unsigned32(n) => [1] + Bytes(n, 4)
    case Unsigned64(n) => [2] + Bytes(n, 8)
    case Signed32(i) => [3] + Bytes(FromSigned(i, WORD32), 4)
    case Signed64(i) => [4] + Bytes(FromSigned(i, WORD64), 8)
    case Double(bits) => [5] + Bytes(bits, 8)
    case Literal(address) => [6] + Bytes(address, 8)
    case String(text) => CStringBytes(text)
    case View(text) => [7] + text + [0]
    case CString(chars) => if chars.Some? then CStringBytes(chars.value) else []
  }

  function Encodings(args: seq<Arg>): seq<byte> {
    if args == [] then [] else Encoding(args[0]) + Encodings(args[1..])
  }

  predicate HeaderOk(h: Header) {
    h.timestamp < WORD64 && h.thread < WORD64 && h.file < WORD64 && h.name < WORD64 && h.line < WORD32
  }

  function HeaderBytes(h: Header): (r: seq<byte>)
    ensures |r| == HEADER_SIZE
  {
    Bytes(h.timestamp, 8) + Bytes(h.thread, 8) + Bytes(h.file, 8) + Bytes(h.name, 8) + Bytes(h.line, 4) + [h.level]
  }

  lemma HeaderParts(h: Header)
    ensures HeaderBytes(h) == Bytes(h.timestamp, 8) + Bytes(h.thread, 8) + Bytes(h.file, 8) + Bytes(h.name, 8) + Bytes(h.line, 4) + [h.level]
  {
  }

  lemma {:induction false} EncodingsAppend(args: seq<Arg>, a: Arg)
    ensures Encodings(args + [a]) == Encodings(args) + Encoding(a)
  {
    hide Encoding;
    if args == [] {
      OneEncoding(a);
      assert args + [a] == [a];
    } else {
      EncodingsAppend(args[1..], a);
      assert (args + [a])[0] == args[0] && (args + [a])[1..] == args[1..] + [a];
      Associates(Encoding(args[0]), Encodings(args[1..]), Encoding(a));
    }
  }

  lemma OneEncoding(a: Arg)
    ensures Encodings([a]) == Encoding(a)
  {
  }

  lemma Associates(a: seq<byte>, b: seq<byte>, c: seq<byte>)
    ensures a + (b + c) == a + b + c
  {
  }

  // ----- reading it back

  /** How the tag and the bytes after it give the text. */
  function TextOf(env: Env, tag: byte, bytes: seq<byte>): Text {
    if tag == 0 then (if |bytes| > 0 then [bytes[0]] else [])
    else if tag == 1 || tag == 2 then Decimal(Number(bytes))
    else if tag == 3 then SignedDecimal(ToSigned(Number(bytes), WORD32))
    else if tag == 4 then SignedDecimal(ToSigned(Number(bytes), WORD64))
    else if tag == 5 then env.double(Number(bytes))
    else env.literal(Number(bytes))
  }

  /** sizeof of the type that the tag stands for. */
  function Width(tag: byte): nat {
    if tag == 0 then 1 else if tag == 1 || tag == 3 then 4 else 8
  }

  lemma Widths()
    ensures Power(256, 4) == WORD32 && Power(256, 8) == WORD64
  {
  }

  /** A number, character or address decodes to what it would have printed as. */
  lemma FixedDecodes(env: Env, a: Arg)
    requires ArgOk(a) && !a.String? && !a.View? && !a.CString?
    ensures var e := Encoding(a);
            |e| > 0 && e[0] < 7 && |e| == 1 + Width(e[0]) && TextOf(env, e[0], e[1..]) == Rendering(env, a)
  {
    Widths();
    var e := Encoding(a);
    hide Power;
    match a
    case Char(c) =>
    case Unsigned32(n) => NumberOfBytes(n, 4); assert e[1..] == Bytes(n, 4);
    case Unsigned64(n) => NumberOfBytes(n, 8); assert e[1..] == Bytes(n, 8);
    case Signed32(i) =>
      SignedRoundTrip(i, WORD32);
      NumberOfBytes(FromSigned(i, WORD32), 4);
      assert e[1..] == Bytes(FromSigned(i, WORD32), 4);
    case Signed64(i) =>
      SignedRoundTrip(i, WORD64);
      NumberOfBytes(FromSigned(i, WORD64), 8);
      assert e[1..] == Bytes(FromSigned(i, WORD64), 8);
    case Double(bits) => NumberOfBytes(bits, 8); assert e[1..] == Bytes(bits, 8);
    case Literal(address) => NumberOfBytes(address, 8); assert e[1..] == Bytes(address, 8);
  }

  /** A string that is written at all is followed by the first NUL after its tag. */
  lemma StringEncodes(env: Env, a: Arg)
    requires ArgOk(a) && (a.String? || a.View? || a.CString?) && Encoding(a) != []
    ensures Encoding(a) == [7] + Rendering(env, a) + [0] && NoNul(Rendering(env, a))
  {
  }

  /** Without the leading arguments of which nothing was written. */
  function Written(args: seq<Arg>): seq<Arg> {
    if args == [] || Encoding(args[0]) != [] then args else Written(args[1..])
  }

  lemma {:induction false} SkippingUnwritten(env: Env, args: seq<Arg>)
    requires ArgsOk(args)
    ensures var w := Written(args);
            ArgsOk(w) && Encodings(w) == Encodings(args) && Renderings(env, w) == Renderings(env, args) && (w != [] ==> Encoding(w[0]) != [])
  {
    if args != [] && Encoding(args[0]) == [] {
      SkippingUnwritten(env, args[1..]);
      assert Rendering(env, args[0]) == [];
    }
  }

  /** What the next argument's bytes look like to the reader, and what follows them. */
  ghost predicate Reads(env: Env, bytes: seq<byte>, w: seq<Arg>) {
    && w != [] && bytes != []
    && var text, tag := Rendering(env, w[0]), bytes[0];
    if tag < 7 then
      && 1 + Width(tag) <= |bytes| && TextOf(env, tag, bytes[1..1 + Width(tag)]) == text
      && bytes[1 + Width(tag)..] == Encodings(w[1..])
    else
      && |text| + 2 <= |bytes| && bytes[1..1 + |text|] == text && NoNul(text) && bytes[1 + |text|] == 0
      && bytes[|text| + 2..] == Encodings(w[1..])
  }

  lemma NextArgument(env: Env, w: seq<Arg>)
    requires ArgsOk(w) && w != [] && Encoding(w[0]) != []
    ensures Reads(env, Encodings(w), w)
  {
    var a := w[0];
    var e, rest := Encoding(a), Encodings(w[1..]);
    assert Encodings(w) == e + rest;
    if a.String? || a.View? || a.CString? { StringEncodes(env, a); } else { FixedDecodes(env, a); }
    hide Encoding, Rendering, Encodings, TextOf;
    assert (e + rest)[|e|..] == rest && (e + rest)[1..|e|] == e[1..];
  }

  lemma SlicesOf(c: seq<byte>, start: nat, m: nat, n: nat)
    requires start + n <= |c| && m <= n
    ensures c[start..][m..n] == c[start + m..start + n] && c[start..][n..] == c[start + n..]
  {
  }

  /** What reading the next argument meets, past its tag. */
  lemma TaggedAt(env: Env, c: seq<byte>, start: nat, w: seq<Arg>)
    requires start < |c| && Reads(env, c[start..], w) && c[start] < 7
    ensures var next := start + 1 + Width(c[start]);
            && next <= |c| && TextOf(env, c[start], c[start + 1..next]) == Rendering(env, w[0]) && c[next..] == Encodings(w[1..])
  {
    hide Encodings, Rendering, TextOf, NoNul;
    SlicesOf(c, start, 1, 1 + Width(c[start]));
  }

  lemma StringAt(env: Env, c: seq<byte>, start: nat, w: seq<Arg>)
    requires start < |c| && Reads(env, c[start..], w) && c[start] >= 7
    ensures w != []
    ensures var text := Rendering(env, w[0]);
            var end := start + 1 + |text|;
            && end < |c| && NoNul(text) && c[start + 1..end] == text && c[end] == 0 && c[end + 1..] == Encodings(w[1..])
  {
    hide Encodings, Rendering, TextOf, NoNul;
    var text := Rendering(env, w[0]);
    SlicesOf(c, start, 1, 1 + |text|);
    SlicesOf(c, start, 1, 2 + |text|);
  }

  /** to_string(LogLevel) */
  function LevelName(level: byte): string {
    if level == 0 then "DEBUG" else if level == 1 then "INFO" else if level == 2 then "WARN" else if level == 3 then "CRIT" else "XXXX"
  }

  /** The start of a printed line; `now` is what format_timestamp prints, which is the time of
      printing. */
  function Prefix(env: Env, now: Text, h: Header): Text {
    now + Ascii("[") + Ascii(LevelName(h.level)) + Ascii("][") + env.thread(h.thread) + Ascii("][") + env.literal(h.file)
    + Ascii(":") + env.literal(h.name) + Ascii(":") + Decimal(h.line) + Ascii("] ")
  }

  lemma HeaderDecodes(h: Header, rest: seq<byte>)
    requires HeaderOk(h)
    ensures var b := HeaderBytes(h) + rest;
            && Number(b[8..16]) == h.thread && Number(b[16..24]) == h.file && Number(b[24..32]) == h.name
            && Number(b[32..36]) == h.line && b[36] == h.level && b[37..] == rest
  {
    Widths();
    hide Power, Number, Bytes;
    var b := HeaderBytes(h) + rest;
    NumberOfBytes(h.thread, 8);
    NumberOfBytes(h.file, 8);
    NumberOfBytes(h.name, 8);
    NumberOfBytes(h.line, 4);
    assert b[8..16] == Bytes(h.thread, 8);
    assert b[16..24] == Bytes(h.file, 8);
    assert b[24..32] == Bytes(h.name, 8);
    assert b[32..36] == Bytes(h.line, 4);
  }

  // ----- what is on the page, byte by byte

  /** The number that bytes stand for by their places, as decimal digits. */
  function PlaceValue(digits: Text): int {
    if digits == [] then 0 else 10 * PlaceValue(digits[..|digits| - 1]) + (digits[|digits| - 1] as int - 48)
  }

  /** Digits, one or more, without a zero in front unless it is the only one, that add up to n. */
  predicate IsNumber(text: Text, n: nat) {
    && text != [] && (forall i | 0 <= i < |text| :: 48 <= text[i] <= 57)
    && (|text| > 1 ==> text[0] != 48) && PlaceValue(text) == n
  }

  /** ... with a minus sign exactly if i is negative. */
  predicate IsInteger(text: Text, i: int) {
    if i < 0 then text != [] && text[0] == 45 && IsNumber(text[1..], -i) else IsNumber(text, i)
  }

  lemma {:induction false} AsciiValue(s: string)
    requires Texts.AllDigits(s)
    ensures PlaceValue(Ascii(s)) == Texts.ValueOf(s)
  {
    if s != "" {
      AsciiValue(s[..|s| - 1]);
      assert Ascii(s)[..|s| - 1] == Ascii(s[..|s| - 1]);
    }
  }

  lemma DecimalIsNumber(n: nat)
    ensures IsNumber(Decimal(n), n)
  {
    hide PlaceValue, Texts.ValueOf, Texts.Decimal;
    Texts.DecimalIsNumeral(n);
    AsciiValue(Texts.Decimal(n));
  }

  lemma SignedIsInteger(i: int)
    ensures IsInteger(SignedDecimal(i), i)
  {
    hide Decimal, IsNumber;
    DecimalIsNumber(if i < 0 then 0 - i else i);
    if i < 0 { assert SignedDecimal(i)[1..] == Decimal(0 - i); }
  }

  /** What an argument is to print as. */
  predicate Shows(env: Env, a: Arg, text: Text) {
    match a
    case Char(c) => text == [c]
    case Unsigned32(n) => IsNumber(text, n)
    case Unsigned64(n) => IsNumber(text, n)
    case Signed32(i) => IsInteger(text, i)
    case Signed64(i) => IsInteger(text, i)
    case Double(bits) => text == env.double(bits)
    case Literal(address) => text == env.literal(address)
    case String(t) => text == t
    case View(t) => text == t
    case CString(chars) => text == if chars.Some? then chars.value else []
  }

  function Concatenated(texts: seq<Text>): Text {
    if texts == [] then [] else texts[0] + Concatenated(texts[1..])
  }

  /** The text is what the arguments are to print as, one after the other. */
  ghost predicate ShowsAll(env: Env, args: seq<Arg>, text: Text) {
    exists texts: seq<Text> ::
      |texts| == |args| && (forall i | 0 <= i < |args| :: Shows(env, args[i], texts[i])) && text == Concatenated(texts)
  }

  lemma RenderingShows(env: Env, a: Arg)
    ensures Shows(env, a, Rendering(env, a))
  {
    match a
    case Unsigned32(n) => DecimalIsNumber(n);
    case Unsigned64(n) => DecimalIsNumber(n);
    case Signed32(i) => SignedIsInteger(i);
    case Signed64(i) => SignedIsInteger(i);
    case _ =>
  }

  lemma {:induction false} RenderingsShow(env: Env, args: seq<Arg>) returns (texts: seq<Text>)
    ensures |texts| == |args| && (forall i | 0 <= i < |args| :: Shows(env, args[i], texts[i]))
    ensures Concatenated(texts) == Renderings(env, args)
  {
    hide Shows, Rendering;
    if args == [] {
      texts := [];
    } else {
      var rest := RenderingsShow(env, args[1..]);
      RenderingShows(env, args[0]);
      texts := [Rendering(env, args[0])] + rest;
      assert texts[1..] == rest;
    }
  }

  /** DEBUG, INFO, WARN, CRIT. */
  function LevelBytes(level: byte): Text {
    if level == 0 then [68, 69, 66, 85, 71] else if level == 1 then [73, 78, 70, 79] else if level == 2 then [87, 65, 82, 78]
    else if level == 3 then [67, 82, 73, 84] else [88, 88, 88, 88]
  }

  /** The time, then level and thread in brackets, then file, function and line number in brackets with
      colons between them, and a space. */
  ghost predicate ShowsPrefix(env: Env, now: Text, h: Header, text: Text) {
    exists number: Text :: IsNumber(number, h.line) && text == Bracketed(env, now, h, number)
  }

  function Bracketed(env: Env, now: Text, h: Header, number: Text): Text {
    now + [91] + LevelBytes(h.level) + [93, 91] + env.thread(h.thread) + [93, 91] + env.literal(h.file)
    + [58] + env.literal(h.name) + [58] + number + [93, 32]
  }

  lemma LevelIs(level: byte)
    ensures Ascii(LevelName(level)) == LevelBytes(level)
    ensures Ascii("[") == [91] && Ascii("][") == [93, 91] && Ascii(":") == [58] && Ascii("] ") == [93, 32] && Ascii("\n") == [10]
  {
  }

  lemma PrefixShows(env: Env, now: Text, h: Header)
    ensures ShowsPrefix(env, now, h, Prefix(env, now, h))
  {
    LevelIs(h.level);
    DecimalIsNumber(h.line);
    hide Ascii, Decimal, IsNumber, LevelBytes, LevelName;
    assert Prefix(env, now, h) == Bracketed(env, now, h, Decimal(h.line));
  }

  /** A whole line. */
  ghost predicate ShowsLine(env: Env, now: Text, h: Header, args: seq<Arg>, os: Text) {
    exists prefix: Text, text: Text :: ShowsPrefix(env, now, h, prefix) && ShowsAll(env, args, text) && os == prefix + text + [10]
  }

  lemma ArgsShow(env: Env, args: seq<Arg>)
    ensures ShowsAll(env, args, Renderings(env, args))
  {
    hide Renderings, Shows, Concatenated;
    var texts := RenderingsShow(env, args);
  }

  lemma LineShows(env: Env, now: Text, h: Header, args: seq<Arg>)
    ensures ShowsLine(env, now, h, args, Prefix(env, now, h) + Renderings(env, args) + Ascii("\n"))
  {
    LevelIs(h.level);
    PrefixShows(env, now, h);
    ArgsShow(env, args);
    hide Ascii, Prefix, Renderings, ShowsPrefix, ShowsAll;
  }

  // ----- the line

  class NanoLogLine {
    var bytesUsed: nat
    var bufferSize: nat
    var heapBuffer: array?<byte>
    const stackBuffer: array<byte>

    ghost function Repr(): set<object>
      reads this
    {
      {this, stackBuffer} + if heapBuffer == null then {} else {heapBuffer}
    }

    ghost predicate Valid()
      reads this
    {
      && stackBuffer.Length == STACK_SIZE && bytesUsed <= bufferSize
      && if heapBuffer == null then bufferSize == STACK_SIZE else heapBuffer.Length == bufferSize && heapBuffer != stackBuffer
    }

    /** What has been written so far. */
    ghost function Contents(): seq<byte>
      reads this, stackBuffer, heapBuffer
      requires Valid()
    {
      if heapBuffer == null then stackBuffer[..bytesUsed] else heapBuffer[..bytesUsed]
    }

    /** Writes the bytes at the end of the buffer, which has room for them. */
    method Put(bytes: seq<byte>)
      requires Valid() && bytesUsed + |bytes| <= bufferSize
      modifies this`bytesUsed, stackBuffer, heapBuffer
      ensures Valid() && Contents() == old(Contents()) + bytes && bytesUsed == old(bytesUsed) + |bytes|
    {
      var buffer := if heapBuffer == null then stackBuffer else heapBuffer;
      var start := bytesUsed;
      forall i | 0 <= i < |bytes| { buffer[start + i] := bytes[i]; }
      bytesUsed := bytesUsed + |bytes|;
      assert buffer[..bytesUsed] == old(Contents()) + bytes;
    }

    /** resize_buffer_if_needed */
    method Resize(additional: nat)
      requires Valid()
      modifies this`bufferSize, this`heapBuffer
      ensures Valid() && bytesUsed + additional <= bufferSize && Contents() == old(Contents())
      ensures heapBuffer == old(heapBuffer) || fresh(heapBuffer)
    {
      var required := bytesUsed + additional;
      if required <= bufferSize { return; }
      var size := if heapBuffer == null then (if required < 512 then 512 else required)
                  else if required < 2 * bufferSize then 2 * bufferSize else required;
      var from := if heapBuffer == null then stackBuffer else heapBuffer;
      var to := new byte[size];
      forall i | 0 <= i < bytesUsed { to[i] := from[i]; }
      assert to[..bytesUsed] == from[..bytesUsed];
      heapBuffer := to;
      bufferSize := size;
    }

    /** The header always fits. */
    constructor (h: Header)
      requires HeaderOk(h)
      ensures Valid() && fresh(Repr()) && Contents() == HeaderBytes(h)
    {
      hide Bytes, HeaderBytes;
      bytesUsed := 0;
      bufferSize := STACK_SIZE;
      heapBuffer := null;
      stackBuffer := new byte[STACK_SIZE];
      new;
      assert Contents() == [];
      Put(Bytes(h.timestamp, 8));
      assert Contents() == Bytes(h.timestamp, 8);
      Put(Bytes(h.thread, 8));
      Put(Bytes(h.file, 8));
      Put(Bytes(h.name, 8));
      Put(Bytes(h.line, 4));
      Put([h.level]);
      HeaderParts(h);
    }

    /** encode(arg, type_id) */
    method EncodeTagged(tag: byte, bytes: seq<byte>)
      requires Valid()
      modifies this, stackBuffer, heapBuffer
      ensures Valid() && Contents() == old(Contents()) + ([tag] + bytes)
      ensures heapBuffer == old(heapBuffer) || fresh(heapBuffer)
    {
      Resize(|bytes| + 1);
      Put([tag]);
      Put(bytes);
    }

    /** encode_c_string */
    method EncodeCString(text: Text)
      requires Valid()
      modifies this, stackBuffer, heapBuffer
      ensures Valid() && Contents() == old(Contents()) + CStringBytes(text)
      ensures heapBuffer == old(heapBuffer) || fresh(heapBuffer)
    {
      if |text| == 0 { return; }
      EncodeTagged(7, text + [0]);
    }

    /** operator<< for each of the types. */
    method Append(a: Arg)
      requires Valid() && ArgOk(a)
      modifies this, stackBuffer, heapBuffer
      ensures Valid() && Contents() == old(Contents()) + Encoding(a)
      ensures heapBuffer == old(heapBuffer) || fresh(heapBuffer)
    {
      hide Bytes;
      match a
      case Char(c) => EncodeTagged(0, [c]);
      case Unsigned32(n) => EncodeTagged(1, Bytes(n, 4));
      case Unsigned64(n) => EncodeTagged(2, Bytes(n, 8));
      case Signed32(i) => EncodeTagged(3, Bytes(FromSigned(i, WORD32), 4));
      case Signed64(i) => EncodeTagged(4, Bytes(FromSigned(i, WORD64), 8));
      case Double(bits) => EncodeTagged(5, Bytes(bits, 8));
      case Literal(address) => EncodeTagged(6, Bytes(address, 8));
      case String(text) => EncodeCString(text);
      case View(text) => EncodeTagged(7, text + [0]);
      case CString(chars) => if chars.Some? { EncodeCString(chars.value); }
    }

    /** decode for char *: up to the NUL, and past it. */
    method DecodeCString(os: Text, start: nat, ghost text: Text) returns (os': Text, next: nat)
      requires Valid() && start + |text| < bytesUsed && NoNul(text)
      requires Contents()[start..start + |text|] == text && Contents()[start + |text|] == 0
      ensures os' == os + text && next == start + |text| + 1
    {
      var b := if heapBuffer == null then stackBuffer else heapBuffer;
      os', next := os, start;
      assert forall i | 0 <= i < |text| :: text[i] == Contents()[start..start + |text|][i] == b[start + i];
      while b[next] != 0
        invariant start <= next <= start + |text| && os' == os + text[..next - start]
        decreases start + |text| - next
      {
        os', next := os' + [b[next]], next + 1;
      }
      assert text[..|text|] == text;
      next := next + 1;
    }

    /** One step of stringify(os, start, end): the tag and what follows it. */
    method DecodeNext(env: Env, os: Text, start: nat, ghost w: seq<Arg>) returns (os': Text, next: nat)
      requires Valid() && start < bytesUsed && Reads(env, Contents()[start..], w)
      ensures os' == os + Rendering(env, w[0]) && start < next <= bytesUsed && Contents()[next..] == Encodings(w[1..])
    {
      hide Encodings, Rendering, TextOf, NoNul, Reads;
      var b := if heapBuffer == null then stackBuffer else heapBuffer;
      var tag := b[start];
      ghost var c := Contents();
      assert c == b[..bytesUsed];
      if tag < 7 {
        TaggedAt(env, c, start, w);
        next := start + 1 + Width(tag);
        assert b[start + 1..next] == c[start + 1..next];
        os' := os + TextOf(env, tag, b[start + 1..next]);
      } else {
        StringAt(env, c, start, w);
        os', next := DecodeCString(os, start + 1, Rendering(env, w[0]));
      }
    }

    /** stringify(os, start, end): `args` are the arguments whose encoding begins at `start`. It
        prints them all and stops exactly at the end. */
    method StringifyArgs(env: Env, os: Text, start: nat, ghost args: seq<Arg>) returns (os': Text, stop: nat)
      requires Valid() && start <= bytesUsed && ArgsOk(args) && Contents()[start..] == Encodings(args)
      ensures os' == os + Renderings(env, args) && stop == bytesUsed
      ensures exists text: Text :: ShowsAll(env, args, text) && os' == os + text
      decreases bytesUsed - start
    {
      hide Encoding, Rendering, ArgOk, Written, Reads, ShowsAll;
      ArgsShow(env, args);
      SkippingUnwritten(env, args);
      ghost var w := Written(args);
      if start == bytesUsed {
        assert w == [];
        return os, start;
      }
      NextArgument(env, w);
      var os1, next := DecodeNext(env, os, start, w);
      os', stop := StringifyArgs(env, os1, next, w[1..]);
    }

    /** stringify(os), for a line of which `h` and `args` were written. */
    method Stringify(env: Env, now: Text, ghost h: Header, ghost args: seq<Arg>) returns (os: Text)
      requires Valid() && HeaderOk(h) && ArgsOk(args) && Contents() == HeaderBytes(h) + Encodings(args)
      ensures os == Prefix(env, now, h) + Renderings(env, args) + Ascii("\n")
      ensures ShowsLine(env, now, h, args, os)
    {
      hide Bytes, Number, Encodings, Renderings, Ascii, Decimal, ArgOk, HeaderBytes, ShowsLine, ShowsAll;
      LineShows(env, now, h, args);
      HeaderDecodes(h, Encodings(args));
      var b := if heapBuffer == null then stackBuffer else heapBuffer;
      ghost var c := Contents();
      assert b[8..16] == c[8..16] && b[16..24] == c[16..24] && b[24..32] == c[24..32] && b[32..36] == c[32..36] && b[36] == c[36];
      os := Prefix(env, now, Header(Number(b[..8]), Number(b[8..16]), Number(b[16..24]), Number(b[24..32]), Number(b[32..36]), b[36]));
      var stop;
      os, stop := StringifyArgs(env, os, HEADER_SIZE, args);
      os := os + Ascii("\n");
    }
  }

  /** The round trip: a line made of any arguments prints as its prefix and what the arguments
      themselves print, one after the other, however often the buffer had to grow. */
  method LogAndPrint(env: Env, now: Text, h: Header, args: seq<Arg>) returns (os: Text)
    requires HeaderOk(h) && ArgsOk(args)
    ensures os == Prefix(env, now, h) + Renderings(env, args) + Ascii("\n")
    ensures ShowsLine(env, now, h, args, os)
  {
    hide Encoding, HeaderBytes, Prefix, Renderings, Rendering, Ascii, ArgOk, ShowsLine;
    var line := new NanoLogLine(h);
    var n := 0;
    while n < |args|
      invariant n <= |args| && line.Valid() && fresh(line.Repr())
      invariant line.Contents() == HeaderBytes(h) + Encodings(args[..n])
    {
      line.Append(args[n]);
      EncodingsAppend(args[..n], args[n]);
      assert args[..n + 1] == args[..n] + [args[n]];
      n := n + 1;
    }
    assert args[..n] == args;
    os := line.Stringify(env, now, h, args);
  }
}
