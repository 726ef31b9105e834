/** Records in the line protocol of time-series databases (client::Builder): what is written can be
read back by a reader that splits only at separators that are neither escaped nor quoted. */
module LineProtocol {

  import opened Collections
  import opened Texts

  /** What a value may be; both widths of signed and of unsigned integers print alike. */
  datatype Value = Bool(b: bool) | Signed(i: int) | Unsigned(n: nat) | Text(s: string)

  datatype Tag = Tag(key: string, text: string)

  datatype Field = Field(key: string, value: Value)

  /** A record to be written. `timestamp` in nanoseconds. */
  datatype Entry = Entry(name: string, tags: seq<Tag>, fields: seq<Field>, timestamp: int)

  // ----- printing numbers

  function Integer(i: int): string {
    if i < 0 then "-" + Decimal(0 - i) else Decimal(i)
  }

  /** The numeral of the number without its sign, and a minus sign before it exactly for negative ones. */
  predicate IsInteger(text: string, i: int) {
    if i < 0 then text != "" && text[0] == '-' && IsNumeral(text[1..], 0 - i) else IsNumeral(text, i)
  }

  lemma IntegerIs(i: int)
    ensures IsInteger(Integer(i), i)
    ensures Integer(i) != "" && (Integer(i)[0] == '-' <==> i < 0)
  {
    hide ValueOf;
    DecimalIsNumeral(if i < 0 then 0 - i else i);
    if i < 0 { assert Integer(i)[1..] == Decimal(0 - i); }
  }

  // ----- escaping

  predicate Escapes(c: char, space: bool) {
    c == ',' || c == '"' || c == '=' || c == '\n' || c == '\r' || c == '\\' || (c == ' ' && space)
  }

  function EscapedChar(c: char, space: bool): string {
    if Escapes(c, space) then ['\\', c] else [c]
  }

  function Escaped(s: string, space: bool): string {
    if s == "" then "" else EscapedChar(s[0], space) + Escaped(s[1..], space)
  }

  function Unescaped(s: string): string {
    if s == "" then ""
    else if s[0] == '\\' && |s| > 1 then [s[1]] + Unescaped(s[2..])
    else [s[0]] + Unescaped(s[1..])
  }

  /** Unescaping undoes `clean`. */
  lemma {:induction false} UnescapeUndoesEscape(s: string, space: bool)
    ensures Unescaped(Escaped(s, space)) == s
  {
    if s != "" {
      UnescapeUndoesEscape(s[1..], space);
      var rest := Escaped(s[1..], space);
      var e := EscapedChar(s[0], space) + rest;
      if Escapes(s[0], space) {
        assert e[0] == '\\' && e[1] == s[0] && e[2..] == rest;
      } else {
        assert e[0] == s[0] && e[1..] == rest;
      }
    }
  }

  /** Comma, quote, equals sign, line ends and backslash, and a space where that is to be escaped. */
  predicate Special(c: char, space: bool) {
    c in ",\"=\n\r\\" || (space && c == ' ')
  }

  /** How many of the first k characters are special. */
  function Specials(view: string, k: nat, space: bool): (n: nat)
    requires k <= |view|
  {
    if k == 0 then 0 else Specials(view, k - 1, space) + if Special(view[k - 1], space) then 1 else 0
  }

  /** The text has the first n characters of the view in their order, a backslash before each special
      one, and nothing else. */
  ghost predicate EscapedAs(text: string, view: string, n: nat, space: bool)
    requires n <= |view|
  {
    && |text| == n + Specials(view, n, space)
    && forall k | 0 <= k < n :: StandsAt(text, view, k, space)
  }

  /** Where k characters and the special ones up to it leave it. */
  predicate StandsAt(text: string, view: string, k: nat, space: bool)
    requires k < |view|
  {
    var at := k + Specials(view, k + 1, space);
    at < |text| && text[at] == view[k] && (Special(view[k], space) ==> at > 0 && text[at - 1] == '\\')
  }

  lemma OneMoreEscaped(text: string, view: string, n: nat, space: bool, more: string)
    requires n < |view| && EscapedAs(text, view, n, space)
    requires more == if Special(view[n], space) then ['\\', view[n]] else [view[n]]
    ensures EscapedAs(text + more, view, n + 1, space)
  {
    hide Special;
    forall k | 0 <= k < n + 1 ensures StandsAt(text + more, view, k, space) {
      if k < n { assert StandsAt(text, view, k, space); }
    }
  }

  predicate Unspecial(view: string, n: nat, space: bool)
    requires n <= |view|
  {
    forall c | c in view[..n] :: !Special(c, space)
  }

  /** A text without special characters stays as it is. */
  lemma {:induction false} PlainStays(text: string, view: string, n: nat, space: bool)
    requires n <= |view| && EscapedAs(text, view, n, space)
    requires Unspecial(view, n, space)
    ensures text == view[..n]
  {
    hide Special;
    NoneSpecial(view, n, space);
    forall k | 0 <= k < n ensures text[k] == view[k] {
      NoneSpecial(view, k + 1, space);
      assert StandsAt(text, view, k, space);
    }
  }

  lemma {:induction false} NoneSpecial(view: string, n: nat, space: bool)
    requires n <= |view| && Unspecial(view, n, space)
    ensures Specials(view, n, space) == 0
  {
    if n > 0 { NoneSpecial(view, n - 1, space); }
  }

  /** clean */
  method Clean(view: string, space: bool) returns (value: string)
    ensures EscapedAs(value, view, |view|, space)
    ensures Unspecial(view, |view|, space) ==> value == view
    ensures value == Escaped(view, space)
  {
    hide EscapedAs;
    value := "";
    var i := 0;
    NothingEscaped(view, space);
    while i < |view|
      invariant i <= |view| && value + Escaped(view[i..], space) == Escaped(view, space)
      invariant EscapedAs(value, view, i, space)
    {
      var c := view[i];
      assert view[i..][1..] == view[i + 1..];
      ghost var before := value;
      if c == ',' { value := value + "\\,"; }
      else if c == '"' { value := value + "\\\""; }
      else if c == '=' { value := value + "\\="; }
      else if c == '\n' { value := value + "\\\n"; }
      else if c == '\r' { value := value + "\\\r"; }
      else if c == '\\' { value := value + ['\\', '\\']; }
      else if c == ' ' { if space { value := value + "\\ "; } else { value := value + [c]; } }
      else { value := value + [c]; }
      assert value == before + EscapedChar(c, space);
      Regroup(before, EscapedChar(c, space), Escaped(view[i + 1..], space));
      OneMoreEscaped(before, view, i, space, EscapedChar(c, space));
      i := i + 1;
    }
    assert view[|view|..] == "" && view[..|view|] == view;
    if Unspecial(view, |view|, space) { PlainStays(value, view, |view|, space); }
  }

  lemma NothingEscaped(view: string, space: bool)
    ensures EscapedAs("", view, 0, space)
  {
  }

  lemma Regroup(a: string, b: string, c: string)
    ensures a + (b + c) == a + b + c
  {
  }

  lemma RegroupAll(a: string, b: string, c: string, d: string)
    ensures a + (b + c + d) == a + b + c + d
  {
  }

  // ----- what is written

  function TagText(t: Tag): string {
    t.key + "=" + Escaped(t.text, true)
  }

  function ValueText(v: Value): string {
    match v
    case Bool(b) => if b then "true" else "false"
    case Signed(i) => Integer(i) + "i"
    case Unsigned(n) => Decimal(n) + "u"
    case Text(s) => "\"" + Escaped(s, false) + "\""
  }

  /** What a value's text is: a word; an integer and `i`, or `u` if it is unsigned; or the escaped
      text between quotes. */
  ghost predicate Shows(text: string, v: Value) {
    text != "" &&
    var last := |text| - 1;
    match v
    case Bool(b) => text == if b then "true" else "false"
    case Signed(i) => text[last] == 'i' && IsInteger(text[..last], i)
    case Unsigned(n) => text[last] == 'u' && IsNumeral(text[..last], n)
    case Text(s) => last > 0 && text[0] == '"' && text[last] == '"' && EscapedAs(text[1..last], s, |s|, false)
  }

  lemma ValueShows(v: Value, escaped: string)
    requires v.Text? ==> escaped == Escaped(v.s, false) && EscapedAs(escaped, v.s, |v.s|, false)
    ensures Shows(ValueText(v), v)
  {
    hide EscapedAs, IsInteger, IsNumeral;
    var text := ValueText(v);
    match v
    case Bool(_) =>
    case Signed(i) =>
      IntegerIs(i);
      assert text[..|text| - 1] == Integer(i);
    case Unsigned(n) =>
      DecimalIsNumeral(n);
      assert text[..|text| - 1] == Decimal(n);
    case Text(_) => assert text[1..|text| - 1] == escaped;
  }

  function FieldText(f: Field): string {
    f.key + "=" + ValueText(f.value)
  }

  /** Pieces with a separator between each two. */
  function Joined(pieces: seq<string>, separator: char): string {
    if pieces == [] then ""
    else if |pieces| == 1 then pieces[0]
    else pieces[0] + [separator] + Joined(pieces[1..], separator)
  }

  function TagTexts(tags: seq<Tag>): (r: seq<string>)
    ensures |r| == |tags| && forall i | 0 <= i < |r| :: r[i] == TagText(tags[i])
  {
    seq(|tags|, i requires 0 <= i < |tags| => TagText(tags[i]))
  }

  function FieldTexts(fields: seq<Field>): (r: seq<string>)
    ensures |r| == |fields| && forall i | 0 <= i < |r| :: r[i] == FieldText(fields[i])
  {
    seq(|fields|, i requires 0 <= i < |fields| => FieldText(fields[i]))
  }

  function HeadText(name: string, tags: seq<Tag>): string {
    name + "," + Joined(TagTexts(tags), ',')
  }

  function EntryText(e: Entry): string {
    Joined([HeadText(e.name, e.tags), Joined(FieldTexts(e.fields), ','), Integer(e.timestamp)], ' ')
  }

  function EntriesText(entries: seq<Entry>): string {
    if entries == [] then "" else EntriesText(entries[..|entries| - 1]) + EntryText(entries[|entries| - 1]) + "\n"
  }

  lemma {:induction false} JoinedMore(pieces: seq<string>, piece: string, separator: char)
    requires pieces != []
    ensures Joined(pieces + [piece], separator) == Joined(pieces, separator) + [separator] + piece
  {
    if |pieces| == 1 {
      assert (pieces + [piece])[1..] == [piece];
    } else {
      JoinedMore(pieces[1..], piece, separator);
      assert (pieces + [piece])[1..] == pieces[1..] + [piece];
    }
  }

  // ----- the builder

  /** The record being built: its tags and values as text. */
  datatype Record = Record(name: string, tags: string, value: string, timestamp: int)

  class Builder {
    var value: string
    var record: Option<Record>

    constructor ()
      ensures value == "" && record.None?
    {
      value := "";
      record := None;
    }

    /** `now` is the clock's time. */
    method StartRecord(name: string, now: int)
      modifies this
      ensures value == old(value) && record == Some(Record(name, "", "", now))
    {
      record := Some(Record(name, "", "", now));
    }

    method AddTag(key: string, v: string)
      requires record.Some?
      modifies this
      ensures value == old(value) && record.Some?
      ensures var r := old(record.value);
              record.value == r.(tags := (if r.tags == "" then "" else r.tags + ",") + TagText(Tag(key, v)))
      ensures var r := old(record.value);
              exists text :: EscapedAs(text, v, |v|, true) &&
                record.value == r.(tags := (if r.tags == "" then "" else r.tags + ",") + key + "=" + text)
    {
      hide EscapedAs;
      var tags := record.value.tags;
      if tags != "" { tags := tags + ","; }
      var text := Clean(v, true);
      RegroupAll(tags, key, "=", text);
      tags := tags + (key + "=" + text);
      record := Some(record.value.(tags := tags));
    }

    /** addValue, for each of the types. */
    method AddValue(key: string, v: Value)
      requires record.Some?
      modifies this
      ensures value == old(value) && record.Some?
      ensures var r := old(record.value);
              record.value == r.(value := (if r.value == "" then "" else r.value + ",") + FieldText(Field(key, v)))
      ensures var r := old(record.value);
              exists text :: Shows(text, v) &&
                record.value == r.(value := (if r.value == "" then "" else r.value + ",") + key + "=" + text)
    {
      hide EscapedAs, Shows, Unspecial, Escaped, Integer, Decimal;
      var values := record.value.value;
      if values != "" { values := values + ","; }
      ghost var before, escaped := values, "";
      match v {
        case Bool(b) => values := values + (key + "=" + if b then "true" else "false");
        case Signed(i) => values := values + (key + "=" + (Integer(i) + "i"));
        case Unsigned(n) => values := values + (key + "=" + (Decimal(n) + "u"));
        case Text(s) =>
          var text := Clean(s, false);
          escaped := text;
          values := values + (key + "=" + ("\"" + text + "\""));
      }
      ValueShows(v, escaped);
      assert values == before + (key + "=" + ValueText(v));
      RegroupAll(before, key, "=", ValueText(v));
      record := Some(record.value.(value := values));
    }

    method Timestamp(v: int)
      requires record.Some?
      modifies this
      ensures value == old(value) && record == Some(old(record.value).(timestamp := v))
    {
      record := Some(record.value.(timestamp := v));
    }

    method EndRecord()
      requires record.Some?
      modifies this
      ensures record == old(record)
      ensures var r := record.value;
              value == old(value) + Joined([r.name + "," + r.tags, r.value, Integer(r.timestamp)], ' ') + "\n"
    {
      var r := record.value;
      var line := r.name + "," + r.tags + " " + r.value + " " + Integer(r.timestamp);
      value := value + line + "\n";
      ThreeJoined(r.name + "," + r.tags, r.value, Integer(r.timestamp));
    }
  }

  lemma ThreeJoined(a: string, b: string, c: string)
    ensures Joined([a, b, c], ' ') == a + " " + b + " " + c
  {
    assert [a, b, c][1..] == [b, c] && [b, c][1..] == [c];
    assert Joined([b, c], ' ') == b + " " + c;
    assert Joined([a, b, c], ' ') == a + " " + (b + " " + c);
  }

  // ----- a reader

  /** The pieces of a text between the separators that are neither escaped nor within quotes, having
      read `piece` so far. */
  function SplitFrom(text: string, separator: char, escaped: bool, quoted: bool, piece: string): (r: seq<string>)
    ensures r != []
    decreases |text|
  {
    if text == "" then [piece]
    else
      var c, rest := text[0], text[1..];
      if escaped then SplitFrom(rest, separator, false, quoted, piece + [c])
      else if c == '\\' then SplitFrom(rest, separator, true, quoted, piece + [c])
      else if c == '"' then SplitFrom(rest, separator, false, !quoted, piece + [c])
      else if c == separator && !quoted then [piece] + SplitFrom(rest, separator, false, false, "")
      else SplitFrom(rest, separator, false, quoted, piece + [c])
  }

  function Split(text: string, separator: char): seq<string> {
    SplitFrom(text, separator, false, false, "")
  }

  function ReadNat(s: string): nat {
    if ValueOf(s) >= 0 then ValueOf(s) else 0
  }

  function ReadInteger(s: string): int {
    if s != "" && s[0] == '-' then 0 - ValueOf(s[1..]) else ValueOf(s)
  }

  function ReadValue(s: string): Option<Value> {
    if s == "" then None
    else if s[0] == '"' then (if |s| >= 2 then Some(Text(Unescaped(s[1..|s| - 1]))) else None)
    else if s == "true" then Some(Bool(true))
    else if s == "false" then Some(Bool(false))
    else if s[|s| - 1] == 'i' then Some(Signed(ReadInteger(s[..|s| - 1])))
    else if s[|s| - 1] == 'u' then Some(Unsigned(ReadNat(s[..|s| - 1])))
    else None
  }

  function ReadTag(s: string): Option<Tag> {
    var parts := Split(s, '=');
    if |parts| == 2 then Some(Tag(parts[0], Unescaped(parts[1]))) else None
  }

  function ReadField(s: string): Option<Field> {
    var parts := Split(s, '=');
    if |parts| == 2 then
      match ReadValue(parts[1])
      case Some(v) => Some(Field(parts[0], v))
      case None => None
    else None
  }

  function ReadTags(pieces: seq<string>): Option<seq<Tag>> {
    if pieces == [] then Some([])
    else
      match (ReadTags(pieces[..|pieces| - 1]), ReadTag(pieces[|pieces| - 1]))
      case (Some(tags), Some(t)) => Some(tags + [t])
      case _ => None
  }

  function ReadFields(pieces: seq<string>): Option<seq<Field>> {
    if pieces == [] then Some([])
    else
      match (ReadFields(pieces[..|pieces| - 1]), ReadField(pieces[|pieces| - 1]))
      case (Some(fields), Some(f)) => Some(fields + [f])
      case _ => None
  }

  function ReadEntry(line: string): Option<Entry> {
    var parts := Split(line, ' ');
    if |parts| != 3 then None
    else
      var head := Split(parts[0], ',');
      match (ReadTags(head[1..]), ReadFields(Split(parts[1], ',')))
      case (Some(tags), Some(fields)) => Some(Entry(head[0], tags, fields, ReadInteger(parts[2])))
      case _ => None
  }

  function ReadLines(lines: seq<string>): Option<seq<Entry>> {
    if lines == [] then Some([])
    else
      match (ReadLines(lines[..|lines| - 1]), ReadEntry(lines[|lines| - 1]))
      case (Some(entries), Some(e)) => Some(entries + [e])
      case _ => None
  }

  /** Every line ends with a newline, so nothing comes after the last. */
  function ReadAll(text: string): Option<seq<Entry>> {
    var lines := Split(text, '\n');
    if lines[|lines| - 1] == "" then ReadLines(lines[..|lines| - 1]) else None
  }

  // ----- pieces that a separator does not split

  /** Where the reader is after a text in which it meets no separator. */
  function Walk(text: string, separator: char, escaped: bool, quoted: bool): Option<(bool, bool)> {
    if text == "" then Some((escaped, quoted))
    else
      var c, rest := text[0], text[1..];
      if escaped then Walk(rest, separator, false, quoted)
      else if c == '\\' then Walk(rest, separator, true, quoted)
      else if c == '"' then Walk(rest, separator, false, !quoted)
      else if c == separator && !quoted then None
      else Walk(rest, separator, false, quoted)
  }

  /** No separator outside escapes and quotes, and none of those left open. */
  predicate Closed(text: string, separator: char) {
    Walk(text, separator, false, false) == Some((false, false))
  }

  lemma {:induction false} WalkOn(a: string, b: string, separator: char, escaped: bool, quoted: bool)
    requires Walk(a, separator, escaped, quoted).Some?
    ensures var s := Walk(a, separator, escaped, quoted).value;
            Walk(a + b, separator, escaped, quoted) == Walk(b, separator, s.0, s.1)
    decreases |a|
  {
    if a == "" {
      assert a + b == b;
    } else {
      var c, rest := a[0], a[1..];
      assert (a + b)[0] == c && (a + b)[1..] == rest + b;
      if escaped { WalkOn(rest, b, separator, false, quoted); }
      else if c == '\\' { WalkOn(rest, b, separator, true, quoted); }
      else if c == '"' { WalkOn(rest, b, separator, false, !quoted); }
      else { WalkOn(rest, b, separator, false, quoted); }
    }
  }

  lemma ClosedTogether(a: string, b: string, separator: char)
    requires Closed(a, separator) && Closed(b, separator)
    ensures Closed(a + b, separator)
  {
    WalkOn(a, b, separator, false, false);
  }

  /** The reader splits after a closed piece, and not within it. */
  lemma {:induction false} SplitPasses(a: string, b: string, separator: char, escaped: bool, quoted: bool, piece: string)
    requires Walk(a, separator, escaped, quoted).Some?
    ensures var s := Walk(a, separator, escaped, quoted).value;
            SplitFrom(a + b, separator, escaped, quoted, piece) == SplitFrom(b, separator, s.0, s.1, piece + a)
    decreases |a|
  {
    if a == "" {
      assert a + b == b && piece + a == piece;
    } else {
      var c, rest := a[0], a[1..];
      assert (a + b)[0] == c && (a + b)[1..] == rest + b && piece + a == piece + [c] + rest;
      if escaped { SplitPasses(rest, b, separator, false, quoted, piece + [c]); }
      else if c == '\\' { SplitPasses(rest, b, separator, true, quoted, piece + [c]); }
      else if c == '"' { SplitPasses(rest, b, separator, false, !quoted, piece + [c]); }
      else { SplitPasses(rest, b, separator, false, quoted, piece + [c]); }
    }
  }

  predicate AllClosed(pieces: seq<string>, separator: char) {
    forall i | 0 <= i < |pieces| :: Closed(pieces[i], separator)
  }

  predicate Separates(c: char) {
    c != '\\' && c != '"'
  }

  lemma SplitOne(piece: string, rest: string, separator: char)
    requires Closed(piece, separator) && Separates(separator)
    ensures Split(piece, separator) == [piece]
    ensures Split(piece + [separator] + rest, separator) == [piece] + Split(rest, separator)
  {
    SplitPasses(piece, "", separator, false, false, "");
    assert piece + "" == piece && "" + piece == piece;
    SplitPasses(piece, [separator] + rest, separator, false, false, "");
    assert piece + ([separator] + rest) == piece + [separator] + rest;
    assert ([separator] + rest)[1..] == rest;
  }

  /** Splitting undoes joining. */
  lemma {:induction false} SplitUndoesJoin(pieces: seq<string>, separator: char)
    requires pieces != [] && AllClosed(pieces, separator) && Separates(separator)
    ensures Split(Joined(pieces, separator), separator) == pieces
  {
    if |pieces| == 1 {
      SplitOne(pieces[0], "", separator);
    } else {
      SplitUndoesJoin(pieces[1..], separator);
      SplitOne(pieces[0], Joined(pieces[1..], separator), separator);
    }
  }

  lemma {:induction false} JoinClosed(pieces: seq<string>, separator: char, outer: char)
    requires AllClosed(pieces, outer) && Separates(separator) && separator != outer
    ensures Closed(Joined(pieces, separator), outer)
  {
    if |pieces| > 1 {
      JoinClosed(pieces[1..], separator, outer);
      assert Closed([separator], outer) by { assert [separator][1..] == ""; }
      ClosedTogether(pieces[0], [separator], outer);
      ClosedTogether(pieces[0] + [separator], Joined(pieces[1..], separator), outer);
    }
  }

  // ----- what the builder writes is closed

  predicate IsSeparator(c: char) {
    c == ',' || c == '=' || c == ' ' || c == '\n'
  }

  /** A name or key without characters that mean something to the reader. */
  predicate Plain(s: string) {
    forall i | 0 <= i < |s| :: !Escapes(s[i], true)
  }

  lemma {:induction false} PlainClosed(s: string, separator: char)
    requires Plain(s) && IsSeparator(separator)
    ensures Closed(s, separator)
  {
    if s != "" {
      assert Plain(s[1..]);
      PlainClosed(s[1..], separator);
    }
  }

  lemma WalkPair(c: char, separator: char, quoted: bool)
    ensures Walk(['\\', c], separator, false, quoted) == Some((false, quoted))
  {
    var text := ['\\', c];
    assert text[1..] == [c] && [c][1..] == "";
    assert Walk([c], separator, true, quoted) == Walk("", separator, false, quoted);
  }

  lemma OneEscapedClosed(c: char, separator: char)
    requires IsSeparator(separator)
    ensures Closed(EscapedChar(c, true), separator)
    ensures Walk(EscapedChar(c, false), separator, false, true) == Some((false, true))
  {
    WalkPair(c, separator, false);
    WalkPair(c, separator, true);
    assert [c][1..] == "";
  }

  lemma {:induction false} EscapedClosed(s: string, separator: char)
    requires IsSeparator(separator)
    ensures Closed(Escaped(s, true), separator)
  {
    if s != "" {
      EscapedClosed(s[1..], separator);
      OneEscapedClosed(s[0], separator);
      ClosedTogether(EscapedChar(s[0], true), Escaped(s[1..], true), separator);
    }
  }

  lemma {:induction false} QuotedOn(s: string, separator: char)
    requires IsSeparator(separator)
    ensures Walk(Escaped(s, false), separator, false, true) == Some((false, true))
  {
    if s != "" {
      QuotedOn(s[1..], separator);
      OneEscapedClosed(s[0], separator);
      WalkOn(EscapedChar(s[0], false), Escaped(s[1..], false), separator, false, true);
    }
  }

  lemma QuotedClosed(s: string, separator: char)
    requires IsSeparator(separator)
    ensures Closed("\"" + Escaped(s, false) + "\"", separator)
  {
    var inner := Escaped(s, false);
    QuotedOn(s, separator);
    WalkOn(inner, "\"", separator, false, true);
    var text := "\"" + inner + "\"";
    assert text[0] == '"' && text[1..] == inner + "\"";
    assert "\""[1..] == "";
  }

  lemma {:induction false} DecimalPlain(n: nat)
    ensures Plain(Decimal(n)) && |Decimal(n)| > 0 && Decimal(n)[0] != '-'
    ensures forall i | 0 <= i < |Decimal(n)| :: '0' <= Decimal(n)[i] <= '9'
  {
    if n >= 10 { DecimalPlain(n / 10); }
  }

  lemma IntegerPlain(i: int)
    ensures Plain(Integer(i)) && |Integer(i)| > 0 && Integer(i)[0] != '"'
  {
    DecimalPlain(if i < 0 then 0 - i else i);
  }

  lemma ValueClosed(v: Value, separator: char)
    requires IsSeparator(separator)
    ensures Closed(ValueText(v), separator)
  {
    match v
    case Bool(b) => PlainClosed(if b then "true" else "false", separator);
    case Signed(i) => IntegerPlain(i); PlainClosed(Integer(i) + "i", separator);
    case Unsigned(n) => DecimalPlain(n); PlainClosed(Decimal(n) + "u", separator);
    case Text(s) => QuotedClosed(s, separator);
  }

  lemma EqualsClosed(separator: char)
    requires IsSeparator(separator) && separator != '='
    ensures Closed("=", separator)
  {
  }

  lemma TagClosed(t: Tag, separator: char)
    requires Plain(t.key) && IsSeparator(separator) && separator != '='
    ensures Closed(TagText(t), separator)
  {
    PlainClosed(t.key, separator);
    EqualsClosed(separator);
    EscapedClosed(t.text, separator);
    ClosedTogether(t.key, "=", separator);
    ClosedTogether(t.key + "=", Escaped(t.text, true), separator);
  }

  lemma FieldClosed(f: Field, separator: char)
    requires Plain(f.key) && IsSeparator(separator) && separator != '='
    ensures Closed(FieldText(f), separator)
  {
    PlainClosed(f.key, separator);
    EqualsClosed(separator);
    ValueClosed(f.value, separator);
    ClosedTogether(f.key, "=", separator);
    ClosedTogether(f.key + "=", ValueText(f.value), separator);
  }

  // ----- reading back

  lemma ReadsInteger(i: int)
    ensures ReadInteger(Integer(i)) == i
  {
    IntegerIs(i);
  }

  lemma ReadsValue(v: Value)
    ensures ReadValue(ValueText(v)) == Some(v)
  {
    var text := ValueText(v);
    match v
    case Bool(_) =>
    case Signed(i) =>
      IntegerPlain(i);
      ReadsInteger(i);
      assert text[..|text| - 1] == Integer(i) && text[|text| - 1] == 'i';
    case Unsigned(n) =>
      DecimalPlain(n);
      DecimalIsNumeral(n);
      assert text[..|text| - 1] == Decimal(n) && text[|text| - 1] == 'u';
    case Text(s) =>
      UnescapeUndoesEscape(s, false);
      assert text[1..|text| - 1] == Escaped(s, false);
  }

  lemma SplitsAtEquals(key: string, value: string)
    requires Closed(key, '=') && Closed(value, '=')
    ensures Split(key + "=" + value, '=') == [key, value]
  {
    SplitOne(key, value, '=');
    SplitOne(value, "", '=');
  }

  lemma ReadsTag(t: Tag)
    requires Plain(t.key)
    ensures ReadTag(TagText(t)) == Some(t)
  {
    PlainClosed(t.key, '=');
    EscapedClosed(t.text, '=');
    SplitsAtEquals(t.key, Escaped(t.text, true));
    UnescapeUndoesEscape(t.text, true);
  }

  lemma ReadsField(f: Field)
    requires Plain(f.key)
    ensures ReadField(FieldText(f)) == Some(f)
  {
    PlainClosed(f.key, '=');
    ValueClosed(f.value, '=');
    SplitsAtEquals(f.key, ValueText(f.value));
    ReadsValue(f.value);
  }

  lemma {:induction false} ReadsTags(tags: seq<Tag>)
    requires forall i | 0 <= i < |tags| :: Plain(tags[i].key)
    ensures ReadTags(TagTexts(tags)) == Some(tags)
  {
    if tags != [] {
      var last := |tags| - 1;
      ReadsTags(tags[..last]);
      ReadsTag(tags[last]);
      assert TagTexts(tags)[..last] == TagTexts(tags[..last]);
      assert tags == tags[..last] + [tags[last]];
    }
  }

  lemma {:induction false} ReadsFields(fields: seq<Field>)
    requires forall i | 0 <= i < |fields| :: Plain(fields[i].key)
    ensures ReadFields(FieldTexts(fields)) == Some(fields)
  {
    if fields != [] {
      var last := |fields| - 1;
      ReadsFields(fields[..last]);
      ReadsField(fields[last]);
      assert FieldTexts(fields)[..last] == FieldTexts(fields[..last]);
      assert fields == fields[..last] + [fields[last]];
    }
  }

  /** Plain names and keys, and at least one tag and one value. */
  predicate EntryOk(e: Entry) {
    && Plain(e.name) && e.tags != [] && e.fields != []
    && (forall i | 0 <= i < |e.tags| :: Plain(e.tags[i].key))
    && (forall i | 0 <= i < |e.fields| :: Plain(e.fields[i].key))
  }

  predicate EntriesOk(entries: seq<Entry>) {
    forall i | 0 <= i < |entries| :: EntryOk(entries[i])
  }

  lemma TagsClosed(tags: seq<Tag>, separator: char)
    requires (forall i | 0 <= i < |tags| :: Plain(tags[i].key)) && IsSeparator(separator) && separator != '='
    ensures AllClosed(TagTexts(tags), separator)
  {
    forall i | 0 <= i < |tags| ensures Closed(TagText(tags[i]), separator) { TagClosed(tags[i], separator); }
  }

  lemma FieldsClosed(fields: seq<Field>, separator: char)
    requires (forall i | 0 <= i < |fields| :: Plain(fields[i].key)) && IsSeparator(separator) && separator != '='
    ensures AllClosed(FieldTexts(fields), separator)
  {
    forall i | 0 <= i < |fields| ensures Closed(FieldText(fields[i]), separator) { FieldClosed(fields[i], separator); }
  }

  /** The name and the tags are one joined list. */
  lemma HeadIsJoined(name: string, tags: seq<Tag>)
    requires tags != []
    ensures HeadText(name, tags) == Joined([name] + TagTexts(tags), ',')
  {
  }

  lemma HeadClosed(e: Entry, separator: char)
    requires EntryOk(e) && (separator == ' ' || separator == '\n')
    ensures Closed(HeadText(e.name, e.tags), separator)
  {
    PlainClosed(e.name, separator);
    TagsClosed(e.tags, separator);
    HeadIsJoined(e.name, e.tags);
    JoinClosed([e.name] + TagTexts(e.tags), ',', separator);
  }

  lemma HeadSplits(e: Entry)
    requires EntryOk(e)
    ensures Split(HeadText(e.name, e.tags), ',') == [e.name] + TagTexts(e.tags)
  {
    PlainClosed(e.name, ',');
    TagsClosed(e.tags, ',');
    HeadIsJoined(e.name, e.tags);
    SplitUndoesJoin([e.name] + TagTexts(e.tags), ',');
  }

  lemma PartsClosed(e: Entry, separator: char)
    requires EntryOk(e) && (separator == ' ' || separator == '\n')
    ensures AllClosed([HeadText(e.name, e.tags), Joined(FieldTexts(e.fields), ','), Integer(e.timestamp)], separator)
  {
    HeadClosed(e, separator);
    FieldsClosed(e.fields, separator);
    JoinClosed(FieldTexts(e.fields), ',', separator);
    IntegerPlain(e.timestamp);
    PlainClosed(Integer(e.timestamp), separator);
  }

  lemma ReadsEntry(e: Entry)
    requires EntryOk(e)
    ensures ReadEntry(EntryText(e)) == Some(e)
  {
    hide Joined, Split, ReadTags, ReadFields, TagTexts, FieldTexts, Integer, ReadInteger, HeadText, Closed;
    PartsClosed(e, ' ');
    SplitUndoesJoin([HeadText(e.name, e.tags), Joined(FieldTexts(e.fields), ','), Integer(e.timestamp)], ' ');
    HeadSplits(e);
    assert ([e.name] + TagTexts(e.tags))[1..] == TagTexts(e.tags);
    ReadsTags(e.tags);
    FieldsClosed(e.fields, ',');
    SplitUndoesJoin(FieldTexts(e.fields), ',');
    ReadsFields(e.fields);
    ReadsInteger(e.timestamp);
  }

  lemma EntryClosed(e: Entry)
    requires EntryOk(e)
    ensures Closed(EntryText(e), '\n')
  {
    PartsClosed(e, '\n');
    JoinClosed([HeadText(e.name, e.tags), Joined(FieldTexts(e.fields), ','), Integer(e.timestamp)], ' ', '\n');
  }

  function Lines(entries: seq<Entry>): (r: seq<string>)
    ensures |r| == |entries| && forall i | 0 <= i < |r| :: r[i] == EntryText(entries[i])
  {
    seq(|entries|, i requires 0 <= i < |entries| => EntryText(entries[i]))
  }

  lemma {:induction false} EntriesAreJoined(entries: seq<Entry>)
    ensures EntriesText(entries) == Joined(Lines(entries) + [""], '\n')
  {
    hide EntryText;
    if entries != [] {
      var last := |entries| - 1;
      EntriesAreJoined(entries[..last]);
      var line := EntryText(entries[last]);
      assert Lines(entries) + [""] == Lines(entries[..last]) + [line] + [""];
      LastLine(Lines(entries[..last]), line);
    }
  }

  lemma {:induction false} LastLine(lines: seq<string>, line: string)
    ensures Joined(lines + [line] + [""], '\n') == Joined(lines + [""], '\n') + line + "\n"
  {
    if lines == [] {
      assert [line] + [""] == [line, ""] && [line, ""][1..] == [""];
      assert [] + [line] + [""] == [line, ""] && [] + [""] == [""];
      assert lines + [line] + [""] == [line, ""] && lines + [""] == [""];
    } else {
      LastLine(lines[1..], line);
      assert (lines + [line] + [""])[1..] == lines[1..] + [line] + [""];
      assert (lines + [""])[1..] == lines[1..] + [""];
    }
  }

  lemma {:induction false} ReadsLines(entries: seq<Entry>)
    requires EntriesOk(entries)
    ensures ReadLines(Lines(entries)) == Some(entries)
  {
    hide EntryText, ReadEntry, EntryOk;
    if entries != [] {
      var last := |entries| - 1;
      ReadsLines(entries[..last]);
      ReadsEntry(entries[last]);
      assert Lines(entries)[..last] == Lines(entries[..last]);
      assert entries == entries[..last] + [entries[last]];
    }
  }

  /** The round trip: whatever the tags and values contain, commas, spaces, quotes, backslashes and
      newlines included, the reader gets back the very records that were written. */
  lemma ReadBack(entries: seq<Entry>)
    requires EntriesOk(entries)
    ensures ReadAll(EntriesText(entries)) == Some(entries)
  {
    hide Joined, ReadLines, EntryOk, Closed, EntriesText, EntryText;
    EntriesAreJoined(entries);
    forall i | 0 <= i < |entries| ensures Closed(Lines(entries)[i], '\n') { EntryClosed(entries[i]); }
    assert Closed("", '\n') by { NothingClosed('\n'); }
    var lines := Lines(entries) + [""];
    SplitUndoesJoin(lines, '\n');
    assert lines[..|lines| - 1] == Lines(entries);
    ReadsLines(entries);
  }

  lemma NothingClosed(separator: char)
    ensures Closed("", separator)
  {
  }

  /** Writing records with the builder. */
  method Write(entries: seq<Entry>) returns (text: string)
    requires EntriesOk(entries)
    ensures text == EntriesText(entries) && ReadAll(text) == Some(entries)
  {
    hide ReadAll, EntryOk, TagText, FieldText, Joined, EntryText;
    var b := new Builder();
    var n := 0;
    while n < |entries|
      invariant n <= |entries| && b.value == EntriesText(entries[..n])
    {
      WriteOne(b, entries[n]);
      assert entries[..n + 1][..n] == entries[..n];
      n := n + 1;
    }
    assert entries[..n] == entries;
    ReadBack(entries);
    text := b.value;
  }

  method WriteOne(b: Builder, e: Entry)
    requires EntryOk(e)
    modifies b
    ensures b.value == old(b.value) + EntryText(e) + "\n"
  {
    hide TagText, FieldText, Joined, Plain, Integer;
    b.StartRecord(e.name, 0);
    var i := 0;
    NoneJoined(e);
    while i < |e.tags|
      invariant i <= |e.tags| && b.value == old(b.value) && b.record == Some(Record(e.name, Joined(TagTexts(e.tags[..i]), ','), "", 0))
      invariant i > 0 ==> Joined(TagTexts(e.tags[..i]), ',') != ""
    {
      b.AddTag(e.tags[i].key, e.tags[i].text);
      TagsGrow(e.tags, i);
      i := i + 1;
    }
    assert e.tags[..i] == e.tags;
    i := 0;
    NoneJoined(e);
    while i < |e.fields|
      invariant i <= |e.fields| && b.value == old(b.value)
      invariant b.record == Some(Record(e.name, Joined(TagTexts(e.tags), ','), Joined(FieldTexts(e.fields[..i]), ','), 0))
      invariant i > 0 ==> Joined(FieldTexts(e.fields[..i]), ',') != ""
    {
      b.AddValue(e.fields[i].key, e.fields[i].value);
      FieldsGrow(e.fields, i);
      i := i + 1;
    }
    assert e.fields[..i] == e.fields;
    b.Timestamp(e.timestamp);
    b.EndRecord();
  }

  lemma NoneJoined(e: Entry)
    ensures Joined(TagTexts(e.tags[..0]), ',') == "" && Joined(FieldTexts(e.fields[..0]), ',') == ""
  {
  }

  lemma TagsGrow(tags: seq<Tag>, i: nat)
    requires i < |tags|
    ensures var before, after := Joined(TagTexts(tags[..i]), ','), Joined(TagTexts(tags[..i + 1]), ',');
            && after == (if i == 0 then "" else before + ",") + TagText(tags[i]) && after != ""
            && (i == 0 ==> before == "")
  {
    assert TagTexts(tags[..i + 1]) == TagTexts(tags[..i]) + [TagText(tags[i])];
    if i > 0 { JoinedMore(TagTexts(tags[..i]), TagText(tags[i]), ','); }
  }

  lemma FieldsGrow(fields: seq<Field>, i: nat)
    requires i < |fields|
    ensures var before, after := Joined(FieldTexts(fields[..i]), ','), Joined(FieldTexts(fields[..i + 1]), ',');
            && after == (if i == 0 then "" else before + ",") + FieldText(fields[i]) && after != ""
            && (i == 0 ==> before == "")
  {
    assert FieldTexts(fields[..i + 1]) == FieldTexts(fields[..i]) + [FieldText(fields[i])];
    if i > 0 { JoinedMore(FieldTexts(fields[..i]), FieldText(fields[i]), ','); }
  }
}
