/** The word-wrapper of the command line's help texts (TextFlow::Column::iterator): a text is cut into
lines of a given width, with an indentation, and with a hyphen where a word must be broken. */
module WordWrap {

  import opened Collections

  /** A column has one text. `initialIndent`, if given, is the first line's. */
  datatype Column = Column(text: string, width: nat, indent: nat, initialIndent: Option<nat>)

  predicate IsWhitespace(c: char) {
    c in " \t\n\r"
  }

  predicate IsBreakableBefore(c: char) {
    c in "[({<|"
  }

  predicate IsBreakableAfter(c: char) {
    c in "])}>.,:;*+-=&/\\"
  }

  // ----- where lines end

  /** A line may end before position `at`. */
  predicate IsBoundary(text: string, at: nat)
    requires 0 < at <= |text|
  {
    || at == |text|
    || (IsWhitespace(text[at]) && !IsWhitespace(text[at - 1]))
    || IsBreakableBefore(text[at])
    || IsBreakableAfter(text[at - 1])
  }

  /** The end of the paragraph that position `pos` is in. */
  function ParagraphEnd(text: string, pos: nat): (end: nat)
    requires pos <= |text|
    ensures pos <= end <= |text| && (forall i | pos <= i < end :: text[i] != '\n') && (end < |text| ==> text[end] == '\n')
    decreases |text| - pos
  {
    if pos == |text| || text[pos] == '\n' then pos else ParagraphEnd(text, pos + 1)
  }

  predicate Blank(text: string, lo: nat, hi: nat)
    requires lo <= hi <= |text|
  {
    forall i | lo <= i < hi :: IsWhitespace(text[i])
  }

  /** What the line of at most `width` characters that starts at `pos` should be: the rest of the
      paragraph if that is shorter; else up to the last place for a break, without the whitespace
      before it; and if that leaves nothing, all but one character, and a hyphen. */
  ghost predicate WellCut(text: string, pos: nat, width: nat, len: nat, suffix: bool) {
    && pos <= |text| && pos + len <= ParagraphEnd(text, pos)
    && var end := ParagraphEnd(text, pos);
    if end < pos + width then !suffix && len == end - pos
    else if !suffix then
      && 0 < len <= width && !IsWhitespace(text[pos + len - 1])
      && exists b :: BreaksAt(text, pos, width, len, b)
    else
      && len + 1 == width
      && forall at | pos < at <= pos + width && IsBoundary(text, at) :: Blank(text, pos, at)
  }

  /** The last break within the width is at b, and only whitespace comes between. */
  predicate BreaksAt(text: string, pos: nat, width: nat, len: nat, b: nat) {
    && pos + len <= b <= pos + width <= |text| && pos < b && IsBoundary(text, b) && Blank(text, pos + len, b)
    && forall at | b < at <= pos + width :: !IsBoundary(text, at)
  }

  /** The last place for a break at most l characters after `pos`; 0 if there is none. */
  function LastBreak(text: string, pos: nat, l: nat): (r: nat)
    requires pos + l <= |text|
    ensures r <= l && (forall at | pos + r < at <= pos + l :: !IsBoundary(text, at)) && (r > 0 ==> IsBoundary(text, pos + r))
  {
    if l == 0 || IsBoundary(text, pos + l) then l else LastBreak(text, pos, l - 1)
  }

  /** Without the whitespace at the end. */
  function Trim(text: string, pos: nat, l: nat): (r: nat)
    requires pos + l <= |text|
    ensures r <= l && Blank(text, pos + r, pos + l) && (r > 0 ==> !IsWhitespace(text[pos + r - 1]))
  {
    if l == 0 || !IsWhitespace(text[pos + l - 1]) then l else Trim(text, pos, l - 1)
  }

  /** The line that starts at `pos`. */
  function CutAt(text: string, pos: nat, width: nat): Cut
    requires pos <= |text| && width > 0
  {
    var end := ParagraphEnd(text, pos);
    if end < pos + width then Cut(pos, end - pos, false)
    else
      var l := Trim(text, pos, LastBreak(text, pos, width));
      if l > 0 then Cut(pos, l, false) else Cut(pos, width - 1, true)
  }

  /** ... is cut as it should be. */
  lemma CutWell(text: string, pos: nat, width: nat)
    requires pos <= |text| && width > 0
    ensures var cut := CutAt(text, pos, width); WellCut(text, pos, width, cut.len, cut.suffix) && cut.start == pos
  {
    if ParagraphEnd(text, pos) >= pos + width {
      var b := LastBreak(text, pos, width);
      var l := Trim(text, pos, b);
      if l > 0 { assert BreaksAt(text, pos, width, l, pos + b); }
      forall at | l == 0 && pos < at <= pos + width && IsBoundary(text, at) ensures Blank(text, pos, at) { assert at <= pos + b; }
    }
  }

  predicate NonBlank(c: char) {
    !IsWhitespace(c)
  }

  /** The characters of a text that are not whitespace. */
  function Ink(text: string): string {
    if text == "" then "" else Ink(text[..|text| - 1]) + if NonBlank(text[|text| - 1]) then [text[|text| - 1]] else ""
  }

  lemma {:induction false} InkTogether(a: string, b: string)
    ensures Ink(a + b) == Ink(a) + Ink(b)
  {
    if b == "" {
      assert a + b == a;
    } else {
      InkTogether(a, b[..|b| - 1]);
      assert (a + b)[..|a + b| - 1] == a + b[..|b| - 1];
    }
  }

  lemma {:induction false} BlankHasNoInk(text: string)
    requires Blank(text, 0, |text|)
    ensures Ink(text) == ""
  {
    if text != "" { BlankHasNoInk(text[..|text| - 1]); }
  }

  function Spaces(n: nat): (s: string)
    ensures |s| == n && forall i | 0 <= i < n :: s[i] == ' '
  {
    seq(n, _ => ' ')
  }

  /** One line's slice of the text, and whether a hyphen is put after it. */
  datatype Cut = Cut(start: nat, len: nat, suffix: bool)

  function Slice(text: string, cut: Cut): string {
    if cut.start + cut.len <= |text| then text[cut.start..cut.start + cut.len] else ""
  }

  /** All the slices, one after the other. */
  function Taken(text: string, cuts: seq<Cut>): string {
    if cuts == [] then "" else Taken(text, cuts[..|cuts| - 1]) + Slice(text, cuts[|cuts| - 1])
  }

  function SkipWhitespace(text: string, pos: nat): (p: nat)
    requires pos <= |text|
    ensures pos <= p <= |text| && Blank(text, pos, p) && (p < |text| ==> !IsWhitespace(text[p]))
    decreases |text| - pos
  {
    if pos < |text| && IsWhitespace(text[pos]) then SkipWhitespace(text, pos + 1) else pos
  }

  /** Where the next line starts: after one newline, or else after all whitespace. */
  function NextPos(text: string, pos: nat, len: nat): (p: nat)
    requires pos + len <= |text|
    ensures pos + len <= p <= |text| && Blank(text, pos + len, p)
  {
    if pos + len < |text| && text[pos + len] == '\n' then pos + len + 1 else SkipWhitespace(text, pos + len)
  }

  lemma OneMoreCut(text: string, cuts: seq<Cut>, cut: Cut)
    ensures Ink(Taken(text, cuts + [cut])) == Ink(Taken(text, cuts)) + Ink(Slice(text, cut))
  {
    assert (cuts + [cut])[..|cuts|] == cuts;
    InkTogether(Taken(text, cuts), Slice(text, cut));
  }

  lemma InkOfLine(text: string, pos: nat, len: nat)
    requires pos + len <= |text|
    ensures Ink(text[..NextPos(text, pos, len)]) == Ink(text[..pos]) + Ink(text[pos..pos + len])
  {
    var next := NextPos(text, pos, len);
    var gap := text[pos + len..next];
    assert text[..pos + len] == text[..pos] + text[pos..pos + len];
    assert text[..next] == text[..pos + len] + gap;
    InkTogether(text[..pos], text[pos..pos + len]);
    InkTogether(text[..pos + len], gap);
    BlankHasNoInk(gap);
  }

  // ----- columns

  /** What the iterator's constructor asserts of the widths. */
  predicate WidthsOk(column: Column) {
    column.indent < column.width && (column.initialIndent.Some? ==> column.initialIndent.value < column.width)
  }

  /** The indentation of the line that starts at `pos`. */
  function IndentAt(column: Column, pos: nat): nat {
    if pos == 0 && column.initialIndent.Some? then column.initialIndent.value else column.indent
  }

  /** The room there is in the line that starts at `pos`. */
  function WidthAt(column: Column, pos: nat): (w: nat)
    requires WidthsOk(column)
    ensures w > 0
  {
    column.width - IndentAt(column, pos)
  }

  function ColumnCut(column: Column, pos: nat): Cut
    requires WidthsOk(column) && pos <= |column.text|
  {
    CutAt(column.text, pos, WidthAt(column, pos))
  }

  /** A line is its indentation and a slice of the text, cut as it should be, with a hyphen where a
      word is broken. */
  ghost predicate Dresses(column: Column, line: string, cut: Cut) {
    && WidthsOk(column) && WellCut(column.text, cut.start, WidthAt(column, cut.start), cut.len, cut.suffix)
    && line == Spaces(IndentAt(column, cut.start)) + Slice(column.text, cut) + if cut.suffix then "-" else ""
  }

  /** Where an iterator is. */
  datatype Place = At(pos: nat) | End

  predicate Within(column: Column, place: Place) {
    place.At? ==> place.pos < |column.text|
  }

  /** begin() */
  function Begin(column: Column): (place: Place)
    requires WidthsOk(column)
    ensures Within(column, place)
  {
    if ColumnCut(column, 0).len == 0 then End else CutFits(column, 0); At(0)
  }

  lemma CutFits(column: Column, pos: nat)
    requires WidthsOk(column) && pos <= |column.text|
    ensures pos + ColumnCut(column, pos).len <= |column.text|
  {
    CutWell(column.text, pos, WidthAt(column, pos));
  }

  function NextLine(column: Column, pos: nat): (next: nat)
    requires WidthsOk(column) && pos <= |column.text|
    ensures pos <= next <= |column.text|
  {
    CutFits(column, pos);
    NextPos(column.text, pos, ColumnCut(column, pos).len)
  }

  /** operator ++ */
  function Next(column: Column, place: Place): (next: Place)
    requires WidthsOk(column) && Within(column, place)
    ensures Within(column, next)
  {
    if place.End? || NextLine(column, place.pos) == |column.text| then End else At(NextLine(column, place.pos))
  }

  /** Where the iterator is after n lines. */
  function PlaceAfter(column: Column, n: nat): (place: Place)
    requires WidthsOk(column)
    ensures Within(column, place)
  {
    if n == 0 then Begin(column) else Next(column, PlaceAfter(column, n - 1))
  }

  /** The first n lines. */
  function CutsAfter(column: Column, n: nat): seq<Cut>
    requires WidthsOk(column)
  {
    if n == 0 then []
    else
      CutsAfter(column, n - 1) +
      var place := PlaceAfter(column, n - 1);
      if place.End? then [] else [ColumnCut(column, place.pos)]
  }

  // ----- the iterator

  class Iterator {
    const column: Column
    var stringIndex: nat
    var pos: nat
    var len: nat
    var end: nat
    var suffix: bool

    function Indent(): nat
      reads this
    {
      if pos == 0 && stringIndex == 0 && column.initialIndent.Some? then column.initialIndent.value else column.indent
    }

    predicate AtEnd()
      reads this
    {
      stringIndex == 1 && pos == 0
    }

    function Where(): Place
      reads this
    {
      if AtEnd() then End else At(pos)
    }

    ghost predicate Valid()
      reads this
    {
      && WidthsOk(column)
      && (AtEnd() || (stringIndex == 0 && pos < |column.text| && end == ParagraphEnd(column.text, pos)
                      && Cut(pos, len, suffix) == ColumnCut(column, pos)))
    }

    /** The end of the paragraph. */
    method FindEnd() returns (e: nat)
      requires pos <= |column.text|
      ensures e == ParagraphEnd(column.text, pos)
    {
      var line := column.text;
      e := pos;
      while e < |line| && line[e] != '\n'
        invariant pos <= e <= |line| && ParagraphEnd(line, e) == ParagraphEnd(line, pos)
      {
        e := e + 1;
      }
    }

    /** The end of a line that does not take in the rest of its paragraph; 0 if there is no break. */
    method FindBreak(width: nat) returns (l: nat)
      requires pos + width <= |column.text|
      ensures l == Trim(column.text, pos, LastBreak(column.text, pos, width))
    {
      var line := column.text;
      l := width;
      while l > 0 && !IsBoundary(line, pos + l)
        invariant l <= width && LastBreak(line, pos, l) == LastBreak(line, pos, width)
      {
        l := l - 1;
      }
      while l > 0 && IsWhitespace(line[pos + l - 1])
        invariant l <= width && Trim(line, pos, l) == Trim(line, pos, LastBreak(line, pos, width))
      {
        l := l - 1;
      }
    }

    /** calcLength */
    method CalcLength()
      requires WidthsOk(column) && stringIndex == 0 && pos <= |column.text|
      modifies this`len, this`end, this`suffix
      ensures end == ParagraphEnd(column.text, pos) && Cut(pos, len, suffix) == ColumnCut(column, pos)
      ensures WellCut(column.text, pos, column.width - Indent(), len, suffix)
    {
      hide IsBoundary, IsWhitespace, WellCut;
      CutWell(column.text, pos, WidthAt(column, pos));
      suffix := false;
      var width := column.width - Indent();
      end := FindEnd();
      if end < pos + width {
        len := end - pos;
      } else {
        var l := FindBreak(width);
        if l > 0 {
          len := l;
        } else {
          suffix := true;
          len := width - 1;
        }
      }
    }

    constructor (column: Column)
      requires WidthsOk(column)
      ensures this.column == column && Valid() && Where() == Begin(column)
      ensures !AtEnd() ==> len > 0
    {
      this.column := column;
      stringIndex, pos, len, end, suffix := 0, 0, 0, 0, false;
      new;
      CalcLength();
      CutFits(column, 0);
      if len == 0 { stringIndex := stringIndex + 1; }
    }

    /** operator * */
    method Current() returns (line: string)
      requires Valid() && !AtEnd()
      ensures Dresses(column, line, ColumnCut(column, pos))
      ensures Indent() <= |line| <= column.width && forall i | 0 <= i < Indent() :: line[i] == ' '
    {
      CutWell(column.text, pos, WidthAt(column, pos));
      var plain := column.text[pos..pos + len];
      line := Spaces(Indent()) + if suffix then plain + "-" else plain;
    }

    /** operator ++ */
    method Advance()
      requires Valid() && !AtEnd()
      modifies this
      ensures Valid() && Where() == Next(column, old(Where()))
    {
      hide CutAt, IsWhitespace, Blank;
      CutFits(column, pos);
      var line := column.text;
      pos := pos + len;
      if pos < |line| && line[pos] == '\n' {
        pos := pos + 1;
      } else {
        while pos < |line| && IsWhitespace(line[pos])
          invariant pos <= |line| && SkipWhitespace(line, pos) == SkipWhitespace(line, old(pos) + old(len))
          invariant stringIndex == 0
        {
          pos := pos + 1;
        }
      }
      if pos == |line| {
        pos := 0;
        stringIndex := stringIndex + 1;
      }
      if stringIndex < 1 { CalcLength(); }
    }
  }

  // ----- whole texts

  /** The constructor takes the text for an empty one: it is empty, or starts with a newline, or its
      first character does not fit into a first line of width one. */
  predicate Skips(column: Column)
    requires WidthsOk(column)
  {
    || column.text == "" || column.text[0] == '\n'
    || (WidthAt(column, 0) == 1 && (IsWhitespace(column.text[0]) || !IsBoundary(column.text, 1)))
  }

  /** Some character after the first line cannot be the last of a line, and there is room for one only. */
  predicate Sticks(column: Column)
    requires WidthsOk(column)
  {
    && !Skips(column) && column.width - column.indent == 1
    && exists p :: NextLine(column, 0) <= p < |column.text| && Unbreakable(column.text, p)
  }

  predicate Unbreakable(text: string, p: nat)
    requires p < |text|
  {
    !IsWhitespace(text[p]) && !IsBoundary(text, p + 1)
  }

  lemma SkipsExactly(column: Column)
    requires WidthsOk(column)
    ensures Begin(column).End? <==> Skips(column)
  {
    var text, w := column.text, WidthAt(column, 0);
    if text != "" && text[0] != '\n' && ParagraphEnd(text, 0) >= w && w == 1 {
      assert LastBreak(text, 0, 1) == if IsBoundary(text, 1) then 1 else 0;
    }
  }

  /** A line stands still exactly if it has room for one character and that cannot be its last. */
  lemma StuckExactly(text: string, pos: nat, width: nat, len: nat, suffix: bool)
    requires pos < |text| && width > 0 && WellCut(text, pos, width, len, suffix)
    ensures pos + len <= |text|
    ensures NextPos(text, pos, len) == pos <==> width == 1 && Unbreakable(text, pos)
  {
  }

  /** Where an iterator that goes on can be: at the start, or past the first line. */
  predicate Underway(column: Column, pos: nat)
    requires WidthsOk(column)
  {
    !Skips(column) && pos < |column.text| && (pos == 0 || NextLine(column, 0) <= pos)
  }

  lemma Progresses(column: Column, pos: nat)
    requires WidthsOk(column) && Underway(column, pos)
    ensures NextLine(column, pos) == pos <==> pos > 0 && column.width - column.indent == 1 && Unbreakable(column.text, pos)
    ensures NextLine(column, 0) > 0
  {
    hide IsBoundary;
    var text, cut := column.text, ColumnCut(column, pos);
    CutWell(text, pos, WidthAt(column, pos));
    StuckExactly(text, pos, WidthAt(column, pos), cut.len, cut.suffix);
    SkipsExactly(column);
  }

  /** The lines so far have all of the text's ink up to the next line. */
  lemma {:induction false} InkSoFar(column: Column, n: nat)
    requires WidthsOk(column)
    ensures var place := PlaceAfter(column, n);
            if Skips(column) then place.End? && CutsAfter(column, n) == []
            else
              && (place.At? ==> Underway(column, place.pos))
              && Ink(Taken(column.text, CutsAfter(column, n))) == Ink(column.text[..if place.At? then place.pos else |column.text|])
  {
    hide Skips, ColumnCut, Ink, Taken, NextPos;
    SkipsExactly(column);
    var text := column.text;
    if n == 0 {
      NothingYet(text);
    } else {
      InkSoFar(column, n - 1);
      var before := PlaceAfter(column, n - 1);
      if before.At? {
        var cut := ColumnCut(column, before.pos);
        CutFits(column, before.pos);
        CutStarts(column, before.pos);
        InkOfCut(text, cut);
        OneMoreCut(text, CutsAfter(column, n - 1), cut);
        LinesFollow(column, before.pos);
        assert CutsAfter(column, n) == CutsAfter(column, n - 1) + [cut];
      } else {
        assert CutsAfter(column, n) == CutsAfter(column, n - 1);
      }
    }
  }

  lemma CutStarts(column: Column, pos: nat)
    requires WidthsOk(column) && pos <= |column.text|
    ensures ColumnCut(column, pos).start == pos
  {
  }

  lemma LinesFollow(column: Column, pos: nat)
    requires WidthsOk(column) && Underway(column, pos)
    ensures NextLine(column, 0) <= NextLine(column, pos)
  {
  }

  /** Where nothing sticks, iteration ends. */
  lemma {:induction false} Ends(column: Column, n: nat) returns (m: nat)
    requires WidthsOk(column) && !Sticks(column)
    ensures PlaceAfter(column, m).End?
    decreases var place := PlaceAfter(column, n); if place.At? then |column.text| - place.pos else 0
  {
    hide Skips, NextLine;
    m := n;
    InkSoFar(column, n);
    SkipsExactly(column);
    if PlaceAfter(column, n).At? {
      Progresses(column, PlaceAfter(column, n).pos);
      m := Ends(column, n + 1);
    }
  }

  /** Nothing but whitespace is skipped on the way to a character, one by one. */
  lemma Reaches(column: Column, pos: nat, p: nat)
    requires WidthsOk(column) && WidthAt(column, pos) == 1 && pos < p < |column.text| && !IsWhitespace(column.text[p])
    ensures NextLine(column, pos) <= p
  {
    CutWell(column.text, pos, 1);
    assert ColumnCut(column, pos).len <= 1;
  }

  /** Where something sticks, it never does. */
  lemma {:induction false} NeverEnds(column: Column, n: nat, p: nat)
    requires WidthsOk(column) && !Skips(column) && column.width - column.indent == 1
    requires NextLine(column, 0) <= p < |column.text| && Unbreakable(column.text, p)
    ensures var place := PlaceAfter(column, n); place.At? && place.pos <= p && (n > 0 ==> NextLine(column, 0) <= place.pos)
  {
    hide Skips, NextLine, Unbreakable;
    SkipsExactly(column);
    if n > 0 {
      NeverEnds(column, n - 1, p);
      StaysBefore(column, PlaceAfter(column, n - 1).pos, p);
    }
  }

  lemma StaysBefore(column: Column, pos: nat, p: nat)
    requires WidthsOk(column) && !Skips(column) && column.width - column.indent == 1
    requires NextLine(column, 0) <= p < |column.text| && Unbreakable(column.text, p)
    requires pos == 0 || NextLine(column, 0) <= pos <= p
    ensures NextLine(column, 0) <= NextLine(column, pos) <= p
  {
    hide NextLine, Skips, IsBoundary;
    Progresses(column, p);
    if 0 < pos < p { Reaches(column, pos, p); }
    if pos > 0 { LinesFollow(column, pos); }
  }

  /** The iteration ends ... */
  ghost predicate Stops(column: Column)
    requires WidthsOk(column)
  {
    exists n :: PlaceAfter(column, n).End?
  }

  /** ... and its lines have, in order, all of the text but whitespace. */
  ghost predicate HasAll(column: Column)
    requires WidthsOk(column)
  {
    exists n :: PlaceAfter(column, n).End? && Ink(Taken(column.text, CutsAfter(column, n))) == Ink(column.text)
  }

  lemma {:induction false} BlankExactly(text: string)
    ensures Ink(text) == "" <==> Blank(text, 0, |text|)
  {
    if text != "" {
      BlankExactly(text[..|text| - 1]);
      assert Blank(text, 0, |text|) <==> Blank(text[..|text| - 1], 0, |text| - 1) && IsWhitespace(text[|text| - 1]);
    }
  }

  /** For all widths that the assertions allow: iteration ends exactly if nothing sticks, and has the
      whole text exactly if moreover the text is not skipped, or is blank. */
  lemma CompleteExactly(column: Column)
    requires WidthsOk(column)
    ensures Stops(column) <==> !Sticks(column)
    ensures HasAll(column) <==> !Sticks(column) && (Skips(column) ==> Blank(column.text, 0, |column.text|))
  {
    hide Skips, Blank, NextLine, PlaceAfter, CutsAfter, Ink, Taken, Unbreakable;
    var text := column.text;
    BlankExactly(text);
    if Sticks(column) {
      var p :| NextLine(column, 0) <= p < |text| && Unbreakable(text, p);
      forall n: nat ensures PlaceAfter(column, n).At? { NeverEnds(column, n, p); }
    } else {
      var m := Ends(column, 0);
      NothingYet(text);
      forall n: nat ensures PlaceAfter(column, n).End? ==> Ink(Taken(text, CutsAfter(column, n))) == if Skips(column) then "" else Ink(text) {
        InkSoFar(column, n);
        assert text[..|text|] == text;
        NothingTaken(text);
      }
    }
  }

  lemma NothingTaken(text: string)
    ensures Ink(Taken(text, [])) == ""
  {
  }

  lemma InkOfCut(text: string, cut: Cut)
    requires cut.start + cut.len <= |text|
    ensures Ink(text[..NextPos(text, cut.start, cut.len)]) == Ink(text[..cut.start]) + Ink(Slice(text, cut))
  {
    InkOfLine(text, cut.start, cut.len);
  }

  lemma NothingYet(text: string)
    ensures Ink(Taken(text, [])) == Ink(text[..0])
  {
  }

  /** Iterating over a column where nothing sticks, in particular if every line has room for two
      characters: every line fits the width, and is cut as it should be; and between them the lines
      have, in order, all of the text but whitespace, unless it is skipped. */
  method Wrap(column: Column) returns (lines: seq<string>, ghost cuts: seq<Cut>)
    requires WidthsOk(column) && !Sticks(column)
    ensures PlaceAfter(column, |lines|).End? && cuts == CutsAfter(column, |lines|)
    ensures forall i | 0 <= i < |lines| :: |lines[i]| <= column.width
    ensures |cuts| == |lines| && forall i | 0 <= i < |lines| :: Dresses(column, lines[i], cuts[i])
    ensures if Skips(column) then lines == [] else Ink(Taken(column.text, cuts)) == Ink(column.text)
  {
    hide WellCut, Ink, NextLine, Taken, Dresses, Skips, ColumnCut;
    var it := new Iterator(column);
    lines, cuts := [], [];
    SkipsExactly(column);
    while !it.AtEnd()
      invariant it.column == column && it.Valid() && fresh(it) && it.Where() == PlaceAfter(column, |lines|)
      invariant cuts == CutsAfter(column, |lines|) && |cuts| == |lines| && (Skips(column) ==> lines == [])
      invariant forall i | 0 <= i < |lines| :: |lines[i]| <= column.width && Dresses(column, lines[i], cuts[i])
      decreases if it.AtEnd() then 0 else |column.text| - it.pos
    {
      InkSoFar(column, |lines|);
      Progresses(column, it.pos);
      var line := it.Current();
      lines, cuts := lines + [line], cuts + [ColumnCut(column, it.pos)];
      it.Advance();
    }
    InkSoFar(column, |lines|);
    assert column.text[..|column.text|] == column.text;
  }

  // ----- inputs on which it goes wrong

  /** A width of one above the indentation, which the iterator's assertions allow, can make it go on
      for ever: at the second word of this text. */
  lemma NarrowColumnSticks()
    ensures var column := Column("a bb", 1, 0, None); WidthsOk(column) && Sticks(column) && !Stops(column)
  {
    hide Stops, NextLine, Ink, IsBoundary, IsWhitespace, Unbreakable;
    var column := Column("a bb", 1, 0, None);
    SecondWordUnbreakable();
    Reaches(column, 0, 2);
    CompleteExactly(column);
  }

  lemma SecondWordUnbreakable()
    ensures var text := "a bb";
            !IsWhitespace(text[0]) && text[0] != '\n' && IsBoundary(text, 1) && Unbreakable(text, 2) && !IsWhitespace(text[2])
  {
    var text := "a bb";
    assert text[0] == 'a' && text[1] == ' ' && text[2] == 'b' && text[3] == 'b';
  }

  /** Or it can make the iterator take a text for an empty one: this one has two letters, and no
      lines. */
  lemma NarrowColumnSkips()
    ensures var column := Column(" ab", 1, 0, None);
            WidthsOk(column) && Begin(column).End? && Stops(column) && !HasAll(column) && Ink(column.text) == "ab"
  {
    hide Stops, HasAll, NextLine, Ink, Begin;
    var column := Column(" ab", 1, 0, None);
    SkipsExactly(column);
    CompleteExactly(column);
    assert !IsWhitespace(column.text[1]);
    InkOfThree();
  }

  lemma InkOfThree()
    ensures Ink(" ab") == "ab"
  {
    var text := " ab";
    assert text[..2] == " a" && text[..1] == " ";
    assert Ink(" ") == "";
    assert Ink(" a") == "a";
  }
}
