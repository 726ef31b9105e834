/** The HTTP router's search (HttpRouter::routeParameters, HttpRouter::canRoute) and the splitter that
it rests on (util::split). Paths are kept in a sorted vector, and the scan for the first one that
matches starts at a binary-search position.

A character stands for one byte. The search is modelled for every request but those with a segment
"~" before the end, which is the pattern's own notation. It is meant for requests whose every
segment starts with a character below '{', without empty segments and without a trailing slash
(`RequestOk`); the last section says what becomes of the others. */
module Router {

  import opened Collections
  import opened Texts

  /** WildcardKey */
  const WILDCARD_KEY := "_wildcard_"

  // ----- splitting

  predicate IsDelimiter(c: char) {
    c == '/'
  }

  /** std::find_first_of */
  function NextDelimiter(s: string, first: nat): (second: nat)
    requires first <= |s|
    ensures first <= second <= |s| && (forall i | first <= i < second :: !IsDelimiter(s[i])) && (second < |s| ==> IsDelimiter(s[second]))
    decreases |s| - first
  {
    if first == |s| || IsDelimiter(s[first]) then first else NextDelimiter(s, first + 1)
  }

  /** The non-empty stretches between slashes, from position `first` on. */
  function SegmentsFrom(s: string, first: nat): seq<string>
    requires first <= |s|
    decreases |s| - first
  {
    var second := NextDelimiter(s, first);
    Piece(s, first, second) + if second < |s| then SegmentsFrom(s, second + 1) else []
  }

  function Segments(s: string): seq<string> {
    SegmentsFrom(s, 0)
  }

  function Piece(s: string, first: nat, second: nat): seq<string>
    requires first <= second <= |s|
  {
    if first < second then [s[first..second]] else []
  }

  lemma SplitStep(csv: string, first: nat, second: nat, output: seq<string>)
    requires first <= |csv| && second == NextDelimiter(csv, first)
    ensures output + SegmentsFrom(csv, first)
            == output + Piece(csv, first, second) + if second < |csv| then SegmentsFrom(csv, second + 1) else []
  {
    hide SegmentsFrom, Piece, NextDelimiter;
    Unfolded(csv, first, second);
    Together(output, Piece(csv, first, second), if second < |csv| then SegmentsFrom(csv, second + 1) else []);
  }

  lemma Together(a: seq<string>, b: seq<string>, c: seq<string>)
    ensures a + (b + c) == a + b + c
  {
  }

  lemma Unfolded(s: string, first: nat, second: nat)
    requires first <= |s| && second == NextDelimiter(s, first)
    ensures SegmentsFrom(s, first) == Piece(s, first, second) + if second < |s| then SegmentsFrom(s, second + 1) else []
  {
    hide Piece, NextDelimiter;
  }

  /** util::split with "/" for its delimiters. */
  method Split(csv: string) returns (output: seq<string>)
    ensures output == Segments(csv)
  {
    hide SegmentsFrom;
    output := [];
    var first := 0;
    while first != |csv|
      invariant first <= |csv| && output + SegmentsFrom(csv, first) == Segments(csv)
      decreases |csv| - first
    {
      var second := first;
      while second != |csv| && !IsDelimiter(csv[second])
        invariant first <= second <= |csv| && NextDelimiter(csv, second) == NextDelimiter(csv, first)
      {
        second := second + 1;
      }
      SplitStep(csv, first, second, output);
      if first != second { output := output + [csv[first..second]]; }
      if second == |csv| { return; }
      first := second + 1;
    }
    NothingLeft(csv);
  }

  lemma NothingLeft(csv: string)
    ensures SegmentsFrom(csv, |csv|) == []
  {
  }

  /** A segment as it occurs in a split path. */
  predicate SegmentOk(part: string) {
    part != "" && forall i | 0 <= i < |part| :: !IsDelimiter(part[i])
  }

  predicate PartsOk(parts: seq<string>) {
    forall i | 0 <= i < |parts| :: SegmentOk(parts[i])
  }

  lemma {:induction false} SegmentsAreSegments(s: string, first: nat)
    requires first <= |s|
    ensures PartsOk(SegmentsFrom(s, first))
    decreases |s| - first
  {
    hide SegmentsFrom;
    var second := NextDelimiter(s, first);
    Unfolded(s, first, second);
    if first < second { assert SegmentOk(s[first..second]); }
    if second < |s| { SegmentsAreSegments(s, second + 1); }
  }

  /** The path made of some segments. */
  function Rebuilt(parts: seq<string>): string {
    if parts == [] then "" else "/" + parts[0] + Rebuilt(parts[1..])
  }

  lemma DelimiterAt(s: string, first: nat, second: nat)
    requires first <= second <= |s| && (forall i | first <= i < second :: !IsDelimiter(s[i])) && (second < |s| ==> IsDelimiter(s[second]))
    ensures NextDelimiter(s, first) == second
  {
  }

  lemma Regroup(pre: string, a: string, b: string, c: string)
    ensures pre + ("/" + a + b) + c == (pre + "/" + a) + (b + c)
    ensures (pre + "/" + a) + b + c == (pre + "/" + a) + (b + c)
  {
  }

  /** Where the first segment of a built path is. */
  lemma FirstPart(s: string, pre: string, part: string, rest: string)
    requires s == (pre + "/" + part) + rest && SegmentOk(part) && (rest == "" || rest[0] == '/')
    ensures var first, second := |pre|, |pre| + 1 + |part|;
            && second <= |s| && IsDelimiter(s[first]) && s[first + 1..second] == part
            && (forall i | first + 1 <= i < second :: !IsDelimiter(s[i]))
            && (second < |s| ==> IsDelimiter(s[second]))
  {
  }

  lemma PeelsPart(s: string, pre: string, part: string, rest: string)
    requires s == (pre + "/" + part) + rest && SegmentOk(part) && (rest == "" || rest[0] == '/')
    ensures |pre + "/" + part| <= |s|
    ensures SegmentsFrom(s, |pre|) == [part] + SegmentsFrom(s, |pre + "/" + part|)
  {
    hide SegmentsFrom, IsDelimiter, SegmentOk;
    var first, second := |pre|, |pre| + 1 + |part|;
    FirstPart(s, pre, part, rest);
    SegmentNotEmpty(part);
    SkipsSlash(s, first);
    TakesPiece(s, first + 1, second);
    if second < |s| { SkipsSlash(s, second); }
  }

  lemma SegmentNotEmpty(part: string)
    requires SegmentOk(part)
    ensures |part| > 0
  {
  }

  lemma {:induction false} SplitsFrom(s: string, pre: string, parts: seq<string>, tail: string)
    requires s == pre + Rebuilt(parts) + tail && PartsOk(parts) && (tail == "" || tail == "/")
    ensures SegmentsFrom(s, |pre|) == parts
    decreases parts
  {
    if parts == [] {
      OnlySlash(s, pre, tail);
    } else {
      var rest := Rebuilt(parts[1..]) + tail;
      hide SegmentsFrom;
      Regroup(pre, parts[0], Rebuilt(parts[1..]), tail);
      PeelsPart(s, pre, parts[0], rest);
      SplitsFrom(s, pre + "/" + parts[0], parts[1..], tail);
    }
  }

  lemma OnlySlash(s: string, pre: string, tail: string)
    requires s == pre + Rebuilt([]) + tail && (tail == "" || tail == "/")
    ensures SegmentsFrom(s, |pre|) == []
  {
  }

  lemma SkipsSlash(s: string, first: nat)
    requires first < |s| && IsDelimiter(s[first])
    ensures SegmentsFrom(s, first) == SegmentsFrom(s, first + 1)
  {
  }

  lemma TakesPiece(s: string, first: nat, second: nat)
    requires first < second <= |s| && (forall i | first <= i < second :: !IsDelimiter(s[i])) && (second < |s| ==> IsDelimiter(s[second]))
    ensures SegmentsFrom(s, first) == [s[first..second]] + if second < |s| then SegmentsFrom(s, second + 1) else []
    ensures SegmentsFrom(s, |s|) == []
  {
    DelimiterAt(s, first, second);
  }

  /** Splitting undoes building, with or without a slash at the end. */
  lemma SplitUndoesBuild(parts: seq<string>)
    requires PartsOk(parts)
    ensures Segments(Rebuilt(parts)) == parts && Segments(Rebuilt(parts) + "/") == parts
  {
    assert "" + Rebuilt(parts) + "" == Rebuilt(parts);
    SplitsFrom(Rebuilt(parts), "", parts, "");
    assert "" + Rebuilt(parts) + "/" == Rebuilt(parts) + "/";
    SplitsFrom(Rebuilt(parts) + "/", "", parts, "/");
  }

  // ----- the order of paths

  lemma {:induction false} LessOrder(a: string, b: string, c: string)
    requires !Less(b, a) && Less(b, c)
    ensures Less(a, c)
  {
    if a != "" && b != "" && c != "" && a[0] == b[0] == c[0] { LessOrder(a[1..], b[1..], c[1..]); }
  }

  // ----- patterns

  /** A configured path. `methods` and `handlers` go together. */
  datatype Path = Path(path: string, parts: seq<string>, methods: seq<string>, handlers: seq<nat>, wildcard: bool)

  predicate IsParameter(part: string) {
    part != "" && part[0] == '{'
  }

  /** Path's constructor, for one method; None where it throws. */
  function MakePath(path: string, m: string, h: nat): Option<Path> {
    var parts := Segments(path);
    if exists i :: 0 <= i < |parts| && ((IsParameter(parts[i]) && parts[i][|parts[i]| - 1] != '}') || (parts[i] != "" && parts[i][0] == ':'))
    then None
    else Some(Path(path, parts, [m], [h], "~" in parts))
  }

  /** The constructor throws exactly at a parameter without its closing brace and at the form ":name";
      otherwise the path keeps its text, with one handler for one method, and is a wildcard if some
      segment is "~". */
  lemma MadeExactly(path: string, m: string, h: nat)
    ensures var p, parts := MakePath(path, m, h), Segments(path);
            && (p.Some? <==> forall i | 0 <= i < |parts| && parts[i] != "" ::
                  (parts[i][0] == '{' ==> parts[i][|parts[i]| - 1] == '}') && parts[i][0] != ':')
            && (p.Some? ==>
                  && p.value.path == path && p.value.parts == parts && p.value.methods == [m] && p.value.handlers == [h]
                  && (p.value.wildcard <==> exists i :: 0 <= i < |parts| && parts[i] == "~"))
  {
    hide SegmentsFrom;
  }

  /** A well-formed pattern: no empty segments inside, and "~" (written "*" by the user) at the end
      only. */
  predicate PathOk(p: Path) {
    && PartsOk(p.parts) && (p.path == Rebuilt(p.parts) || p.path == Rebuilt(p.parts) + "/")
    && (forall i | 0 <= i < |p.parts| - 1 :: p.parts[i] != "~")
    && (p.wildcard <==> p.parts != [] && p.parts[|p.parts| - 1] == "~")
    && (forall i | 0 <= i < |p.parts| && IsParameter(p.parts[i]) :: |p.parts[i]| >= 2)
    && |p.methods| == |p.handlers|
  }

  /** The constructor makes well-formed patterns of paths without empty segments inside and with "~"
      at the end only. */
  lemma MadePathsAreOk(path: string, m: string, h: nat)
    requires path == Rebuilt(Segments(path)) || path == Rebuilt(Segments(path)) + "/"
    requires var parts := Segments(path); forall i | 0 <= i < |parts| - 1 :: parts[i] != "~"
    ensures MakePath(path, m, h).Some? ==> PathOk(MakePath(path, m, h).value)
  {
    hide SegmentsFrom, Rebuilt;
    SegmentsAreSegments(path, 0);
  }

  predicate RequestParts(parts: seq<string>) {
    parts != [] && PartsOk(parts) && forall i | 0 <= i < |parts| :: parts[i][0] < '{'
  }

  predicate RequestOk(full: string) {
    RequestParts(Segments(full)) && full == Rebuilt(Segments(full))
  }

  /** Only the last segment, if any, is "~". */
  predicate NoTilde(parts: seq<string>) {
    forall i | 0 <= i < |parts| - 1 :: parts[i] != "~"
  }

  // ----- what a match is

  predicate SegmentMatches(pattern: string, part: string) {
    pattern == part || IsParameter(pattern)
  }

  /** The first n segments of the pattern match. */
  predicate MatchesTo(pattern: seq<string>, parts: seq<string>, n: nat) {
    n <= |pattern| && n <= |parts| && forall i | 0 <= i < n :: SegmentMatches(pattern[i], parts[i])
  }

  /** Segment by segment, a parameter matching any; a wildcard takes one or more at the end. */
  predicate Matches(p: Path, parts: seq<string>) {
    if p.wildcard then p.parts != [] && |p.parts| <= |parts| && MatchesTo(p.parts, parts, |p.parts| - 1)
    else |p.parts| == |parts| && MatchesTo(p.parts, parts, |parts|)
  }

  function FirstMatch(paths: seq<Path>, parts: seq<string>, start: nat): (k: nat)
    requires start <= |paths|
    ensures start <= k <= |paths| && (k < |paths| ==> Matches(paths[k], parts))
    ensures forall i | start <= i < k :: !Matches(paths[i], parts)
    decreases |paths| - start
  {
    if start == |paths| || Matches(paths[start], parts) then start else FirstMatch(paths, parts, start + 1)
  }

  /** A matching pattern is never sorted before the request: where they first differ, the pattern has
      a parameter or the wildcard, or goes on. */
  lemma {:induction false} MatchNotLess(p: Path, parts: seq<string>, tail: string)
    requires PartsOk(p.parts) && PartsOk(parts) && (forall i | 0 <= i < |parts| :: parts[i][0] < '{')
    requires p.wildcard <==> p.parts != [] && p.parts[|p.parts| - 1] == "~"
    requires Matches(p, parts)
    ensures !Less(Rebuilt(p.parts) + tail, Rebuilt(parts))
    decreases parts
  {
    if parts != [] {
      var pattern, request := p.parts[0], parts[0];
      var restP, rest := Rebuilt(p.parts[1..]) + tail, Rebuilt(parts[1..]);
      assert Rebuilt(p.parts) + tail == ("/" + pattern) + restP;
      if pattern == request && !(p.wildcard && |p.parts| == 1) {
        LessAfter("/" + pattern, restP, rest);
        MatchNotLess(p.(parts := p.parts[1..]), parts[1..], tail);
      } else {
        assert pattern[0] >= '{';
        FirstDiffers(pattern, request, restP, rest);
      }
    }
  }

  lemma FirstDiffers(pattern: string, request: string, restP: string, rest: string)
    requires pattern != "" && request != "" && request[0] < pattern[0]
    ensures !Less(("/" + pattern) + restP, "/" + request + rest)
  {
  }

  // ----- what a match captures

  type Params = map<string, string>

  /** The name between the braces. */
  function Key(pattern: string): string
    requires |pattern| >= 2
  {
    pattern[1..|pattern| - 1]
  }

  /** try_emplace: the first value given to a key stays. */
  function TryEmplace(params: Params, key: string, value: string): Params {
    if key in params then params else params[key := value]
  }

  /** Segment i of the request is captured: unless it is the parameter's own text, but for the last. */
  predicate IsCaught(pattern: seq<string>, parts: seq<string>, i: nat)
    requires i < |pattern| && i < |parts|
  {
    IsParameter(pattern[i]) && (parts[i] != pattern[i] || i == |parts| - 1)
  }

  /** The parameters among the first n segments. */
  function Captured(pattern: seq<string>, parts: seq<string>, n: nat): Params
    requires n <= |pattern| && n <= |parts| && forall i | 0 <= i < |pattern| && IsParameter(pattern[i]) :: |pattern[i]| >= 2
  {
    if n == 0 then map[]
    else
      var before := Captured(pattern, parts, n - 1);
      if IsCaught(pattern, parts, n - 1) then TryEmplace(before, Key(pattern[n - 1]), parts[n - 1]) else before
  }

  /** The length of the first n segments, each with a slash. */
  function Length(parts: seq<string>, n: nat): nat
    requires n <= |parts|
  {
    if n == 0 then 0 else Length(parts, n - 1) + 1 + |parts[n - 1]|
  }

  /** What a wildcard in place of segment n matches. */
  function Remainder(full: string, parts: seq<string>, n: nat): string
    requires n <= |parts|
  {
    if Length(parts, n) < |full| then full[Length(parts, n) + 1..] else ""
  }

  function Captures(p: Path, full: string): Params
    requires PathOk(p) && Matches(p, Segments(full))
  {
    var parts := Segments(full);
    if p.wildcard then TryEmplace(Captured(p.parts, parts, |p.parts| - 1), WILDCARD_KEY, Remainder(full, parts, |p.parts| - 1))
    else Captured(p.parts, parts, |parts|)
  }

  /** What a request's parameters are to be: the text between the braces names the segment in its
      place, the first one if there are several of that name; "_wildcard_" is the rest of the request
      past the slash; and there are no others. */
  ghost predicate Delivers(p: Path, full: string, params: Params) {
    var parts := Segments(full);
    && (forall i | 0 <= i < |p.parts| && i < |parts| && IsParameter(p.parts[i]) && FirstOfItsName(p.parts, i) ::
          |p.parts[i]| >= 2 && p.parts[i][1..|p.parts[i]| - 1] in params && params[p.parts[i][1..|p.parts[i]| - 1]] == parts[i])
    && (p.wildcard && 0 < |p.parts| <= |parts| && !IsName(p.parts, "_wildcard_") ==>
          "_wildcard_" in params && full == Rebuilt(parts[..|p.parts| - 1]) + "/" + params["_wildcard_"])
    && (forall key <- params :: key == "_wildcard_" || IsName(p.parts, key))
  }

  predicate IsName(pattern: seq<string>, name: string) {
    exists i :: 0 <= i < |pattern| && IsParameter(pattern[i]) && |pattern[i]| >= 2 && pattern[i][1..|pattern[i]| - 1] == name
  }

  predicate FirstOfItsName(pattern: seq<string>, i: nat) {
    i < |pattern| && |pattern[i]| >= 2 &&
    forall j | 0 <= j < i && IsParameter(pattern[j]) && |pattern[j]| >= 2 :: pattern[j][1..|pattern[j]| - 1] != pattern[i][1..|pattern[i]| - 1]
  }

  /** In a request without braces each parameter's segment is captured under its name. */
  lemma {:induction false} CapturesFirst(pattern: seq<string>, parts: seq<string>, n: nat, i: nat)
    requires n <= |pattern| && n <= |parts| && i < n && RequestParts(parts) && IsParameter(pattern[i]) && FirstOfItsName(pattern, i)
    requires forall j | 0 <= j < |pattern| && IsParameter(pattern[j]) :: |pattern[j]| >= 2
    ensures var name := pattern[i][1..|pattern[i]| - 1];
            name in Captured(pattern, parts, n) && Captured(pattern, parts, n)[name] == parts[i]
  {
    if i < n - 1 {
      CapturesFirst(pattern, parts, n - 1, i);
    } else {
      CapturesNames(pattern, parts, i);
    }
  }

  /** Only names of parameters are captured. */
  lemma {:induction false} CapturesNames(pattern: seq<string>, parts: seq<string>, n: nat)
    requires n <= |pattern| && n <= |parts|
    requires forall j | 0 <= j < |pattern| && IsParameter(pattern[j]) :: |pattern[j]| >= 2
    ensures forall key <- Captured(pattern, parts, n) :: exists i :: 0 <= i < n && IsParameter(pattern[i]) && pattern[i][1..|pattern[i]| - 1] == key
  {
    if n > 0 {
      CapturesNames(pattern, parts, n - 1);
      forall key <- Captured(pattern, parts, n) ensures exists i :: 0 <= i < n && IsParameter(pattern[i]) && pattern[i][1..|pattern[i]| - 1] == key {
        if key in Captured(pattern, parts, n - 1) {
          var i :| 0 <= i < n - 1 && IsParameter(pattern[i]) && pattern[i][1..|pattern[i]| - 1] == key;
        } else {
          assert IsParameter(pattern[n - 1]) && pattern[n - 1][1..|pattern[n - 1]| - 1] == key;
        }
      }
    }
  }

  // ----- what routing comes to

  function IndexOf(methods: seq<string>, m: string): (r: Option<nat>)
    ensures r.Some? ==> r.value < |methods| && methods[r.value] == m && m !in methods[..r.value]
    ensures r.None? <==> m !in methods
  {
    if methods == [] then None
    else if methods[0] == m then Some(0)
    else match IndexOf(methods[1..], m) case None => None case Some(i) => Some(i + 1)
  }

  /** The user's handler is run with the parameters; or the one for methods not allowed, if any; or
      the one for paths not found, if any; or nothing is. */
  datatype Outcome = Run(handler: nat, params: Params) | NotAllowed | NotFound | Nothing

  /** The outcome once the pattern is settled. */
  function Settled(p: Path, m: string, full: string): Outcome
    requires PathOk(p) && Matches(p, Segments(full))
  {
    match IndexOf(p.methods, m)
    case Some(i) => Run(p.handlers[i], Captures(p, full))
    case None => NotAllowed
  }

  ghost predicate Sorted(paths: seq<Path>) {
    forall i, j | 0 <= i < j < |paths| :: !Less(paths[j].path, paths[i].path)
  }

  ghost predicate PathsOk(paths: seq<Path>) {
    Sorted(paths) && forall i | 0 <= i < |paths| :: PathOk(paths[i])
  }

  /** Routing as one would define it: by the first pattern that matches. The handler for paths not
      found is considered only if some path is not sorted before the request. */
  ghost function Routed(paths: seq<Path>, m: string, full: string): Outcome
    requires PathsOk(paths)
  {
    var k := FirstMatch(paths, Segments(full), 0);
    if k < |paths| then Settled(paths[k], m, full)
    else if exists i :: 0 <= i < |paths| && !Less(paths[i].path, full) then NotFound
    else Nothing
  }

  /** How many paths at the beginning are sorted before the request. */
  function Before(paths: seq<Path>, full: string, start: nat): (k: nat)
    requires start <= |paths|
    ensures start <= k <= |paths| && (forall i | start <= i < k :: Less(paths[i].path, full))
    ensures k < |paths| ==> !Less(paths[k].path, full)
    decreases |paths| - start
  {
    if start == |paths| || !Less(paths[start].path, full) then start else Before(paths, full, start + 1)
  }

  lemma {:induction false} BeforeIs(paths: seq<Path>, full: string, start: nat, k: nat)
    requires start <= k <= |paths| && (forall i | start <= i < k :: Less(paths[i].path, full))
    requires k < |paths| ==> !Less(paths[k].path, full)
    ensures Before(paths, full, start) == k
    decreases k - start
  {
    if start < k { BeforeIs(paths, full, start + 1, k); }
  }

  /** What routing comes to for any request: nothing before the binary-search position is looked at,
      the path there may be the request itself, and the request without segments matches no other. */
  ghost function RoutedFrom(paths: seq<Path>, m: string, full: string): Outcome
    requires PathsOk(paths)
  {
    var start := Before(paths, full, 0);
    if start == |paths| then Nothing
    else if full == paths[start].path && !paths[start].wildcard then
      match IndexOf(paths[start].methods, m)
      case Some(i) => Run(paths[start].handlers[i], map[])
      case None => NotAllowed
    else
      var k := if Segments(full) == [] then |paths| else FirstMatch(paths, Segments(full), start);
      if k < |paths| then Settled(paths[k], m, full) else NotFound
  }

  lemma MatchIsNotBefore(p: Path, full: string)
    requires PathOk(p) && RequestOk(full) && Matches(p, Segments(full))
    ensures !Less(p.path, full)
  {
    var parts := Segments(full);
    assert Rebuilt(p.parts) + "" == Rebuilt(p.parts);
    MatchNotLess(p, parts, "");
    MatchNotLess(p, parts, "/");
  }

  /** The binary search skips no match. */
  lemma SearchSkipsNothing(paths: seq<Path>, full: string, start: nat)
    requires PathsOk(paths) && RequestOk(full) && start <= |paths| && forall i | 0 <= i < start :: Less(paths[i].path, full)
    ensures forall i | 0 <= i < start :: !Matches(paths[i], Segments(full))
    ensures FirstMatch(paths, Segments(full), 0) == FirstMatch(paths, Segments(full), start)
  {
    var parts := Segments(full);
    forall i | 0 <= i < start ensures !Matches(paths[i], parts) {
      if Matches(paths[i], parts) { MatchIsNotBefore(paths[i], full); }
    }
  }

  lemma NoParameters(parts: seq<string>, n: nat)
    requires RequestParts(parts) && n <= |parts|
    ensures Captured(parts, parts, n) == map[]
  {
  }

  lemma ExactIsMatch(p: Path, full: string)
    requires PathOk(p) && RequestOk(full) && full == p.path && !p.wildcard
    ensures Matches(p, Segments(full)) && Captures(p, full) == map[]
  {
    SplitUndoesBuild(p.parts);
    NoParameters(p.parts, |p.parts|);
  }

  /** For the requests the search is meant for, routing is as defined. */
  lemma RoutedAsDefined(paths: seq<Path>, m: string, full: string)
    requires PathsOk(paths) && RequestOk(full)
    ensures RoutedFrom(paths, m, full) == Routed(paths, m, full)
  {
    hide Less, Rebuilt, SegmentsFrom, Matches, Captures;
    var start := Before(paths, full, 0);
    SearchSkipsNothing(paths, full, start);
    if start < |paths| && full == paths[start].path && !paths[start].wildcard { ExactIsMatch(paths[start], full); }
  }

  lemma {:induction false} LengthCons(part: string, parts: seq<string>, n: nat)
    requires n <= |parts|
    ensures Length([part] + parts, n + 1) == 1 + |part| + Length(parts, n)
  {
    if n > 0 {
      LengthCons(part, parts, n - 1);
      assert ([part] + parts)[n] == parts[n - 1];
    }
  }

  lemma {:induction false} LengthGrows(parts: seq<string>, n: nat, k: nat)
    requires n <= k <= |parts|
    ensures Length(parts, n) <= Length(parts, k)
  {
    if n < k { LengthGrows(parts, n, k - 1); }
  }

  lemma {:induction false} SegmentsShort(s: string, first: nat)
    requires first <= |s|
    ensures Length(SegmentsFrom(s, first), |SegmentsFrom(s, first)|) <= |s| - first + 1
    decreases |s| - first
  {
    hide SegmentsFrom, Length;
    var second := NextDelimiter(s, first);
    Unfolded(s, first, second);
    if second < |s| { SegmentsShort(s, second + 1); }
    var rest := if second < |s| then SegmentsFrom(s, second + 1) else [];
    NoLength(rest);
    assert SegmentsFrom(s, first) == if first < second then [s[first..second]] + rest else rest;
    if first < second { LengthCons(s[first..second], rest, |rest|); }
  }

  lemma NoLength(parts: seq<string>)
    ensures parts == [] ==> Length(parts, |parts|) == 0
  {
  }

  /** The substring after n segments and the slash is within the request, whatever slashes there are. */
  lemma RemainderWithin(full: string, n: nat)
    requires n < |Segments(full)|
    ensures Length(Segments(full), n) < |full|
  {
    var parts := Segments(full);
    SegmentsAreSegments(full, 0);
    SegmentsShort(full, 0);
    assert SegmentOk(parts[n]);
    LengthGrows(parts, n + 1, |parts|);
  }

  lemma {:induction false} LengthDrops(parts: seq<string>, n: nat)
    requires n <= |parts|
    ensures Length(parts, n) <= |Rebuilt(parts)| && Rebuilt(parts)[Length(parts, n)..] == Rebuilt(parts[n..])
  {
    if n == 0 {
      assert parts[0..] == parts;
    } else {
      LengthDrops(parts, n - 1);
      var rest := parts[n - 1..];
      assert rest[1..] == parts[n..];
      assert Rebuilt(rest) == "/" + rest[0] + Rebuilt(rest[1..]);
      assert Rebuilt(parts)[Length(parts, n)..] == Rebuilt(parts)[Length(parts, n - 1)..][1 + |rest[0]|..];
    }
  }

  lemma CapturedMore(pattern: seq<string>, parts: seq<string>, i: nat, n: nat)
    requires i < n <= |pattern| && n <= |parts| && forall j | 0 <= j < |pattern| && IsParameter(pattern[j]) :: |pattern[j]| >= 2
    requires IsCaught(pattern, parts, i)
    ensures Key(pattern[i]) in Captured(pattern, parts, n)
  {
  }

  lemma SizesDiffer(p: Path, parts: seq<string>)
    requires PathOk(p) && |parts| != |p.parts| && (!p.wildcard || |parts| < |p.parts|)
    ensures !Matches(p, parts)
  {
  }

  lemma NothingCaptured(pattern: seq<string>, parts: seq<string>)
    requires forall i | 0 <= i < |pattern| && IsParameter(pattern[i]) :: |pattern[i]| >= 2
    ensures Captured(pattern, parts, 0) == map[]
  {
  }

  /** Going on by one segment, when the first q are captured already. */
  lemma CapturedStep(pattern: seq<string>, parts: seq<string>, i: nat, q: nat)
    requires i < |pattern| && i < |parts| && q <= |pattern| && q <= |parts|
    requires forall j | 0 <= j < |pattern| && IsParameter(pattern[j]) :: |pattern[j]| >= 2
    ensures var before, after := Captured(pattern, parts, if q < i then i else q), Captured(pattern, parts, if q < i + 1 then i + 1 else q);
            after == if IsCaught(pattern, parts, i) then TryEmplace(before, Key(pattern[i]), parts[i]) else before
  {
    if i < q && IsCaught(pattern, parts, i) { CapturedMore(pattern, parts, i, q); }
  }

  /** A request for which the search is meant has no slash at its end. */
  lemma NoSlashAtEnd(full: string)
    requires RequestOk(full)
    ensures full != "" && full[|full| - 1] != '/'
  {
    var parts := Segments(full);
    var n := |parts| - 1;
    hide SegmentsFrom, Rebuilt;
    assert parts == parts[..n] + [parts[n]];
    RebuiltAppend(parts[..n], parts[n]);
    assert SegmentOk(parts[n]);
  }

  lemma {:induction false} SlashDroppedFrom(s: string, first: nat)
    requires first < |s| && s[|s| - 1] == '/'
    ensures SegmentsFrom(s[..|s| - 1], first) == SegmentsFrom(s, first)
    decreases |s| - first
  {
    hide SegmentsFrom;
    var t := s[..|s| - 1];
    var second := NextDelimiter(s, first);
    DelimiterAt(t, first, second);
    assert t[first..second] == s[first..second];
    Unfolded(s, first, second);
    Unfolded(t, first, second);
    if second < |t| { SlashDroppedFrom(s, second + 1); } else { NothingLeft(s); }
  }

  /** A slash at the end makes no difference to the segments. */
  lemma SlashDropped(s: string)
    requires s != "" && s[|s| - 1] == '/'
    ensures Segments(s[..|s| - 1]) == Segments(s)
  {
    SlashDroppedFrom(s, 0);
  }

  // ----- what that means

  /** Handler h is the one that path p has for method m. */
  predicate HandlerFor(p: Path, m: string, h: nat) {
    exists i :: 0 <= i < |p.methods| && p.methods[i] == m && m !in p.methods[..i] && i < |p.handlers| && p.handlers[i] == h
  }

  /** Path k is the request, or matches it. */
  predicate Serves(paths: seq<Path>, full: string, k: nat) {
    k < |paths| && (paths[k].path == full || Matches(paths[k], Segments(full)))
  }

  /** Path k is the first in the whole vector that matches. */
  predicate FirstServes(paths: seq<Path>, full: string, k: nat) {
    k < |paths| && Matches(paths[k], Segments(full)) && forall j | 0 <= j < k :: !Matches(paths[j], Segments(full))
  }

  /** What is run is the handler that a path which serves the request has for its method; a method is
      refused only by such a path that has none. */
  predicate Right(paths: seq<Path>, m: string, full: string, o: Outcome) {
    match o
    case Run(h, _) => exists k: nat | k < |paths| :: Serves(paths, full, k) && HandlerFor(paths[k], m, h)
    case NotAllowed => exists k: nat | k < |paths| :: Serves(paths, full, k) && m !in paths[k].methods
    case _ => true
  }

  /** ... and it is the first path of all that matches, with the parameters that it names, unless
      nothing matches. */
  ghost predicate RightFirst(paths: seq<Path>, m: string, full: string, o: Outcome) {
    match o
    case Run(h, params) =>
      exists k: nat | k < |paths| :: FirstServes(paths, full, k) && HandlerFor(paths[k], m, h) && Delivers(paths[k], full, params)
    case NotAllowed => exists k: nat | k < |paths| :: FirstServes(paths, full, k) && m !in paths[k].methods
    case _ => forall k | 0 <= k < |paths| :: !Matches(paths[k], Segments(full))
  }

  lemma HandlerFound(p: Path, m: string)
    requires |p.methods| == |p.handlers|
    ensures match IndexOf(p.methods, m) case Some(i) => HandlerFor(p, m, p.handlers[i]) case None => m !in p.methods
  {
  }

  /** What the outcome for a settled pattern is. */
  lemma SettledIs(p: Path, m: string, full: string)
    requires PathOk(p) && Matches(p, Segments(full))
    ensures match Settled(p, m, full)
            case Run(h, _) => HandlerFor(p, m, h)
            case NotAllowed => m !in p.methods
            case _ => false
  {
    HandlerFound(p, m);
    hide HandlerFor, PathOk, Matches, Segments, Captures;
  }

  lemma RoutedIsRight(paths: seq<Path>, m: string, full: string)
    requires PathsOk(paths)
    ensures Right(paths, m, full, RoutedFrom(paths, m, full))
  {
    hide Less, SegmentsFrom, Matches, Captures, Settled, HandlerFor, Sorted;
    var start := Before(paths, full, 0);
    if start < |paths| {
      if full == paths[start].path && !paths[start].wildcard {
        HandlerFound(paths[start], m);
        assert Serves(paths, full, start);
      } else if Segments(full) != [] {
        var k := FirstMatch(paths, Segments(full), start);
        if k < |paths| {
          SettledIs(paths[k], m, full);
          assert Serves(paths, full, k);
        }
      }
    }
  }

  lemma CapturesDeliver(p: Path, full: string)
    requires PathOk(p) && RequestOk(full) && Matches(p, Segments(full))
    ensures Delivers(p, full, Captures(p, full))
  {
    hide SegmentsFrom, Rebuilt, Remainder, Captured, RequestOk, MatchesTo, Names, Delivers, IsParameter;
    var parts := Segments(full);
    var n := if p.wildcard then |p.parts| - 1 else |parts|;
    ParametersOk(p);
    SomeParts(full);
    NamesDelivered(p.parts, parts, n);
    var names := Captured(p.parts, parts, n);
    if p.wildcard {
      RestDelivered(full, n);
      WithRest(p, full, names, Remainder(full, parts, n));
    } else {
      WithoutRest(p, full, names);
    }
  }

  lemma SomeParts(full: string)
    requires RequestOk(full)
    ensures RequestParts(Segments(full)) && Segments(full) != []
  {
  }

  lemma WithoutRest(p: Path, full: string, names: Params)
    requires !p.wildcard && |p.parts| == |Segments(full)| && Names(p.parts, Segments(full), |p.parts|, names)
    ensures Delivers(p, full, names)
  {
    hide SegmentsFrom, Rebuilt, FirstOfItsName, IsName, IsParameter;
  }

  lemma WithRest(p: Path, full: string, names: Params, rest: string)
    requires p.wildcard && 0 < |p.parts| <= |Segments(full)| && !IsParameter(p.parts[|p.parts| - 1])
    requires Names(p.parts, Segments(full), |p.parts| - 1, names)
    requires full == Rebuilt(Segments(full)[..|p.parts| - 1]) + "/" + rest
    ensures Delivers(p, full, TryEmplace(names, WILDCARD_KEY, rest))
  {
    hide SegmentsFrom, Rebuilt, FirstOfItsName, IsName, IsParameter;
  }

  lemma ParametersOk(p: Path)
    requires PathOk(p)
    ensures forall j | 0 <= j < |p.parts| && IsParameter(p.parts[j]) :: |p.parts[j]| >= 2
    ensures p.wildcard ==> p.parts != [] && !IsParameter(p.parts[|p.parts| - 1])
  {
  }

  lemma RestDelivered(full: string, n: nat)
    requires RequestOk(full) && n < |Segments(full)|
    ensures full == Rebuilt(Segments(full)[..n]) + "/" + Remainder(full, Segments(full), n)
  {
    hide SegmentsFrom, Rebuilt, Remainder, RequestParts;
    var parts := Segments(full);
    RemainderRebuilds(full, n);
    assert parts == parts[..n] + parts[n..];
    RebuiltConcat(parts[..n], parts[n..]);
    Joined(Rebuilt(parts[..n]), Remainder(full, parts, n));
  }

  /** The captured segments, without a wildcard's. */
  ghost predicate Names(pattern: seq<string>, parts: seq<string>, n: nat, params: Params) {
    && (forall i | 0 <= i < |pattern| && i < n && i < |parts| && IsParameter(pattern[i]) && FirstOfItsName(pattern, i) ::
          |pattern[i]| >= 2 && pattern[i][1..|pattern[i]| - 1] in params && params[pattern[i][1..|pattern[i]| - 1]] == parts[i])
    && (forall key <- params :: IsName(pattern, key))
  }

  lemma NamesDelivered(pattern: seq<string>, parts: seq<string>, n: nat)
    requires RequestParts(parts) && n <= |pattern| && n <= |parts|
    requires forall j | 0 <= j < |pattern| && IsParameter(pattern[j]) :: |pattern[j]| >= 2
    ensures Names(pattern, parts, n, Captured(pattern, parts, n))
  {
    hide IsParameter, Captured, RequestParts, FirstOfItsName, IsName;
    var params := Captured(pattern, parts, n);
    forall i | 0 <= i < n && IsParameter(pattern[i]) && FirstOfItsName(pattern, i)
      ensures var name := pattern[i][1..|pattern[i]| - 1]; name in params && params[name] == parts[i]
    {
      CapturesFirst(pattern, parts, n, i);
    }
    NamesOnly(pattern, parts, n);
  }

  lemma NamesOnly(pattern: seq<string>, parts: seq<string>, n: nat)
    requires n <= |pattern| && n <= |parts|
    requires forall j | 0 <= j < |pattern| && IsParameter(pattern[j]) :: |pattern[j]| >= 2
    ensures forall key <- Captured(pattern, parts, n) :: IsName(pattern, key)
  {
    hide IsParameter, Captured;
    CapturesNames(pattern, parts, n);
  }

  lemma Joined(a: string, b: string)
    ensures a + ("/" + b) == a + "/" + b
  {
  }

  lemma RoutedIsFirst(paths: seq<Path>, m: string, full: string)
    requires PathsOk(paths) && RequestOk(full)
    ensures RightFirst(paths, m, full, Routed(paths, m, full))
  {
    hide Less, SegmentsFrom, Matches, HandlerFor, Sorted, Delivers, RequestOk;
    var k := FirstMatch(paths, Segments(full), 0);
    if k < |paths| {
      SettledIs(paths[k], m, full);
      CapturesDeliver(paths[k], full);
      assert FirstServes(paths, full, k);
    }
  }

  lemma CanRouteIs(paths: seq<Path>, m: string, full: string)
    requires PathsOk(paths) && RequestOk(full)
    ensures var o := RoutedFrom(paths, m, full);
            && full != ""
            && (o.Run? || o.NotAllowed? <==> exists k: nat | k < |paths| :: FirstServes(paths, full, k))
            && (o.Run? <==> exists k: nat | k < |paths| :: FirstServes(paths, full, k) && m in paths[k].methods)
  {
    NoSlashAtEnd(full);
    RoutedAsDefined(paths, m, full);
    hide Less, SegmentsFrom, Matches, RequestOk, RoutedFrom, PathOk, Sorted, Captures;
    var k := FirstMatch(paths, Segments(full), 0);
    if k < |paths| {
      assert FirstServes(paths, full, k);
      SettledIs(paths[k], m, full);
      forall j: nat | j < |paths| && FirstServes(paths, full, j) ensures j == k {}
    }
  }

  /** What is handed back to the client: nothing, where there is no handler for the outcome. */
  function Answered(o: Outcome, notFound: bool, notAllowed: bool): Outcome {
    if (o.NotFound? && !notFound) || (o.NotAllowed? && !notAllowed) then Nothing else o
  }

  /** What `route` answers, with or without a second attempt without the trailing slash. */
  ghost function Answer(paths: seq<Path>, m: string, path: string, check: bool, notFound: bool, notAllowed: bool): Outcome
    requires PathsOk(paths)
  {
    if m == "" || path == "" then Nothing
    else
      var first := Answered(RoutedFrom(paths, m, path), notFound, notAllowed);
      if first.Nothing? && check && path[|path| - 1] == '/'
      then Answered(RoutedFrom(paths, m, path[..|path| - 1]), notFound, notAllowed)
      else first
  }

  /** `notFound` and `notAllowed` say whether these two handlers are configured. */
  class HttpRouter {
    const notFound: bool
    const notAllowed: bool
    var paths: seq<Path>

    constructor (paths: seq<Path>, notFound: bool, notAllowed: bool)
      ensures this.paths == paths && this.notFound == notFound && this.notAllowed == notAllowed
    {
      this.paths, this.notFound, this.notAllowed := paths, notFound, notAllowed;
    }

    /** std::lower_bound over the paths. */
    method LowerBound(full: string) returns (first: nat)
      requires PathsOk(paths)
      ensures first <= |paths| && (forall i | 0 <= i < first :: Less(paths[i].path, full))
      ensures forall i | first <= i < |paths| :: !Less(paths[i].path, full)
      ensures first == Before(paths, full, 0)
    {
      var count: nat := |paths|;
      first := 0;
      while count > 0
        invariant first + count <= |paths|
        invariant forall i | 0 <= i < first :: Less(paths[i].path, full)
        invariant forall i | first + count <= i < |paths| :: !Less(paths[i].path, full)
      {
        var step := count / 2;
        var middle := first + step;
        if Less(paths[middle].path, full) {
          forall i | 0 <= i < middle ensures Less(paths[i].path, full) { LessOrder(paths[i].path, paths[middle].path, full); }
          first, count := middle + 1, count - step - 1;
        } else {
          forall i | middle < i < |paths| ensures !Less(paths[i].path, full) {
            if Less(paths[i].path, full) { LessOrder(paths[middle].path, paths[i].path, full); }
          }
          count := step;
        }
      }
      BeforeIs(paths, full, 0, first);
    }

    /** path.substr past the first n segments and the slash after them. */
    method Rest(full: string, parts: seq<string>, n: nat) returns (rest: string)
      requires parts == Segments(full) && n < |parts|
      ensures rest == Remainder(full, parts, n)
    {
      var idx, j := 0, 0;
      while j < n
        invariant j <= n && idx == Length(parts, j)
      {
        idx := idx + 1 + |parts[j]|;
        j := j + 1;
      }
      RemainderWithin(full, n);
      rest := full[idx + 1..];
    }

    /** The loop of routeParameters for a wildcard pattern shorter than the request: settled, if
        literal segments lead up to the wildcard; if not, the parameter it stopped at is captured. */
    method TryLonger(p: Path, m: string, full: string, parts: seq<string>) returns (o: Option<Outcome>, params: Params, ghost q: nat)
      requires PathOk(p) && p.wildcard && |p.parts| < |parts| && parts == Segments(full) && NoTilde(parts)
      ensures o.Some? ==> Matches(p, parts) && o.value == Settled(p, m, full)
      ensures o.Some? ==> if o.value.Run? then HandlerFor(p, m, o.value.handler) else o.value.NotAllowed? && m !in p.methods
      ensures o.None? ==> q <= |p.parts| - 1 && params == Captured(p.parts, parts, q)
    {
      hide HandlerFor, SegmentsFrom, Rebuilt, Remainder, Key;
      params, q := map[], 0;
      var i := 0;
      while i < |p.parts|
        invariant i <= |p.parts| - 1 && q == i && MatchesTo(p.parts, parts, i) && params == map[] == Captured(p.parts, parts, i)
        decreases |p.parts| - i
      {
        var iview := p.parts[i];
        if parts[i] != iview {
          if iview[0] == '{' {
            params, q := TryEmplace(params, Key(iview), parts[i]), i + 1;
          }
          if iview != "~" { return None, params, q; }
          var midx := IndexOf(p.methods, m);
          HandlerFound(p, m);
          if midx.None? { return Some(NotAllowed), params, q; }
          var rest := Rest(full, parts, |p.parts| - 1);
          params := TryEmplace(params, WILDCARD_KEY, rest);
          return Some(Run(p.handlers[midx.value], params)), params, q;
        }
        i, q := i + 1, i + 1;
      }
      o := None;
    }

    /** The loop of routeParameters over the segments of the request: the handler found, if any, or
        that the method is refused. `params` may hold what TryLonger captured, of the first q
        segments. */
    method TrySegments(p: Path, m: string, full: string, parts: seq<string>, params0: Params, ghost q: nat)
      returns (handler: Option<nat>, refused: bool, params: Params)
      requires PathOk(p) && parts == Segments(full) && NoTilde(parts)
      requires if p.wildcard then |p.parts| <= |parts| else |p.parts| == |parts|
      requires q <= |p.parts| && (parts != [] ==> q < |p.parts|) && params0 == Captured(p.parts, parts, q)
      ensures handler.Some? || refused <==> parts != [] && Matches(p, parts)
      ensures handler.Some? ==> Settled(p, m, full) == Run(handler.value, params) && HandlerFor(p, m, handler.value)
      ensures refused ==> handler.None? && Settled(p, m, full) == NotAllowed && m !in p.methods
    {
      hide Rebuilt, Remainder, Key, Captured, SegmentsFrom, HandlerFor;
      HandlerFound(p, m);
      params, handler, refused := params0, None, false;
      var midx := IndexOf(p.methods, m);
      var i := 0;
      while i < |parts|
        invariant i <= |parts| && MatchesTo(p.parts, parts, i) && handler.None? && !refused
        invariant parts != [] ==> i < |parts| && i < |p.parts|
        invariant params == Captured(p.parts, parts, if q < i then i else q)
        decreases |parts| - i
      {
        var iview := p.parts[i];
        if parts[i] == iview {
          if i == |parts| - 1 {
            CapturedStep(p.parts, parts, i, q);
            if midx.Some? { handler := Some(p.handlers[midx.value]); } else { refused := true; return; }
          } else {
            CapturedStep(p.parts, parts, i, q);
            i := i + 1;
            continue;
          }
        }
        if iview == "~" && p.wildcard {
          if midx.None? { refused := true; return; }
          handler := Some(p.handlers[midx.value]);
          var rest := Rest(full, parts, |p.parts| - 1);
          params := TryEmplace(params, WILDCARD_KEY, rest);
        }
        if iview[0] != '{' { return; }
        CapturedStep(p.parts, parts, i, q);
        params := TryEmplace(params, Key(iview), parts[i]);
        if i == |parts| - 1 {
          if midx.None? { refused := true; return; }
          handler := Some(p.handlers[midx.value]);
          return;
        }
        i := i + 1;
      }
    }

    /** routeParameters */
    method RouteParameters(m: string, full: string) returns (o: Outcome)
      requires PathsOk(paths) && NoTilde(Segments(full))
      ensures o == RoutedFrom(paths, m, full) && Right(paths, m, full, o)
      ensures RequestOk(full) ==> o == Routed(paths, m, full) && RightFirst(paths, m, full, o)
    {
      hide Less, Rebuilt, SegmentsFrom, Sorted, Captures, Matches, Captured, Routed, RequestOk, Right, RightFirst, HandlerFor;
      RoutedIsRight(paths, m, full);
      if RequestOk(full) {
        RoutedAsDefined(paths, m, full);
        RoutedIsFirst(paths, m, full);
      }
      var iter := LowerBound(full);
      ghost var start := iter;
      if iter == |paths| { return Nothing; }
      if full == paths[iter].path && !paths[iter].wildcard {
        var midx := IndexOf(paths[iter].methods, m);
        if midx.Some? { return Run(paths[iter].handlers[midx.value], map[]); }
        return NotAllowed;
      }
      var parts := Split(full);
      while iter < |paths|
        invariant start <= iter <= |paths| && (parts != [] ==> FirstMatch(paths, parts, start) == FirstMatch(paths, parts, iter))
      {
        var p := paths[iter];
        if |parts| != |p.parts| && (!p.wildcard || |parts| < |p.parts|) {
          SizesDiffer(p, parts);
          iter := iter + 1;
          continue;
        }
        var params: Params := map[];
        ghost var q := 0;
        NothingCaptured(p.parts, parts);
        if |parts| != |p.parts| {
          var settled;
          settled, params, q := TryLonger(p, m, full, parts);
          if settled.Some? { return settled.value; }
        }
        var handler, refused;
        handler, refused, params := TrySegments(p, m, full, parts, params, q);
        if handler.Some? { return Run(handler.value, params); }
        if refused { return NotAllowed; }
        iter := iter + 1;
      }
      o := NotFound;
    }

    /** route */
    method Route(m: string, path: string, checkWithoutTrailingSlash: bool) returns (o: Outcome)
      requires PathsOk(paths) && NoTilde(Segments(path))
      ensures o == Answer(paths, m, path, checkWithoutTrailingSlash, notFound, notAllowed)
      ensures || Right(paths, m, path, o)
              || (checkWithoutTrailingSlash && path != "" && path[|path| - 1] == '/' && Right(paths, m, path[..|path| - 1], o))
      ensures m != "" && RequestOk(path) ==>
                || RightFirst(paths, m, path, o)
                || (o.Nothing? && !notFound && RightFirst(paths, m, path, NotFound))
                || (o.Nothing? && !notAllowed && RightFirst(paths, m, path, NotAllowed))
    {
      hide RoutedFrom, Routed, PathsOk, SegmentsFrom, RequestParts, RightFirst, HandlerFor, Matches, Rebuilt;
      if m != "" && RequestOk(path) { NoSlashAtEnd(path); }
      if m == "" || path == "" { return Nothing; }
      o := RouteParameters(m, path);
      o := Answered(o, notFound, notAllowed);
      if o == Nothing && checkWithoutTrailingSlash && path[|path| - 1] == '/' {
        SlashDropped(path);
        o := RouteParameters(m, path[..|path| - 1]);
        o := Answered(o, notFound, notAllowed);
      }
    }

    /** The first loop of canRoute, hand-copied from routeParameters but for the captures. */
    method CanTryLonger(p: Path, m: string, parts: seq<string>) returns (o: Option<(bool, bool)>)
      requires PathOk(p) && p.wildcard && |p.parts| < |parts| && NoTilde(parts)
      ensures o.Some? ==> Matches(p, parts) && o.value == (true, m in p.methods)
    {
      var i := 0;
      while i < |p.parts|
        invariant i <= |p.parts| - 1 && MatchesTo(p.parts, parts, i)
        decreases |p.parts| - i
      {
        var iview := p.parts[i];
        if parts[i] != iview {
          if iview != "~" { return None; }
          var midx := IndexOf(p.methods, m);
          return Some(if midx.Some? then (true, true) else (true, false));
        }
        i := i + 1;
      }
      o := None;
    }

    /** Its second loop. */
    method CanTrySegments(p: Path, m: string, parts: seq<string>) returns (handler: Option<nat>, refused: bool)
      requires PathOk(p) && NoTilde(parts)
      requires if p.wildcard then |p.parts| <= |parts| else |p.parts| == |parts|
      ensures handler.Some? || refused <==> parts != [] && Matches(p, parts)
      ensures handler.Some? ==> m in p.methods
      ensures refused ==> handler.None? && m !in p.methods
    {
      handler, refused := None, false;
      var midx := IndexOf(p.methods, m);
      var i := 0;
      while i < |parts|
        invariant MatchesTo(p.parts, parts, i) && handler.None? && !refused
        invariant parts != [] ==> i < |parts| && i < |p.parts|
        decreases |parts| - i
      {
        var iview := p.parts[i];
        if parts[i] == iview {
          if i == |parts| - 1 {
            if midx.Some? { handler := Some(p.handlers[midx.value]); } else { refused := true; return; }
          } else {
            i := i + 1;
            continue;
          }
        }
        if iview == "~" && p.wildcard {
          if midx.None? { refused := true; return; }
          handler := Some(p.handlers[midx.value]);
        }
        if iview[0] != '{' { return; }
        if i == |parts| - 1 {
          if midx.None? { refused := true; return; }
          handler := Some(p.handlers[midx.value]);
          return;
        }
        i := i + 1;
      }
    }

    /** canRoute agrees with routeParameters: whether it leads to a pattern, and whether to a handler. */
    method CanRoute(m: string, full: string) returns (resource: bool, configured: bool)
      requires PathsOk(paths) && NoTilde(Segments(full))
      ensures m == "" || full == "" ==> !resource && !configured
      ensures m != "" && full != "" ==>
                && (resource <==> RoutedFrom(paths, m, full).Run? || RoutedFrom(paths, m, full).NotAllowed?)
                && (configured <==> RoutedFrom(paths, m, full).Run?)
      ensures m != "" && RequestOk(full) ==>
                && (resource <==> exists k: nat | k < |paths| :: FirstServes(paths, full, k))
                && (configured <==> exists k: nat | k < |paths| :: FirstServes(paths, full, k) && m in paths[k].methods)
    {
      hide Less, Rebuilt, SegmentsFrom, Sorted, Captures, Matches, Captured, FirstServes, Routed, RequestOk;
      if RequestOk(full) { CanRouteIs(paths, m, full); }
      if m == "" || full == "" { return false, false; }
      var iter := LowerBound(full);
      ghost var start := iter;
      if iter == |paths| { return false, false; }
      if full == paths[iter].path && !paths[iter].wildcard {
        var midx := IndexOf(paths[iter].methods, m);
        if midx.Some? { return true, true; }
        return true, false;
      }
      var parts := Split(full);
      while iter < |paths|
        invariant start <= iter <= |paths| && (parts != [] ==> FirstMatch(paths, parts, start) == FirstMatch(paths, parts, iter))
      {
        var p := paths[iter];
        if |parts| != |p.parts| && (!p.wildcard || |parts| < |p.parts|) {
          SizesDiffer(p, parts);
          iter := iter + 1;
          continue;
        }
        if |parts| != |p.parts| {
          var settled := CanTryLonger(p, m, parts);
          if settled.Some? { return settled.value.0, settled.value.1; }
        }
        var handler, refused := CanTrySegments(p, m, parts);
        if handler.Some? { return true, true; }
        if refused { return true, false; }
        iter := iter + 1;
      }
      return false, false;
    }
  }

  // ----- the captures rebuild the request

  /** The pattern with its parameters and wildcard replaced by their values. */
  function Substituted(pattern: seq<string>, params: Params): string {
    if pattern == [] then ""
    else
      var part := pattern[0];
      "/" + (if IsParameter(part) then (if |part| >= 2 && Key(part) in params then params[Key(part)] else part)
             else if part == "~" then (if WILDCARD_KEY in params then params[WILDCARD_KEY] else part)
             else part)
      + Substituted(pattern[1..], params)
  }

  /** No two parameters of the same name, and none named like the wildcard's. */
  predicate NamesOk(pattern: seq<string>) {
    && (forall i | 0 <= i < |pattern| && IsParameter(pattern[i]) :: |pattern[i]| >= 2 && Key(pattern[i]) != WILDCARD_KEY)
    && (forall i, j | 0 <= i < j < |pattern| && IsParameter(pattern[i]) && IsParameter(pattern[j]) :: Key(pattern[i]) != Key(pattern[j]))
  }

  function KeysOf(pattern: seq<string>, n: nat): set<string>
    requires n <= |pattern| && NamesOk(pattern)
  {
    set i | 0 <= i < n && IsParameter(pattern[i]) :: Key(pattern[i])
  }

  /** Every parameter is captured, and nothing else. */
  predicate CapturedOk(pattern: seq<string>, parts: seq<string>, n: nat, c: Params)
    requires n <= |pattern| && n <= |parts| && NamesOk(pattern)
  {
    && c.Keys == KeysOf(pattern, n)
    && (forall i | 0 <= i < n && IsParameter(pattern[i]) :: Key(pattern[i]) in c && c[Key(pattern[i])] == parts[i])
  }

  lemma CapturedNext(pattern: seq<string>, parts: seq<string>, n: nat, c: Params)
    requires n < |pattern| && n < |parts| && NamesOk(pattern) && CapturedOk(pattern, parts, n, c) && IsParameter(pattern[n])
    ensures Key(pattern[n]) !in c && CapturedOk(pattern, parts, n + 1, c[Key(pattern[n]) := parts[n]])
  {
  }

  lemma {:induction false} CapturedValue(pattern: seq<string>, parts: seq<string>, n: nat)
    requires n <= |pattern| && n <= |parts| && NamesOk(pattern) && RequestParts(parts)
    ensures CapturedOk(pattern, parts, n, Captured(pattern, parts, n))
  {
    if n > 0 {
      CapturedValue(pattern, parts, n - 1);
      if IsParameter(pattern[n - 1]) {
        hide CapturedOk, KeysOf;
        CapturedNext(pattern, parts, n - 1, Captured(pattern, parts, n - 1));
      } else {
        assert KeysOf(pattern, n) == KeysOf(pattern, n - 1);
      }
    }
  }

  lemma SubstitutesOne(pattern: seq<string>, params: Params, part: string)
    requires pattern != [] && pattern[0] != "~" && SegmentMatches(pattern[0], part)
    requires IsParameter(pattern[0]) ==> |pattern[0]| >= 2 && Key(pattern[0]) in params && params[Key(pattern[0])] == part
    ensures Substituted(pattern, params) == "/" + part + Substituted(pattern[1..], params)
  {
  }

  lemma Chain(whole: string, before: string, now: string, part: string, tail: string, rest: string)
    requires whole == before + tail && tail == "/" + part + rest && now == before + "/" + part
    ensures whole == now + rest
  {
  }

  lemma {:induction false} SubstitutesFrom(pattern: seq<string>, parts: seq<string>, params: Params, i: nat)
    requires MatchesTo(pattern, parts, i) && NamesOk(pattern)
    requires forall j | 0 <= j < i && IsParameter(pattern[j]) :: Key(pattern[j]) in params && params[Key(pattern[j])] == parts[j]
    requires forall j | 0 <= j < i :: pattern[j] != "~"
    ensures Substituted(pattern, params) == Rebuilt(parts[..i]) + Substituted(pattern[i..], params)
    decreases i
  {
    if i == 0 {
      assert pattern[0..] == pattern && parts[..0] == [];
    } else {
      hide Substituted, Rebuilt, Key;
      SubstitutesFrom(pattern, parts, params, i - 1);
      assert pattern[i - 1..][1..] == pattern[i..];
      SubstitutesOne(pattern[i - 1..], params, parts[i - 1]);
      assert parts[..i] == parts[..i - 1] + [parts[i - 1]];
      RebuiltAppend(parts[..i - 1], parts[i - 1]);
      Chain(Substituted(pattern, params), Rebuilt(parts[..i - 1]), Rebuilt(parts[..i]), parts[i - 1],
            Substituted(pattern[i - 1..], params), Substituted(pattern[i..], params));
    }
  }

  lemma {:induction false} RebuiltAppend(parts: seq<string>, part: string)
    ensures Rebuilt(parts + [part]) == Rebuilt(parts) + "/" + part
  {
    if parts == [] {
      assert [part][1..] == [];
    } else {
      RebuiltAppend(parts[1..], part);
      assert (parts + [part])[1..] == parts[1..] + [part];
    }
  }

  lemma {:induction false} RebuiltConcat(a: seq<string>, b: seq<string>)
    ensures Rebuilt(a + b) == Rebuilt(a) + Rebuilt(b)
  {
    if a == [] {
      assert a + b == b;
    } else {
      RebuiltConcat(a[1..], b);
      assert (a + b)[1..] == a[1..] + b;
    }
  }

  lemma WildcardCaptured(p: Path, full: string)
    requires PathOk(p) && NamesOk(p.parts) && RequestOk(full) && Matches(p, Segments(full)) && p.wildcard
    ensures var parts, n := Segments(full), |p.parts| - 1;
            && Captures(p, full) == Captured(p.parts, parts, n)[WILDCARD_KEY := Remainder(full, parts, n)]
            && "/" + Remainder(full, parts, n) == Rebuilt(parts[n..])
  {
    hide Captured, SegmentsFrom, Remainder, Rebuilt;
    var parts := Segments(full);
    CapturedValue(p.parts, parts, |p.parts| - 1);
    RemainderRebuilds(full, |p.parts| - 1);
    assert WILDCARD_KEY !in KeysOf(p.parts, |p.parts| - 1);
  }

  lemma RemainderRebuilds(full: string, n: nat)
    requires full == Rebuilt(Segments(full)) && n < |Segments(full)|
    ensures "/" + Remainder(full, Segments(full), n) == Rebuilt(Segments(full)[n..])
  {
    hide SegmentsFrom, Length;
    var parts := Segments(full);
    LengthDrops(parts, n);
    RemainderWithin(full, n);
    assert parts[n..] != [];
  }

  /** Putting what was captured into the matched pattern gives back the request. */
  lemma CapturesRebuild(p: Path, full: string)
    requires PathOk(p) && RequestOk(full) && NamesOk(p.parts) && Matches(p, Segments(full))
    ensures Substituted(p.parts, Captures(p, full)) == full
  {
    hide Captured, Substituted, Rebuilt, SegmentsFrom, Remainder, KeysOf;
    var parts := Segments(full);
    var n := if p.wildcard then |p.parts| - 1 else |parts|;
    var params := Captures(p, full);
    CapturedValue(p.parts, parts, n);
    if p.wildcard { WildcardCaptured(p, full); }
    SubstitutesFrom(p.parts, parts, params, n);
    assert parts == parts[..n] + parts[n..];
    RebuiltConcat(parts[..n], parts[n..]);
    if p.wildcard { SubstitutesWildcard(p.parts[n..], params, parts[n..]); } else { NothingSubstituted(p.parts[n..], parts[n..], params); }
  }

  lemma NothingSubstituted(pattern: seq<string>, parts: seq<string>, params: Params)
    requires pattern == [] && parts == []
    ensures Substituted(pattern, params) == Rebuilt(parts)
  {
  }

  lemma SubstitutesWildcard(pattern: seq<string>, params: Params, parts: seq<string>)
    requires pattern == ["~"] && WILDCARD_KEY in params && "/" + params[WILDCARD_KEY] == Rebuilt(parts)
    ensures Substituted(pattern, params) == Rebuilt(parts)
  {
  }

  // ----- where the search is not what one would expect

  /** A request that no pattern matches gets the configured 404 handler exactly if the last path is
      not sorted before it; otherwise it gets no answer at all. */
  lemma NotFoundExactly(paths: seq<Path>, m: string, full: string)
    requires PathsOk(paths) && RequestOk(full) && forall i | 0 <= i < |paths| :: !Matches(paths[i], Segments(full))
    ensures Routed(paths, m, full) == if paths != [] && !Less(paths[|paths| - 1].path, full) then NotFound else Nothing
  {
    var last := |paths| - 1;
    forall i | 0 <= i < |paths| && !Less(paths[i].path, full) ensures !Less(paths[last].path, full) {
      if i < last && Less(paths[last].path, full) { LessOrder(paths[i].path, paths[last].path, full); }
    }
  }

  /** The request's segments, those that start beyond '{' replaced by parameters. */
  function Generalized(parts: seq<string>): (r: seq<string>)
    ensures |r| == |parts| && forall i | 0 <= i < |r| :: r[i] == if parts[i] != "" && parts[i][0] > '{' then "{}" else parts[i]
  {
    seq(|parts|, i requires 0 <= i < |parts| => if parts[i] != "" && parts[i][0] > '{' then "{}" else parts[i])
  }

  predicate NoBraces(parts: seq<string>) {
    parts != [] && PartsOk(parts) && forall i | 0 <= i < |parts| :: parts[i][0] != '{'
  }

  lemma {:induction false} GeneralizedIsLess(parts: seq<string>)
    requires NoBraces(parts) && exists i :: 0 <= i < |parts| && parts[i][0] > '{'
    ensures Less(Rebuilt(Generalized(parts)), Rebuilt(parts))
    decreases parts
  {
    var pattern := Generalized(parts);
    assert pattern[1..] == Generalized(parts[1..]);
    if parts[0][0] > '{' {
      FirstIsLess(parts[0], Rebuilt(pattern[1..]), Rebuilt(parts[1..]));
    } else {
      var i :| 0 <= i < |parts| && parts[i][0] > '{';
      assert parts[1..][i - 1] == parts[i];
      GeneralizedIsLess(parts[1..]);
      LessAfter("/" + parts[0], Rebuilt(pattern[1..]), Rebuilt(parts[1..]));
    }
  }

  lemma FirstIsLess(part: string, restP: string, rest: string)
    requires part != "" && part[0] > '{'
    ensures Less("/" + "{}" + restP, "/" + part + rest)
  {
  }

  function PatternOf(parts: seq<string>): Path {
    Path(Rebuilt(parts), parts, ["GET"], [0], false)
  }

  lemma GeneralizedMatches(parts: seq<string>)
    requires NoBraces(parts)
    ensures PathOk(PatternOf(Generalized(parts))) && Matches(PatternOf(Generalized(parts)), parts)
  {
  }

  /** The restriction on requests is needed: of the requests without segments that start with '{',
      those whose every segment starts below '{' are exactly the ones for which no well-formed
      pattern that matches is sorted before the request, where the search does not look. */
  lemma SearchCompleteExactly(parts: seq<string>)
    requires NoBraces(parts)
    ensures (forall i | 0 <= i < |parts| :: parts[i][0] < '{') <==> (forall p | PathOk(p) && Matches(p, parts) :: !Less(p.path, Rebuilt(parts)))
  {
    SplitUndoesBuild(parts);
    if forall i | 0 <= i < |parts| :: parts[i][0] < '{' {
      forall p | PathOk(p) && Matches(p, parts) ensures !Less(p.path, Rebuilt(parts)) { MatchIsNotBefore(p, Rebuilt(parts)); }
    } else {
      GeneralizedIsLess(parts);
      GeneralizedMatches(parts);
    }
  }

  lemma {:induction false} LessExtends(a: string, b: string, c: string)
    requires Less(a, b)
    ensures Less(a, b + c)
  {
    assert (b + c)[0] == b[0] && (b + c)[1..] == b[1..] + c;
    if a != "" && a[0] == b[0] { LessExtends(a[1..], b[1..], c); }
  }

  lemma {:induction false} PrefixIsLess(a: string, c: string)
    requires c != ""
    ensures Less(a, a + c)
  {
    assert a + c != "";
    if a != "" {
      PrefixIsLess(a[1..], c);
      assert (a + c)[1..] == a[1..] + c;
    }
  }

  /** A vector of one matching pattern that is sorted before the request: routing finds nothing. */
  lemma OneSkipped(p: Path, m: string, full: string)
    requires PathOk(p) && Matches(p, Segments(full)) && Less(p.path, full)
    ensures PathsOk([p]) && RoutedFrom([p], m, full) == Nothing && Routed([p], m, full) == Settled(p, m, full) != Nothing
  {
    hide PathOk, Matches, Less, Segments, Captures;
    assert Less([p][0].path, full);
    assert FirstMatch([p], Segments(full), 0) == 0 by { assert Matches([p][0], Segments(full)); }
    OneIsSorted(p);
  }

  lemma OneIsSorted(p: Path)
    requires PathOk(p)
    ensures PathsOk([p])
  {
  }

  /** Of requests built from segments that do not start with '{', with or without a slash at the end,
      those the search is meant for are exactly the ones that are routed as defined whatever the
      configured paths. */
  lemma RoutedAsDefinedExactly(full: string)
    requires var parts := Segments(full); (full == Rebuilt(parts) || full == Rebuilt(parts) + "/") && (parts == [] || NoBraces(parts))
    ensures (forall paths, m | PathsOk(paths) :: RoutedFrom(paths, m, full) == Routed(paths, m, full)) <==> RequestOk(full)
  {
    hide Less, RoutedFrom, Routed, PathsOk, Rebuilt, SegmentsFrom;
    if RequestOk(full) {
      forall paths, m | PathsOk(paths) ensures RoutedFrom(paths, m, full) == Routed(paths, m, full) { RoutedAsDefined(paths, m, full); }
    } else {
      var p := Misrouted(full);
      assert RoutedFrom([p], "GET", full) != Routed([p], "GET", full);
    }
  }

  lemma Misrouted(full: string) returns (p: Path)
    requires var parts := Segments(full); (full == Rebuilt(parts) || full == Rebuilt(parts) + "/") && (parts == [] || NoBraces(parts))
    requires !RequestOk(full)
    ensures PathsOk([p]) && RoutedFrom([p], "GET", full) != Routed([p], "GET", full)
  {
    hide Less, RoutedFrom, Routed, PathsOk, SegmentsFrom;
    var parts := Segments(full);
    if parts == [] {
      p := if full == "" then PatternOf([]).(path := "/") else PatternOf([]);
      RootMisrouted(p, full);
    } else if exists i :: 0 <= i < |parts| && parts[i][0] > '{' {
      p := PatternOf(Generalized(parts));
      GeneralizedMatches(parts);
      GeneralizedIsLess(parts);
      LessExtends(p.path, Rebuilt(parts), "/");
      OneSkipped(p, "GET", full);
    } else {
      p := PatternOf(parts);
      PartsMatch(parts);
      PrefixIsLess(p.path, "/");
      OneSkipped(p, "GET", full);
    }
  }

  lemma PartsMatch(parts: seq<string>)
    requires NoBraces(parts) && forall i | 0 <= i < |parts| :: parts[i][0] < '{'
    ensures PathOk(PatternOf(parts)) && Matches(PatternOf(parts), parts)
  {
  }

  lemma RootMisrouted(p: Path, full: string)
    requires Segments(full) == [] && (full == "" || full == "/")
    requires p == if full == "" then PatternOf([]).(path := "/") else PatternOf([])
    ensures PathsOk([p]) && RoutedFrom([p], "GET", full) != Routed([p], "GET", full)
  {
    hide SegmentsFrom;
    OneIsSorted(p);
    assert Matches(p, Segments(full));
    if full == "/" {
      OneSkipped(p, "GET", full);
    } else {
      assert FirstMatch([p], [], 0) == 0 by { assert Matches([p][0], []); }
      assert !Less([p][0].path, full);
      assert Before([p], full, 0) == 0;
    }
  }

  lemma SegmentsOfOne(part: string)
    requires SegmentOk(part)
    ensures Rebuilt([part]) == "/" + part && Segments("/" + part) == [part] && Segments("/" + part + "/") == [part]
  {
    assert [part][1..] == [];
    SplitUndoesBuild([part]);
  }

  /** For instance: with the one path "/a", the request "/b" gets no answer, whether or not there is a
      404 handler. */
  lemma NotFoundMissed(m: string)
    ensures var paths := [PatternOf(["a"])];
            PathsOk(paths) && RequestOk("/b") && !Matches(paths[0], Segments("/b")) && RoutedFrom(paths, m, "/b") == Nothing
  {
    hide *;
    LettersDiffer();
    OneIsSorted(PatternOf(["a"]));
    NothingLooked(PatternOf(["a"]), m, "/b");
  }

  lemma NothingLooked(p: Path, m: string, full: string)
    requires PathsOk([p]) && Less(p.path, full)
    ensures RoutedFrom([p], m, full) == Nothing
  {
    hide PathsOk, Less, SegmentsFrom;
    assert Less([p][0].path, full);
  }

  /** For instance: with the one path "/{id}", the request "/|" finds nothing. */
  lemma MatchMissed()
    ensures var paths := [PatternOf(["{id}"])];
            && PathsOk(paths) && NoTilde(Segments("/|")) && Matches(paths[0], Segments("/|"))
            && RoutedFrom(paths, "GET", "/|") == Nothing && Routed(paths, "GET", "/|") == Run(0, map["id" := "|"])
  {
    var p := PatternOf(["{id}"]);
    ParameterCaptures();
    hide Less, Rebuilt, SegmentsFrom, Captured, Matches, PathOk;
    OneSkipped(p, "GET", "/|");
  }

  lemma ParameterCaptures()
    ensures var p := PatternOf(["{id}"]);
            && PathOk(p) && Segments("/|") == ["|"] && Matches(p, ["|"]) && Less(p.path, "/|")
            && Captures(p, "/|") == map["id" := "|"]
  {
    hide SegmentsFrom;
    SegmentsOfOne("{id}");
    SegmentsOfOne("|");
    assert "/" + "|" == "/|" && "/" + "{id}" == "/{id}";
    LessAfter("/", "{id}", "|");
    assert Key("{id}") == "id" && "{id}"[0] == '{';
    assert ["{id}"][0] == "{id}" && ["|"][0] == "|";
    assert Captured(["{id}"], ["|"], 0) == map[];
  }

  // ----- the second attempt

  /** A request that matches nothing with its slash at the end is answered as without it exactly if
      there is no 404 handler, or all paths are sorted before the request, or it is not found without
      the slash either: a 404 handler answers the first attempt, so that there is no second. */
  lemma TrailingSlashExactly(paths: seq<Path>, m: string, path: string, notFound: bool, notAllowed: bool)
    requires PathsOk(paths) && m != "" && RequestOk(path)
    requires var first := RoutedFrom(paths, m, path + "/"); first.NotFound? || first.Nothing?
    ensures Answer(paths, m, path + "/", true, notFound, notAllowed) == Answered(Routed(paths, m, path), notFound, notAllowed)
            <==> !notFound || (forall i | 0 <= i < |paths| :: Less(paths[i].path, path + "/")) || Routed(paths, m, path).NotFound?
  {
    hide Routed, Less;
    var full := path + "/";
    assert full[|full| - 1] == '/' && full[..|full| - 1] == path;
    RoutedAsDefined(paths, m, path);
    var start := Before(paths, full, 0);
    hide RoutedFrom, RequestOk;
    NothingExactly(paths, m, full);
  }

  lemma NothingExactly(paths: seq<Path>, m: string, full: string)
    requires PathsOk(paths)
    ensures RoutedFrom(paths, m, full).Nothing? <==> forall i | 0 <= i < |paths| :: Less(paths[i].path, full)
  {
    hide Less, SegmentsFrom, Matches, Captures;
    var start := Before(paths, full, 0);
  }

  /** For instance: with the paths "/a" and "/b" and a 404 handler, this handler gets the request
      "/a/", although the slash at the end was to be ignored. */
  lemma SecondAttemptMissed()
    ensures var paths := [PatternOf(["a"]), PatternOf(["b"])];
            && PathsOk(paths) && Answer(paths, "GET", "/a/", true, true, true) == NotFound
            && Routed(paths, "GET", "/a") == Run(0, map[])
  {
    hide *;
    var a, b := PatternOf(["a"]), PatternOf(["b"]);
    LettersDiffer();
    assert "/a" + "/" == "/a/";
    TwoAreSorted(a, b);
    SecondNotTried([a, b], "/a", "GET");
  }

  lemma LettersDiffer()
    ensures var a, b := PatternOf(["a"]), PatternOf(["b"]);
            && PathOk(a) && PathOk(b) && RequestOk("/a") && RequestOk("/b") && Segments("/a") == Segments("/a/") == ["a"]
            && !Matches(a, Segments("/b")) && Less(a.path, "/b")
            && Matches(a, ["a"]) && !Matches(b, ["a"]) && Settled(a, "GET", "/a") == Run(0, map[])
            && !Less(b.path, a.path) && Less(a.path, "/a/") && !Less(b.path, "/a/") && b.path != "/a/"
  {
    hide SegmentsFrom;
    SegmentsOfOne("a");
    SegmentsOfOne("b");
    assert "/" + "a" == "/a" && "/" + "b" == "/b" && "/" + "a" + "/" == "/a/" == "/a" + "/";
    assert ["a"][0] == "a" && "a"[0] == 'a' && "a"[1..] == "" && ["b"][0] == "b" && "b"[0] == 'b';
    assert "/a"[1..] == "a" && "/b"[1..] == "b" && "/a/"[1..] == "a/";
    PrefixIsLess("/a", "/");
    assert Captured(["a"], ["a"], 0) == map[];
  }

  lemma SecondNotTried(paths: seq<Path>, path: string, m: string)
    requires PathsOk(paths) && |paths| == 2 && RequestOk(path) && Segments(path + "/") == Segments(path) && m != ""
    requires Matches(paths[0], Segments(path)) && !Matches(paths[1], Segments(path))
    requires Less(paths[0].path, path + "/") && !Less(paths[1].path, path + "/") && path + "/" != paths[1].path
    ensures Answer(paths, m, path + "/", true, true, true) == NotFound && Routed(paths, m, path) == Settled(paths[0], m, path)
  {
    hide Less, Rebuilt, SegmentsFrom, Matches, PathsOk, RequestOk, Captures;
    var full := path + "/";
    BeforeIs(paths, full, 0, 1);
    assert FirstMatch(paths, Segments(path), 1) == 2;
    assert FirstMatch(paths, Segments(path), 0) == 0;
  }

  lemma TwoAreSorted(a: Path, b: Path)
    requires PathOk(a) && PathOk(b) && !Less(b.path, a.path)
    ensures PathsOk([a, b])
  {
  }
}
