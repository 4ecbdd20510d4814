/**
 * The monitor catalog: reading the display listing that `dispwin -?` prints
 * (one `n = 'description'` line per display, such as `2 = 'Left screen'`),
 * the fallback entry used when nothing is found, the scope text shown after
 * the profile name, and the check marks of the monitor menu.
 */
module Monitors {
  import opened Wrappers
  import opened Text
  import opened Paths

  /** Largest value of a C# `int`; int.Parse throws beyond it. */
  const MaxInt32: int := 0x7FFF_FFFF

  /** The MonitorInfo struct. */
  datatype MonitorInfo = MonitorInfo(displayNumber: int, displayName: string, isWorking: bool)

  /** The single entry used when discovery finds nothing. */
  const PrimaryFallback := MonitorInfo(1, "Primary Monitor", true)

  /** The texts of monitor names and of the tooltip's scope. */
  const MonitorPrefix := "Monitor "
  const PrimaryMarker := "Primary"
  const PrimarySuffix := " (Primary)"
  const AllMonitorsScope := " (All Monitors)"

  // ------------------------------------------------------ listing lines

  /**
   * A listing line taken apart: `digits gap1 = gap2 'description' tail`, the
   * shape matched by the pattern ^(\d+)\s*=\s*'([^']+)'.
   */
  datatype ListingLine = ListingLine(digits: string, gap1: string, gap2: string, description: string, tail: string)
  {
    predicate WellFormed()
    {
      && digits != [] && AllDigits(digits)
      && AllWhiteSpace(gap1) && AllWhiteSpace(gap2)
      && description != [] && AllIn(description, Except('\''))
    }

    function Render(): string
    {
      HeadText(digits, gap1, gap2, description + ("'" + tail))
    }
  }

  /** What both patterns start with, `digits gap1 = gap2 '`, followed by `rest`. */
  function HeadText(digits: string, gap1: string, gap2: string, rest: string): string
  {
    digits + (gap1 + ("=" + (gap2 + ("'" + rest))))
  }

  datatype Head = Head(digits: string, gap1: string, gap2: string, rest: string)

  predicate IsHead(h: Head)
  {
    h.digits != [] && AllDigits(h.digits) && AllWhiteSpace(h.gap1) && AllWhiteSpace(h.gap2)
  }

  /** Matches ^\d+\s*=\s*' at the start of `t`, each repetition greedy; `rest` is what follows the quote. */
  function MatchHead(t: string): Option<Head>
  {
    var digits := TakeWhile(t, Digit);
    var gap1 := TakeWhile(digits.rest, Space);
    if digits.taken == [] || gap1.rest == [] || gap1.rest[0] != '=' then None
    else
      var gap2 := TakeWhile(gap1.rest[1..], Space);
      if gap2.rest == [] || gap2.rest[0] != '\'' then None
      else Some(Head(digits.taken, gap1.taken, gap2.taken, gap2.rest[1..]))
  }

  /** What MatchHead takes apart has the head's shape and puts the text back together. */
  lemma MatchHeadSound(t: string)
    requires MatchHead(t).Some?
    ensures var h := MatchHead(t).value; IsHead(h) && t == HeadText(h.digits, h.gap1, h.gap2, h.rest)
  {
    var digits := TakeWhile(t, Digit);
    var gap1 := TakeWhile(digits.rest, Space);
    var gap2 := TakeWhile(gap1.rest[1..], Space);
    TakeWhileStops(t, Digit);
    TakeWhileStops(digits.rest, Space);
    TakeWhileStops(gap1.rest[1..], Space);
    HeadTextOfCuts(t, digits, gap1, gap2);
  }

  /** Three cuts laid end to end, with '=' and a quote between them, spell the head's text. */
  lemma HeadTextOfCuts(t: string, digits: Cut, gap1: Cut, gap2: Cut)
    requires t == digits.taken + digits.rest && digits.rest == gap1.taken + gap1.rest
    requires gap1.rest != [] && gap1.rest[0] == '=' && gap1.rest[1..] == gap2.taken + gap2.rest
    requires gap2.rest != [] && gap2.rest[0] == '\''
    ensures t == HeadText(digits.taken, gap1.taken, gap2.taken, gap2.rest[1..])
  {
    assert gap2.rest == "'" + gap2.rest[1..];
    assert gap1.rest == "=" + gap1.rest[1..];
  }

  /** A text that starts with a head is matched, and the head is taken apart as it was put together. */
  lemma HeadIsMatched(h: Head)
    requires IsHead(h)
    ensures MatchHead(HeadText(h.digits, h.gap1, h.gap2, h.rest)) == Some(h)
  {
    var atQuote := "'" + h.rest;
    var afterEquals := h.gap2 + atQuote;
    var atEquals := "=" + afterEquals;
    var afterDigits := h.gap1 + atEquals;
    TakeWhileOfPrefix(h.digits, afterDigits, Digit);
    TakeWhileOfPrefix(h.gap1, atEquals, Space);
    assert atEquals[1..] == afterEquals;
    TakeWhileOfPrefix(h.gap2, atQuote, Space);
    assert atQuote[1..] == h.rest;
  }

  /**
   * The first pattern, ^\d+\s*=\s*'.*' : after the head, a closing quote
   * before any LF (`.` matches every character but LF).
   */
  predicate LooseMatch(t: string)
  {
    match MatchHead(t)
    case None => false
    case Some(h) => '\'' in TakeWhile(h.rest, Except('\n')).taken
  }

  /** The second pattern, ^(\d+)\s*=\s*'([^']+)', with its two groups kept apart. */
  function MatchListingLine(t: string): Option<ListingLine>
  {
    match MatchHead(t)
    case None => None
    case Some(h) =>
      var description := TakeWhile(h.rest, Except('\''));
      if description.taken == [] || description.rest == [] then None
      else Some(ListingLine(h.digits, h.gap1, h.gap2, description.taken, description.rest[1..]))
  }

  /** What the second pattern takes apart has the listing shape and puts the text back together. */
  lemma MatchListingLineSound(t: string)
    requires MatchListingLine(t).Some?
    ensures MatchListingLine(t).value.WellFormed() && MatchListingLine(t).value.Render() == t
  {
    MatchHeadSound(t);
    var h := MatchHead(t).value;
    var description := TakeWhile(h.rest, Except('\''));
    TakeWhileStops(h.rest, Except('\''));
    assert description.rest == "'" + description.rest[1..];
  }

  /** Every line of the listing shape is matched, and taken apart the way it was put together. */
  lemma MatchListingLineComplete(l: ListingLine)
    requires l.WellFormed()
    ensures MatchListingLine(l.Render()) == Some(l)
  {
    var rest := l.description + ("'" + l.tail);
    HeadIsMatched(Head(l.digits, l.gap1, l.gap2, rest));
    TakeWhileOfPrefix(l.description, "'" + l.tail, Except('\''));
    assert ("'" + l.tail)[1..] == l.tail;
  }

  /** A line whose quotes enclose nothing, `n = ''`, is not matched by the second pattern. */
  lemma EmptyDescriptionRejected(h: Head, tail: string)
    requires IsHead(h) && h.rest == "'" + tail
    ensures MatchListingLine(HeadText(h.digits, h.gap1, h.gap2, h.rest)) == None
  {
    HeadIsMatched(h);
    TakeWhileOfPrefix([], h.rest, Except('\''));
    assert [] + h.rest == h.rest;
  }

  /** A line without a closing quote is not matched by the second pattern. */
  lemma UnclosedDescriptionRejected(h: Head)
    requires IsHead(h) && AllIn(h.rest, Except('\''))
    ensures MatchListingLine(HeadText(h.digits, h.gap1, h.gap2, h.rest)) == None
  {
    HeadIsMatched(h);
    TakeWhileOfPrefix(h.rest, [], Except('\''));
    assert h.rest + [] == h.rest;
  }

  /** On a text without LF, a line the second pattern matches is matched by the first as well. */
  lemma ListingLineMatchesLoosely(t: string)
    requires MatchListingLine(t).Some? && '\n' !in t
    ensures LooseMatch(t)
  {
    MatchListingLineSound(t);
    var l := MatchListingLine(t).value;
    var rest := l.description + ("'" + l.tail);
    HeadIsMatched(Head(l.digits, l.gap1, l.gap2, rest));
    assert '\n' !in rest;
    TakeWhileOfPrefix(rest, [], Except('\n'));
    assert rest + [] == rest;
    assert rest[|l.description|] == '\'';
  }

  // ------------------------------------------------------------- parsing

  /** "Monitor n", with " (Primary)" when the tool's description mentions Primary. */
  function MonitorName(n: nat, description: string): string
  {
    MonitorPrefix + NatToString(n) + (if Contains(description, PrimaryMarker) then PrimarySuffix else "")
  }

  /** One line of the listing: trimmed, matched by both patterns, its number parsed as a C# int. */
  function ParseLine(line: string): (r: Option<MonitorInfo>)
    ensures r.Some? ==> r.value.isWorking && 0 <= r.value.displayNumber <= MaxInt32
  {
    var t := Trim(line);
    if !LooseMatch(t) then None
    else match MatchListingLine(t)
      case None => None
      case Some(l) =>
        MatchListingLineSound(t);
        var n := DigitsValue(l.digits);
        // int.Parse throws OverflowException beyond MaxInt32; the catch skips the line.
        if n > MaxInt32 then None
        else Some(MonitorInfo(n, MonitorName(n, l.description), true))
  }

  /** What a line yields once both patterns have matched its trimmed text. */
  lemma ParseLineOfMatch(line: string, l: ListingLine)
    requires LooseMatch(Trim(line)) && MatchListingLine(Trim(line)) == Some(l) && l.WellFormed()
    ensures ParseLine(line) == if DigitsValue(l.digits) <= MaxInt32
      then Some(MonitorInfo(DigitsValue(l.digits), MonitorName(DigitsValue(l.digits), l.description), true))
      else None
  {
  }

  /** A listing line, padded with white space, yields exactly one monitor with its number and name. */
  lemma ParseLineAccepts(pre: string, l: ListingLine, post: string)
    requires AllWhiteSpace(pre) && AllWhiteSpace(post)
    requires l.WellFormed() && (l.tail == [] || !IsWhiteSpace(l.tail[|l.tail| - 1])) && '\n' !in l.Render()
    requires DigitsValue(l.digits) <= MaxInt32
    ensures ParseLine(pre + l.Render() + post)
      == Some(MonitorInfo(DigitsValue(l.digits), MonitorName(DigitsValue(l.digits), l.description), true))
  {
    var t := l.Render();
    RenderEnds(l);
    TrimPadded(pre, t, post);
    MatchListingLineComplete(l);
    ListingLineMatchesLoosely(t);
    ParseLineOfMatch(pre + t + post, l);
  }

  /** A rendered line starts with its first digit and ends with its tail, or with the closing quote. */
  lemma RenderEnds(l: ListingLine)
    requires l.digits != []
    ensures l.Render()[0] == l.digits[0]
    ensures l.Render()[|l.Render()| - 1] == if l.tail == [] then '\'' else l.tail[|l.tail| - 1]
  {
    var closing := "'" + l.tail;
    var t := l.Render();
    assert t == l.digits + (l.gap1 + ("=" + (l.gap2 + ("'" + (l.description + closing)))));
    assert t[|t| - 1] == closing[|closing| - 1];
  }

  /**
   * A line yields a monitor exactly when its trimmed text has the listing shape
   * and a number that fits an int; the number and the name come from that shape.
   */
  lemma ParseLineCases(line: string)
    requires NoLineBreak(line)
    ensures MatchListingLine(Trim(line)).None? ==> ParseLine(line).None?
    ensures var m := MatchListingLine(Trim(line));
      m.Some? ==> (m.value.WellFormed() && ParseLine(line) ==
        if DigitsValue(m.value.digits) <= MaxInt32
        then Some(MonitorInfo(DigitsValue(m.value.digits), MonitorName(DigitsValue(m.value.digits), m.value.description), true))
        else None)
  {
    var t := Trim(line);
    if MatchListingLine(t).Some? {
      MatchListingLineSound(t);
      NoLineBreakInTrim(line);
      ListingLineMatchesLoosely(t);
      ParseLineOfMatch(line, MatchListingLine(t).value);
    }
  }

  lemma NoLineBreakInTrim(line: string)
    requires NoLineBreak(line)
    ensures '\n' !in Trim(line)
  {
    var t := Trim(line);
    var k := TrimIsInfix(line);
    assert forall i :: 0 <= i < |t| ==> t[i] == line[k + i];
  }

  /** A line yields a monitor only if its trimmed text has the listing shape. */
  lemma ParseLineSound(line: string)
    requires ParseLine(line).Some?
    ensures MatchListingLine(Trim(line)).Some?
    ensures var l := MatchListingLine(Trim(line)).value;
      l.WellFormed() && Trim(line) == l.Render() && DigitsValue(l.digits) == ParseLine(line).value.displayNumber
  {
    MatchListingLineSound(Trim(line));
  }

  /** A monitor numbered without leading zeros is named after the digits as written. */
  lemma ParsedNameEchoesDigits(l: ListingLine)
    requires l.WellFormed() && (|l.digits| > 1 ==> l.digits[0] != '0')
    ensures MonitorName(DigitsValue(l.digits), l.description)
      == MonitorPrefix + l.digits + (if Contains(l.description, PrimaryMarker) then PrimarySuffix else "")
  {
    NatToStringOfDigitsValue(l.digits);
  }

  /** The parse of each line, in order. */
  function ParseLines(lines: seq<string>): (rs: seq<Option<MonitorInfo>>)
    ensures |rs| == |lines|
  {
    if lines == [] then [] else ParseLines(lines[..|lines| - 1]) + [ParseLine(lines[|lines| - 1])]
  }

  /** The i-th result is the parse of the i-th line. */
  lemma {:induction false} ParseLinesAt(lines: seq<string>, i: nat)
    requires i < |lines|
    ensures ParseLines(lines)[i] == ParseLine(lines[i])
  {
    if i < |lines| - 1 {
      ParseLinesAt(lines[..|lines| - 1], i);
    }
  }

  /** The monitors of the accepted lines, in the order of the lines (the loop's Add calls). */
  function Collected(rs: seq<Option<MonitorInfo>>): (ms: seq<MonitorInfo>)
    ensures |ms| <= |rs|
  {
    if rs == [] then []
    else Collected(rs[..|rs| - 1]) + (match rs[|rs| - 1] case None => [] case Some(m) => [m])
  }

  /** ParseMonitorsFromDispwinOutput's contribution for the lines of the listing. */
  function ParsedFromLines(lines: seq<string>): seq<MonitorInfo>
  {
    Collected(ParseLines(lines))
  }

  function ParsedMonitors(output: string): seq<MonitorInfo>
  {
    ParsedFromLines(SplitLines(output))
  }

  /** Collecting is piecewise: the monitors of two runs of results are those of each, in order. */
  lemma {:induction false} CollectedAppend(a: seq<Option<MonitorInfo>>, b: seq<Option<MonitorInfo>>)
    ensures Collected(a + b) == Collected(a) + Collected(b)
    decreases |b|
  {
    if b == [] {
      assert a + b == a;
    } else {
      assert (a + b)[..|a + b| - 1] == a + b[..|b| - 1];
      CollectedAppend(a, b[..|b| - 1]);
    }
  }

  /** One more listing line adds its monitor, if it is accepted, after the others. */
  lemma ParsedFromLinesSnoc(lines: seq<string>, i: nat)
    requires i < |lines|
    ensures ParsedFromLines(lines[..i + 1])
         == ParsedFromLines(lines[..i]) + (match ParseLine(lines[i]) case None => [] case Some(m) => [m])
  {
    var rs := ParseLines(lines[..i]);
    var x := ParseLine(lines[i]);
    assert lines[..i + 1][..i] == lines[..i];
    assert ParseLines(lines[..i + 1]) == rs + [x];
    CollectedAppend(rs, [x]);
    assert [x][..0] == [];
  }

  /** Every collected monitor is one of the results, and every result that is a monitor is collected. */
  lemma {:induction false} CollectedMembers(rs: seq<Option<MonitorInfo>>)
    ensures forall m :: m in Collected(rs) <==> Some(m) in rs
  {
    if rs != [] {
      CollectedMembers(rs[..|rs| - 1]);
      assert rs == rs[..|rs| - 1] + [rs[|rs| - 1]];
    }
  }

  /** When every result is a monitor, the i-th collected monitor is the i-th result. */
  lemma {:induction false} CollectedAllSome(rs: seq<Option<MonitorInfo>>)
    requires forall i :: 0 <= i < |rs| ==> rs[i].Some?
    ensures |Collected(rs)| == |rs|
    ensures forall i :: 0 <= i < |rs| ==> Collected(rs)[i] == rs[i].value
  {
    if rs != [] {
      CollectedAllSome(rs[..|rs| - 1]);
    }
  }

  /** Results that are all rejections collect nothing. */
  lemma {:induction false} CollectedAllNone(rs: seq<Option<MonitorInfo>>)
    requires forall i :: 0 <= i < |rs| ==> rs[i].None?
    ensures Collected(rs) == []
  {
    if rs != [] {
      CollectedAllNone(rs[..|rs| - 1]);
    }
  }

  /** Every monitor parsed from the listing is working and numbered within the range of an int. */
  lemma ParsedFromLinesBounds(lines: seq<string>)
    ensures forall m :: m in ParsedFromLines(lines) ==> m.isWorking && 0 <= m.displayNumber <= MaxInt32
  {
    var rs := ParseLines(lines);
    CollectedMembers(rs);
    forall m | m in Collected(rs)
      ensures m.isWorking && 0 <= m.displayNumber <= MaxInt32
    {
      var i :| 0 <= i < |rs| && rs[i] == Some(m);
      ParseLinesAt(lines, i);
    }
  }

  // ----------------------------------------------------------- discovery

  /**
   * DetectAvailableMonitors: with the tool found, the monitors parsed from its
   * listing (`listing` is None when starting it failed); the fallback entry
   * when the tool is missing or nothing was parsed.
   */
  function DiscoveredMonitors(baseDirectory: string, files: set<string>, listing: Option<string>): (ms: seq<MonitorInfo>)
    ensures ms != []
  {
    if FindDispwinExecutable(baseDirectory, files).None? then [PrimaryFallback]
    else
      var parsed := if listing.Some? then ParsedMonitors(listing.value) else [];
      if parsed == [] then [PrimaryFallback] else parsed
  }

  /** Discovery is the fallback exactly when the tool is missing or nothing parses; otherwise the parsed list, untouched. */
  lemma DiscoveredMonitorsCases(baseDirectory: string, files: set<string>, listing: Option<string>)
    ensures var ms := DiscoveredMonitors(baseDirectory, files, listing);
            var parsed := if listing.Some? then ParsedMonitors(listing.value) else [];
            && (FindDispwinExecutable(baseDirectory, files).None? || parsed == [] ==> ms == [PrimaryFallback])
            && (FindDispwinExecutable(baseDirectory, files).Some? && parsed != [] ==> ms == parsed)
  {
  }

  /** Every discovered monitor is working and numbered from 0 to the largest int, so the catalog is never empty. */
  lemma DiscoveredMonitorsBounds(baseDirectory: string, files: set<string>, listing: Option<string>)
    ensures forall m :: m in DiscoveredMonitors(baseDirectory, files, listing) ==> m.isWorking && 0 <= m.displayNumber <= MaxInt32
  {
    if listing.Some? {
      ParsedFromLinesBounds(SplitLines(listing.value));
    }
  }

  /** An empty listing gives the single fallback monitor. */
  lemma DiscoveryOfEmptyListing(baseDirectory: string, files: set<string>)
    ensures DiscoveredMonitors(baseDirectory, files, Some("")) == [PrimaryFallback]
  {
    assert SplitLines("") == [];
  }

  /** A line without a single quote is rejected: the pattern needs a quoted description. */
  lemma UnquotedLineRejected(line: string)
    requires '\'' !in line
    ensures ParseLine(line).None?
  {
    if ParseLine(line).Some? {
      ParseLineSound(line);
      RenderHasQuote(MatchListingLine(Trim(line)).value);
      TrimKeepsChars(line, '\'');
      assert false;
    }
  }

  /** A rendered listing line holds the quote that opens its description. */
  lemma RenderHasQuote(l: ListingLine)
    ensures '\'' in l.Render()
  {
    var rest := l.description + ("'" + l.tail);
    var t := l.Render();
    var at := |l.digits| + |l.gap1| + 1 + |l.gap2|;
    assert t == (l.digits + l.gap1 + "=" + l.gap2) + ("'" + rest);
    assert t[at] == '\'';
  }

  /**
   * A listing without any quoted description, such as a usage text that
   * names no display, leaves only the fallback monitor.
   */
  lemma UnquotedListingFallsBack(baseDirectory: string, files: set<string>, output: string)
    requires '\'' !in output
    ensures DiscoveredMonitors(baseDirectory, files, Some(output)) == [PrimaryFallback]
  {
    var lines := SplitLines(output);
    var rs := ParseLines(lines);
    forall i | 0 <= i < |rs|
      ensures rs[i].None?
    {
      ParseLinesAt(lines, i);
      if '\'' in lines[i] {
        SplitLinesChars(output, i, '\'');
      }
      UnquotedLineRejected(lines[i]);
    }
    CollectedAllNone(rs);
  }

  /** The monitor a well-formed listing line announces. */
  function Announced(l: ListingLine): MonitorInfo
    requires Printable(l)
  {
    MonitorInfo(DigitsValue(l.digits), MonitorName(DigitsValue(l.digits), l.description), true)
  }

  /** A listing line the tool can print on a line of its own, for a display number that fits an int. */
  predicate Printable(l: ListingLine)
  {
    && l.WellFormed() && (l.tail == [] || !IsWhiteSpace(l.tail[|l.tail| - 1]))
    && NoLineBreak(l.Render()) && DigitsValue(l.digits) <= MaxInt32
  }

  /** Indentation the tool may put in front of a listing line: white space within the line. */
  predicate Indent(pad: string)
  {
    AllWhiteSpace(pad) && NoLineBreak(pad)
  }

  /** The listing's lines, each rendered after its indentation. */
  function RenderAll(ls: seq<ListingLine>, pads: seq<string>): seq<string>
    requires |pads| == |ls|
  {
    seq(|ls|, i requires 0 <= i < |ls| => pads[i] + ls[i].Render())
  }

  /**
   * A listing of well-formed lines, one per display, each indented by its
   * own white space and separated by line breaks, gives exactly one monitor
   * per line, in the order of the lines.
   */
  lemma ParsedListing(ls: seq<ListingLine>, pads: seq<string>, separator: string)
    requires separator != [] && AllLineBreaks(separator)
    requires |pads| == |ls|
    requires forall i :: 0 <= i < |ls| ==> Printable(ls[i]) && Indent(pads[i])
    ensures var ms := ParsedMonitors(JoinLines(RenderAll(ls, pads), separator));
            |ms| == |ls| && forall i :: 0 <= i < |ls| ==> ms[i] == Announced(ls[i])
  {
    var lines := RenderAll(ls, pads);
    forall i | 0 <= i < |lines|
      ensures lines[i] != [] && NoLineBreak(lines[i]) && ParseLine(lines[i]) == Some(Announced(ls[i]))
    {
      PrintableLineParses(pads[i], ls[i]);
    }
    SplitJoinLines(lines, separator);
    var rs := ParseLines(lines);
    forall i | 0 <= i < |rs|
      ensures rs[i] == Some(Announced(ls[i]))
    {
      ParseLinesAt(lines, i);
    }
    CollectedAllSome(rs);
  }

  /** A printable listing line, after any indentation, yields the monitor it announces. */
  lemma PrintableLineParses(pad: string, l: ListingLine)
    requires Printable(l) && Indent(pad)
    ensures pad + l.Render() != [] && NoLineBreak(pad + l.Render())
    ensures ParseLine(pad + l.Render()) == Some(Announced(l))
  {
    var t := l.Render();
    assert pad + t + "" == pad + t;
    ParseLineAccepts(pad, l, "");
    assert forall k :: 0 <= k < |pad + t| ==> (pad + t)[k] == if k < |pad| then pad[k] else t[k - |pad|];
  }

  // ---------------------------------------------------- scope and menu

  /** Index of the first monitor with the given number (the search of FirstOrDefault). */
  function FirstWithNumber(monitors: seq<MonitorInfo>, n: int): (r: Option<nat>)
    ensures r.Some? ==> r.value < |monitors| && monitors[r.value].displayNumber == n
    ensures r.Some? ==> forall j :: 0 <= j < r.value ==> monitors[j].displayNumber != n
    ensures r.None? ==> forall j :: 0 <= j < |monitors| ==> monitors[j].displayNumber != n
  {
    if monitors == [] then None
    else if monitors[0].displayNumber == n then Some(0)
    else match FirstWithNumber(monitors[1..], n)
      case None => None
      case Some(i) => Some(i + 1)
  }

  /**
   * GetMonitorDisplayText: " (All Monitors)" for -1; the name of the first
   * monitor with the selected number when that number is positive; "" otherwise
   * (FirstOrDefault yields a default entry numbered 0 when nothing matches).
   */
  function MonitorDisplayText(selection: int, monitors: seq<MonitorInfo>): string
  {
    if selection == -1 then AllMonitorsScope
    else
      var selected := match FirstWithNumber(monitors, selection)
        case Some(i) => monitors[i]
        case None => MonitorInfo(0, "", false);
      if selected.displayNumber > 0 then " (" + selected.displayName + ")" else ""
  }

  /** The scope text in each of its three cases. */
  lemma MonitorDisplayTextCases(selection: int, monitors: seq<MonitorInfo>)
    ensures selection == -1 ==> MonitorDisplayText(selection, monitors) == AllMonitorsScope
    ensures selection > 0 && (exists i :: 0 <= i < |monitors| && monitors[i].displayNumber == selection) ==>
      exists i :: 0 <= i < |monitors| && monitors[i].displayNumber == selection
        && (forall j :: 0 <= j < i ==> monitors[j].displayNumber != selection)
        && MonitorDisplayText(selection, monitors) == " (" + monitors[i].displayName + ")"
    ensures selection != -1 && (selection <= 0 || forall i :: 0 <= i < |monitors| ==> monitors[i].displayNumber != selection) ==>
      MonitorDisplayText(selection, monitors) == ""
  {
    var r := FirstWithNumber(monitors, selection);
    if selection > 0 && r.Some? {
      var i := r.value;
      assert monitors[i].displayNumber == selection;
    }
  }

  /** Check marks of the "Apply to Monitor" menu: the "All Monitors" item, then one per monitor. */
  datatype MenuChecks = MenuChecks(allMonitors: bool, monitors: seq<bool>)

  /** The check marks AddMonitorSelectionMenu sets and RefreshMonitorMenu restores. */
  function MonitorMenuChecks(selection: int, monitors: seq<MonitorInfo>): (c: MenuChecks)
    ensures |c.monitors| == |monitors|
  {
    MenuChecks(selection == -1, NumberChecks(selection, monitors))
  }

  /** One check mark per monitor entry, in catalog order. */
  function NumberChecks(selection: int, monitors: seq<MonitorInfo>): (bs: seq<bool>)
    ensures |bs| == |monitors|
  {
    if monitors == [] then []
    else NumberChecks(selection, monitors[..|monitors| - 1]) + [monitors[|monitors| - 1].displayNumber == selection]
  }

  /** A monitor entry is checked exactly when its number is the selection; "All Monitors" exactly for -1. */
  lemma {:induction false} MenuChecksAt(selection: int, monitors: seq<MonitorInfo>, i: nat)
    requires i < |monitors|
    ensures MonitorMenuChecks(selection, monitors).allMonitors <==> selection == -1
    ensures MonitorMenuChecks(selection, monitors).monitors[i] <==> monitors[i].displayNumber == selection
  {
    var init := monitors[..|monitors| - 1];
    if i < |init| {
      MenuChecksAt(selection, init, i);
    }
  }

  function CountChecked(bs: seq<bool>): nat
  {
    if bs == [] then 0 else (if bs[0] then 1 else 0) + CountChecked(bs[1..])
  }

  predicate DistinctNumbers(monitors: seq<MonitorInfo>)
  {
    forall i, j :: 0 <= i < j < |monitors| ==> monitors[i].displayNumber != monitors[j].displayNumber
  }

  lemma {:induction false} CountCheckedNone(bs: seq<bool>)
    requires forall i :: 0 <= i < |bs| ==> !bs[i]
    ensures CountChecked(bs) == 0
  {
    if bs != [] {
      CountCheckedNone(bs[1..]);
    }
  }

  lemma {:induction false} CountCheckedOne(bs: seq<bool>, k: nat)
    requires k < |bs| && bs[k]
    requires forall i :: 0 <= i < |bs| && i != k ==> !bs[i]
    ensures CountChecked(bs) == 1
  {
    if k == 0 {
      CountCheckedNone(bs[1..]);
    } else {
      CountCheckedOne(bs[1..], k - 1);
    }
  }

  /**
   * With distinct, non-negative monitor numbers the menu shows one check mark
   * when the selection is -1 or a listed number, and none otherwise.
   */
  lemma MenuCheckCount(selection: int, monitors: seq<MonitorInfo>)
    requires DistinctNumbers(monitors)
    requires forall i :: 0 <= i < |monitors| ==> monitors[i].displayNumber >= 0
    ensures var c := MonitorMenuChecks(selection, monitors);
      (if c.allMonitors then 1 else 0) + CountChecked(c.monitors)
        == if selection == -1 || exists i :: 0 <= i < |monitors| && monitors[i].displayNumber == selection then 1 else 0
  {
    var c := MonitorMenuChecks(selection, monitors);
    var r := FirstWithNumber(monitors, selection);
    forall i | 0 <= i < |monitors|
      ensures c.monitors[i] <==> monitors[i].displayNumber == selection
    {
      MenuChecksAt(selection, monitors, i);
    }
    if r.Some? {
      CountCheckedOne(c.monitors, r.value);
    } else {
      CountCheckedNone(c.monitors);
    }
  }
}
