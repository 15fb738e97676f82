// The per-gate event log: one tab-separated line per event, appended to a file
// and parsed back at restart (internal/gate/events.go, internal/gate/eventstore.go).
module EventLog {
  import opened Maps
  import D = Decimal

  datatype Event = Event(gateID: string, kind: string, payload: string, at: int, fingerprint: string)

  // ---------- strings.Split with a one-character separator ----------

  function IndexOf(s: string, c: char): (i: nat)
    requires c in s
    ensures i < |s| && s[i] == c && c !in s[..i]
  {
    if s[0] == c then 0 else 1 + IndexOf(s[1..], c)
  }

  function Split(s: string, sep: char): seq<string>
    decreases |s|
  {
    if sep !in s then [s] else
    var i := IndexOf(s, sep);
    [s[..i]] + Split(s[i + 1..], sep)
  }

  lemma FirstSeparator(a: string, b: string, sep: char)
    requires sep !in a
    ensures sep in a + [sep] + b && IndexOf(a + [sep] + b, sep) == |a|
  {
    var s := a + [sep] + b;
    assert s[|a|] == sep;
    var i := IndexOf(s, sep);
    assert forall k :: 0 <= k < |a| ==> s[k] == a[k] && a[k] in a;
    assert forall k :: 0 <= k < i ==> s[k] == s[..i][k] && s[k] in s[..i];
  }

  lemma SplitFirst(a: string, b: string, sep: char)
    requires sep !in a
    ensures Split(a + [sep] + b, sep) == [a] + Split(b, sep)
  {
    var s := a + [sep] + b;
    FirstSeparator(a, b, sep);
    assert s[..|a|] == a && s[|a| + 1..] == b;
  }

  lemma {:induction false} SplitJoined(a: string, b: string, sep: char)
    ensures Split(a + [sep] + b, sep) == Split(a, sep) + Split(b, sep)
    decreases |a|
  {
    if sep !in a {
      SplitFirst(a, b, sep);
    } else {
      var i := IndexOf(a, sep);
      var first, rest := a[..i], a[i + 1..];
      calc {
        Split(a + [sep] + b, sep);
      ==  { assert a + [sep] + b == first + [sep] + (rest + [sep] + b); }
        Split(first + [sep] + (rest + [sep] + b), sep);
      ==  { SplitFirst(first, rest + [sep] + b, sep); }
        [first] + Split(rest + [sep] + b, sep);
      ==  { SplitJoined(rest, b, sep); }
        [first] + (Split(rest, sep) + Split(b, sep));
      ==
        ([first] + Split(rest, sep)) + Split(b, sep);
      ==
        Split(a, sep) + Split(b, sep);
      }
    }
  }

  lemma {:induction false} SplitParts(s: string, sep: char)
    ensures |Split(s, sep)| == 1 + multiset(s)[sep]
    ensures forall part, c :: part in Split(s, sep) && c in part ==> c != sep && c in s
    decreases |s|
  {
    if sep in s {
      var i := IndexOf(s, sep);
      SplitParts(s[i + 1..], sep);
      assert s == s[..i] + [sep] + s[i + 1..];
      assert multiset(s[..i])[sep] == 0;
    }
  }

  // ---------- The line format and its parser ----------

  function Line(e: Event): string {
    D.Print(e.at) + "\t" + e.gateID + "\t" + e.kind + "\t" + e.payload + "\t" + e.fingerprint
  }

  function Text(events: seq<Event>): string {
    if events == [] then "" else Line(events[0]) + "\n" + Text(events[1..])
  }

  // At most one event: blank lines, short lines and lines without a valid time
  // are skipped; fields beyond the fifth are ignored.
  function ParseLine(line: string): seq<Event> {
    if line == "" then [] else
    var parts := Split(line, '\t');
    if |parts| < 5 then [] else
    var at := D.ParseInt(parts[0]);
    if at.None? then [] else [Event(parts[1], parts[2], parts[3], at.value, parts[4])]
  }

  function ParseLines(lines: seq<string>): seq<Event> {
    if lines == [] then [] else ParseLine(lines[0]) + ParseLines(lines[1..])
  }

  function ParseLog(text: string): seq<Event> {
    ParseLines(Split(text, '\n'))
  }

  lemma {:induction false} ParseLinesConcat(a: seq<string>, b: seq<string>)
    ensures ParseLines(a + b) == ParseLines(a) + ParseLines(b)
  {
    if a == [] {
      assert a + b == b;
    } else {
      calc {
        ParseLines(a + b);
      ==  { assert (a + b)[0] == a[0] && (a + b)[1..] == a[1..] + b; }
        ParseLine(a[0]) + ParseLines(a[1..] + b);
      ==  { ParseLinesConcat(a[1..], b); }
        ParseLine(a[0]) + (ParseLines(a[1..]) + ParseLines(b));
      ==
        ParseLines(a) + ParseLines(b);
      }
    }
  }

  lemma ParseNextLine(lines: seq<string>, i: nat)
    requires i < |lines|
    ensures ParseLines(lines[..i + 1]) == ParseLines(lines[..i]) + ParseLine(lines[i])
  {
    ParseLinesConcat(lines[..i], [lines[i]]);
    assert lines[..i + 1] == lines[..i] + [lines[i]];
    assert ParseLines([lines[i]]) == ParseLine(lines[i]);
  }

  predicate Whole(text: string) {
    text == "" || text[|text| - 1] == '\n'
  }

  lemma ParseAfterNewline(text: string, a: string, b: string)
    requires text == a + ['\n'] + b
    ensures ParseLog(text) == ParseLog(a) + ParseLog(b)
  {
    SplitJoined(a, b, '\n');
    ParseLinesConcat(Split(a, '\n'), Split(b, '\n'));
  }

  lemma EmptyParses()
    ensures ParseLog("") == []
  {
    assert Split("", '\n') == [""];
  }

  lemma ParseAfterBoundary(a: string, b: string)
    requires a != "" && Whole(a)
    ensures ParseLog(a + b) == ParseLog(a[..|a| - 1]) + ParseLog(b)
  {
    var body := a[..|a| - 1];
    assert a + b == body + ['\n'] + b;
    ParseAfterNewline(a + b, body, b);
  }

  lemma LastNewlineIsIdle(a: string)
    requires a != "" && Whole(a)
    ensures ParseLog(a) == ParseLog(a[..|a| - 1])
  {
    var body := a[..|a| - 1];
    assert a == body + ['\n'] + "";
    ParseAfterNewline(a, body, "");
    EmptyParses();
  }

  // What precedes a line boundary never disturbs what follows, and the reverse.
  lemma ParseAppends(a: string, b: string)
    requires Whole(a)
    ensures ParseLog(a + b) == ParseLog(a) + ParseLog(b)
  {
    if a == "" {
      assert a + b == b;
      EmptyParses();
    } else {
      ParseAfterBoundary(a, b);
      LastNewlineIsIdle(a);
    }
  }

  // A complete line is read on its own, whatever it holds.
  lemma LineStandsAlone(line: string)
    requires '\n' !in line
    ensures ParseLog(line) == ParseLog(line + "\n") == ParseLine(line)
  {
    ParseAfterNewline(line + "\n", line, "");
    EmptyParses();
    assert Split(line, '\n') == [line];
  }

  // A complete line, however malformed, adds what it says by itself and leaves
  // the lines around it as they are.
  lemma NeighboursUndisturbed(a: string, line: string, b: string)
    requires Whole(a) && '\n' !in line
    ensures ParseLog(a + (line + "\n" + b)) == ParseLog(a) + (ParseLine(line) + ParseLog(b))
  {
    ParseAppends(a, line + "\n" + b);
    ParseAppends(line + "\n", b);
    LineStandsAlone(line);
  }

  // ---------- Round trip ----------

  predicate Plain(s: string) {
    '\t' !in s && '\n' !in s
  }

  predicate Clean(e: Event) {
    Plain(e.gateID) && Plain(e.kind) && Plain(e.payload) && Plain(e.fingerprint) && D.Int64(e.at)
  }

  // Everything of a line before its fingerprint.
  function Head(e: Event): string {
    D.Print(e.at) + "\t" + e.gateID + "\t" + e.kind + "\t" + e.payload
  }

  lemma FourTabs(a: string, b: string, c: string, d: string, rest: string)
    requires '\t' !in a && '\t' !in b && '\t' !in c && '\t' !in d
    ensures Split(a + "\t" + b + "\t" + c + "\t" + d + "\t" + rest, '\t') == [a, b, c, d] + Split(rest, '\t')
  {
    var t3 := d + ['\t'] + rest;
    var t2 := c + ['\t'] + t3;
    var t1 := b + ['\t'] + t2;
    calc {
      Split(a + "\t" + b + "\t" + c + "\t" + d + "\t" + rest, '\t');
    ==  { assert a + "\t" + b + "\t" + c + "\t" + d + "\t" + rest == a + ['\t'] + t1; }
      Split(a + ['\t'] + t1, '\t');
    ==  { SplitFirst(a, t1, '\t'); }
      [a] + Split(t1, '\t');
    ==  { SplitFirst(b, t2, '\t'); }
      [a] + ([b] + Split(t2, '\t'));
    ==  { SplitFirst(c, t3, '\t'); }
      [a] + ([b] + ([c] + Split(t3, '\t')));
    ==  { SplitFirst(d, rest, '\t'); }
      [a] + ([b] + ([c] + ([d] + Split(rest, '\t'))));
    ==
      [a, b, c, d] + Split(rest, '\t');
    }
  }

  lemma LineFields(e: Event)
    requires Clean(e)
    ensures Split(Line(e), '\t') == [D.Print(e.at), e.gateID, e.kind, e.payload, e.fingerprint]
  {
    D.PrintIsPlain(e.at);
    FourTabs(D.Print(e.at), e.gateID, e.kind, e.payload, e.fingerprint);
  }

  // A line with its fingerprint cut short still gives the event.
  lemma HeadParses(e: Event, fingerprint: string)
    requires Clean(e) && '\t' !in fingerprint
    ensures ParseLine(Head(e) + "\t" + fingerprint) == [e.(fingerprint := fingerprint)]
  {
    D.PrintThenParse(e.at);
    D.PrintIsPlain(e.at);
    FourTabs(D.Print(e.at), e.gateID, e.kind, e.payload, fingerprint);
  }

  lemma LineIsPlain(e: Event)
    requires Clean(e)
    ensures '\n' !in Line(e) && ParseLine(Line(e)) == [e]
  {
    D.PrintIsPlain(e.at);
    HeadParses(e, e.fingerprint);
  }

  lemma LogGrowsByOne(log: string, e: Event)
    requires Whole(log) && Clean(e)
    ensures ParseLog(log + (Line(e) + "\n")) == ParseLog(log) + [e]
    ensures Whole(log + (Line(e) + "\n"))
  {
    LineIsPlain(e);
    ParseAppends(log, Line(e) + "\n");
    LineStandsAlone(Line(e));
  }

  // Whatever is in a file, what comes out of it could be written back.
  lemma {:induction false} ParsedLinesAreClean(lines: seq<string>)
    requires forall line :: line in lines ==> '\n' !in line
    ensures forall e :: e in ParseLines(lines) ==> Clean(e)
  {
    if lines != [] {
      ParsedLinesAreClean(lines[1..]);
      SplitParts(lines[0], '\t');
      var parts := Split(lines[0], '\t');
      forall e | e in ParseLine(lines[0]) ensures Clean(e) {
        assert parts[1] in parts && parts[2] in parts && parts[3] in parts && parts[4] in parts;
      }
    }
  }

  lemma ParsedIsClean(text: string)
    ensures forall e :: e in ParseLog(text) ==> Clean(e)
  {
    SplitParts(text, '\n');
    ParsedLinesAreClean(Split(text, '\n'));
  }

  lemma FirstEventParses(e: Event, rest: string)
    requires Clean(e)
    ensures ParseLog(Line(e) + "\n" + rest) == [e] + ParseLog(rest)
  {
    LineIsPlain(e);
    LineStandsAlone(Line(e));
    ParseAppends(Line(e) + "\n", rest);
  }

  lemma {:induction false} CleanLogParses(events: seq<Event>)
    requires forall e :: e in events ==> Clean(e)
    ensures ParseLog(Text(events)) == events
  {
    if events == [] {
      EmptyParses();
    } else {
      CleanLogParses(events[1..]);
      FirstEventParses(events[0], Text(events[1..]));
      assert [events[0]] + events[1..] == events;
    }
  }

  // The log gives back exactly the recorded events if and only if no field holds
  // a separator and every time fits 64 bits.
  lemma RoundTrip(events: seq<Event>)
    ensures ParseLog(Text(events)) == events <==> forall e :: e in events ==> Clean(e)
  {
    ParsedIsClean(Text(events));
    if forall e :: e in events ==> Clean(e) {
      CleanLogParses(events);
    }
  }

  // ---------- Torn tail ----------

  // `got` is a prefix of `events`, except that its last fingerprint may be cut.
  predicate TornPrefix(got: seq<Event>, events: seq<Event>) {
    && |got| <= |events|
    && (forall i :: 0 <= i < |got| - 1 ==> got[i] == events[i])
    && (got != [] ==>
          var last := |got| - 1;
          && got[last].fingerprint <= events[last].fingerprint
          && got[last] == events[last].(fingerprint := got[last].fingerprint))
  }

  lemma TornLine(e: Event, cut: nat)
    requires Clean(e) && cut <= |Line(e)|
    ensures '\n' !in Line(e)[..cut]
    ensures ParseLine(Line(e)[..cut]) ==
            if cut <= |Head(e)| then [] else [e.(fingerprint := e.fingerprint[..cut - |Head(e)| - 1])]
  {
    LineIsPlain(e);
    var torn := Line(e)[..cut];
    assert Line(e) == Head(e) + "\t" + e.fingerprint;
    if cut <= |Head(e)| {
      assert Head(e) == torn + Head(e)[cut..];
      ThreeTabs(e);
      SplitParts(torn, '\t');
    } else {
      var rest := e.fingerprint[..cut - |Head(e)| - 1];
      assert torn == Head(e) + "\t" + rest;
      HeadParses(e, rest);
    }
  }

  lemma ThreeTabs(e: Event)
    requires Clean(e)
    ensures multiset(Head(e))['\t'] == 3
  {
    D.PrintIsPlain(e.at);
    FourTabs(D.Print(e.at), e.gateID, e.kind, e.payload, "");
    SplitParts(Head(e) + "\t" + "", '\t');
    assert Head(e) + "\t" + "" == Head(e) + "\t";
    assert Split("", '\t') == [""];
  }

  // Every event whose line is complete before the cut is in `got`.
  predicate CompleteLinesIn(events: seq<Event>, cut: nat, got: seq<Event>) {
    forall n :: 0 <= n <= |events| && |Text(events[..n])| <= cut ==> events[..n] <= got
  }

  lemma FirstLineIsIn(events: seq<Event>, n: nat)
    requires 0 < n <= |events|
    ensures Line(events[0]) + "\n" <= Text(events[..n])
  {
    assert events[..n][0] == events[0];
  }

  lemma TornStart(events: seq<Event>, cut: nat)
    requires events != [] && Clean(events[0]) && cut <= |Line(events[0])|
    ensures cut <= |Text(events)| && ParseLog(Text(events)[..cut]) == ParseLine(Line(events[0])[..cut])
  {
    var line := Line(events[0]);
    LineIsPlain(events[0]);
    FirstLineIsIn(events, |events|);
    assert events[..|events|] == events;
    assert Text(events)[..cut] == line[..cut];
    LineStandsAlone(line[..cut]);
  }

  lemma TornFirstLine(events: seq<Event>, cut: nat)
    requires events != [] && Clean(events[0]) && cut <= |Line(events[0])|
    ensures cut <= |Text(events)| && TornPrefix(ParseLog(Text(events)[..cut]), events)
    ensures CompleteLinesIn(events, cut, ParseLog(Text(events)[..cut]))
  {
    var e := events[0];
    TornStart(events, cut);
    assert TornPrefix(ParseLine(Line(e)[..cut]), events) by {
      TornLine(e, cut);
    }
    forall n | 0 < n <= |events| ensures |Text(events[..n])| > cut {
      FirstLineIsIn(events, n);
    }
  }

  lemma TornLaterLine(events: seq<Event>, cut: nat)
    requires events != [] && Clean(events[0]) && |Line(events[0])| < cut <= |Text(events)|
    ensures var skip := |Line(events[0])| + 1;
            ParseLog(Text(events)[..cut]) == [events[0]] + ParseLog(Text(events[1..])[..cut - skip])
  {
    var skip := |Line(events[0])| + 1;
    var tail := Text(events[1..])[..cut - skip];
    FirstEventParses(events[0], tail);
    assert Text(events)[..cut] == Line(events[0]) + "\n" + tail;
  }

  lemma TornPrefixGrows(events: seq<Event>, cut: nat, got: seq<Event>)
    requires events != [] && cut > |Line(events[0])|
    requires TornPrefix(got, events[1..])
    requires CompleteLinesIn(events[1..], cut - |Line(events[0])| - 1, got)
    ensures TornPrefix([events[0]] + got, events)
    ensures CompleteLinesIn(events, cut, [events[0]] + got)
  {
    var first, rest := events[0], events[1..];
    forall n | 0 <= n <= |events| && |Text(events[..n])| <= cut
      ensures events[..n] <= [first] + got
    {
      if n > 0 {
        assert events[..n][0] == first && events[..n][1..] == rest[..n - 1];
        assert rest[..n - 1] <= got;
        assert events[..n] == [first] + rest[..n - 1];
      }
    }
  }

  // Cut anywhere, a log of well-formed lines yields every event whose line is
  // complete and at most one more, that one with a cut fingerprint.
  lemma {:induction false} TornTail(events: seq<Event>, cut: nat)
    requires forall e :: e in events ==> Clean(e)
    requires cut <= |Text(events)|
    ensures TornPrefix(ParseLog(Text(events)[..cut]), events)
    ensures CompleteLinesIn(events, cut, ParseLog(Text(events)[..cut]))
  {
    if events == [] {
      EmptyParses();
      assert Text(events)[..cut] == "";
    } else if cut <= |Line(events[0])| {
      TornFirstLine(events, cut);
    } else {
      var rest, left := events[1..], cut - |Line(events[0])| - 1;
      TornTail(rest, left);
      TornLaterLine(events, cut);
      TornPrefixGrows(events, cut, ParseLog(Text(rest)[..left]));
    }
  }

  // ---------- A line written after a torn one ----------

  // The field a cut falls in, counted from zero: the number of tabs before it.
  function FieldOfCut(e: Event, cut: nat): nat
    requires cut <= |Line(e)|
  {
    multiset(Line(e)[..cut])['\t']
  }

  lemma TabsAdd(a: string, b: string)
    ensures multiset(a + b)['\t'] == multiset(a)['\t'] + multiset(b)['\t']
  {
  }

  lemma LastFieldCut(e: Event, cut: nat)
    requires Clean(e) && cut <= |Line(e)|
    ensures if cut <= |Head(e)| then FieldOfCut(e, cut) <= 3 else FieldOfCut(e, cut) >= 4
  {
    var head, torn := Head(e), Line(e)[..cut];
    assert Line(e) == head + ("\t" + e.fingerprint);
    ThreeTabs(e);
    if cut <= |head| {
      assert head == torn + head[cut..];
      TabsAdd(torn, head[cut..]);
    } else {
      var rest := e.fingerprint[..cut - |head| - 1];
      assert torn == head + ("\t" + rest);
      TabsAdd(head, "\t" + rest);
      TabsAdd("\t", rest);
    }
  }

  // Two lists of parts, the last of the first joined with the first of the second.
  function Join(a: seq<string>, b: seq<string>): seq<string>
    requires a != [] && b != []
  {
    a[..|a| - 1] + ([a[|a| - 1] + b[0]] + b[1..])
  }

  lemma JoinAfter(first: string, a: seq<string>, b: seq<string>)
    requires a != [] && b != []
    ensures Join([first] + a, b) == [first] + Join(a, b)
  {
    assert ([first] + a)[..|a|] == [first] + a[..|a| - 1];
  }

  lemma SplitNotEmpty(s: string, sep: char)
    ensures Split(s, sep) != []
  {
  }

  // Joining two texts joins the last part of one with the first of the other.
  lemma {:induction false} SplitConcat(a: string, b: string, sep: char)
    ensures Split(a, sep) != [] && Split(b, sep) != [] && Split(a + b, sep) == Join(Split(a, sep), Split(b, sep))
    decreases |a|
  {
    SplitNotEmpty(a, sep);
    SplitNotEmpty(b, sep);
    if sep !in a {
      SplitPlainFront(a, b, sep);
      assert Split(a, sep) == [a] && [a][..0] == [];
    } else {
      var i := IndexOf(a, sep);
      var first, rest := a[..i], a[i + 1..];
      calc {
        Split(a + b, sep);
      ==  { assert a + b == first + [sep] + (rest + b); }
        Split(first + [sep] + (rest + b), sep);
      ==  { SplitFirst(first, rest + b, sep); }
        [first] + Split(rest + b, sep);
      ==  { SplitConcat(rest, b, sep); }
        [first] + Join(Split(rest, sep), Split(b, sep));
      ==  { SplitNotEmpty(rest, sep); JoinAfter(first, Split(rest, sep), Split(b, sep)); }
        Join([first] + Split(rest, sep), Split(b, sep));
      ==
        Join(Split(a, sep), Split(b, sep));
      }
    }
  }

  lemma SplitPlainFront(a: string, b: string, sep: char)
    requires sep !in a
    ensures Split(b, sep) != [] && Split(a + b, sep) == [a + Split(b, sep)[0]] + Split(b, sep)[1..]
  {
    if sep !in b {
      assert sep !in a + b;
    } else {
      var i := IndexOf(b, sep);
      var first, rest := b[..i], b[i + 1..];
      assert b == first + [sep] + rest && a + b == (a + first) + [sep] + rest;
      SplitFirst(first, rest, sep);
      SplitFirst(a + first, rest, sep);
    }
  }

  // A cut text has its parts up to the cut, the last one cut short.
  lemma SplitPrefix(s: string, cut: nat, sep: char)
    requires cut <= |s|
    ensures var parts, got := Split(s, sep), Split(s[..cut], sep);
            0 < |got| <= |parts| && got[..|got| - 1] == parts[..|got| - 1] && got[|got| - 1] <= parts[|got| - 1]
  {
    SplitConcat(s[..cut], s[cut..], sep);
    assert s == s[..cut] + s[cut..];
  }

  function Fields(e: Event): seq<string> {
    [D.Print(e.at), e.gateID, e.kind, e.payload, e.fingerprint]
  }

  // The fields of the line that a whole line makes of a torn one: those before
  // the cut, the cut one run into the new time, and the rest of the new line.
  function GluedFields(last: string, field: nat, e0: Event, e: Event): seq<string>
    requires field <= 4
  {
    Fields(e0)[..field] + ([last + D.Print(e.at)] + Fields(e)[1..])
  }

  lemma GluedSplit(e0: Event, cut: nat, e: Event) returns (last: string)
    requires Clean(e0) && Clean(e) && cut <= |Line(e0)|
    ensures var torn, field := Line(e0)[..cut], FieldOfCut(e0, cut);
            && field <= 4 && last <= Fields(e0)[field] && (field == 0 ==> last == torn)
            && Split(torn + Line(e), '\t') == GluedFields(last, field, e0, e)
  {
    var torn, field := Line(e0)[..cut], FieldOfCut(e0, cut);
    LineFields(e0);
    LineFields(e);
    SplitPrefix(Line(e0), cut, '\t');
    SplitParts(torn, '\t');
    SplitConcat(torn, Line(e), '\t');
    last := Split(torn, '\t')[field];
    if field == 0 {
      assert '\t' !in torn;
    }
  }

  // What a line appended to a torn one adds, by the field the cut fell in: its
  // own kind counts only if the time still reads; after that the kind is read
  // off its gate, off a text that ends in a digit, or off the torn line.
  predicate GluedKindIs(kind: string, torn: string, field: nat, e0: Event, e: Event) {
    match field
    case 0 => D.ParseInt(torn + D.Print(e.at)).Some? && e.kind == kind
    case 1 => e.gateID == kind
    case 2 => false
    case _ => e0.kind == kind
  }

  // The kinds that are told apart from any text ending in a digit.
  predicate EndsInLetter(kind: string) {
    kind != "" && !D.IsDigit(kind[|kind| - 1])
  }

  lemma PrintEndsInDigit(last: string, v: int)
    ensures var s := last + D.Print(v); s != "" && D.IsDigit(s[|s| - 1])
  {
    D.DigitsRead(if v < 0 then -v else v);
    assert D.Print(v)[|D.Print(v)| - 1] in D.Digits(if v < 0 then -v else v);
  }

  lemma ParseOfFields(line: string, fields: seq<string>)
    requires line != "" && |fields| >= 5 && Split(line, '\t') == fields
    ensures var got := ParseLine(line);
            && |got| <= 1 && (got != [] <==> D.ParseInt(fields[0]).Some?)
            && (got != [] ==> got[0].kind == fields[2])
  {
  }

  lemma GluedAt(last: string, field: nat, e0: Event, e: Event)
    requires field <= 4
    ensures var fields := GluedFields(last, field, e0, e);
            && |fields| == field + 5
            && fields[0] == (if field == 0 then last + D.Print(e.at) else D.Print(e0.at))
            && fields[2] == match field
                            case 0 => e.kind
                            case 1 => e.gateID
                            case 2 => last + D.Print(e.at)
                            case _ => e0.kind
  {
  }

  // The line parses to at most one event, and of the given kind exactly when the
  // fields say so.
  lemma GluedLine(e0: Event, cut: nat, e: Event, kind: string)
    requires Clean(e0) && Clean(e) && cut <= |Line(e0)| && EndsInLetter(kind)
    ensures var line := Line(e0)[..cut] + Line(e);
            && FieldOfCut(e0, cut) <= 4
            && '\n' !in line && |ParseLine(line)| <= 1
            && (ParseLine(line) != [] && ParseLine(line)[0].kind == kind
                <==> GluedKindIs(kind, Line(e0)[..cut], FieldOfCut(e0, cut), e0, e))
  {
    PlainTogether(e0, cut, e);
    var last := GluedSplit(e0, cut, e);
    var field := FieldOfCut(e0, cut);
    GluedAt(last, field, e0, e);
    D.PrintThenParse(e0.at);
    PrintEndsInDigit(last, e.at);
    ParseOfFields(Line(e0)[..cut] + Line(e), GluedFields(last, field, e0, e));
  }

  lemma PlainTogether(e0: Event, cut: nat, e: Event)
    requires Clean(e0) && Clean(e) && cut <= |Line(e0)|
    ensures var line := Line(e0)[..cut] + Line(e); line != "" && '\n' !in line
  {
    LineIsPlain(e0);
    LineIsPlain(e);
    assert Line(e) != "" by {
      assert ParseLine("") == [];
    }
  }

  // ---------- The files ----------

  // How one append fares: opening, how much is written and with what verdict,
  // closing.
  datatype Disk = Disk(opens: bool, written: nat, writes: bool, closes: bool)

  // How much of a line reaches the file.
  function Landed(d: Disk, line: string): nat {
    if d.written <= |line| then d.written else |line|
  }

  datatype Handle = Handle(number: nat, gateID: string)

  class EventFileStore {
    var files: map<string, string>
    var handles: map<string, Handle>
    var nextHandle: nat

    constructor ()
      ensures files == map[] && handles == map[]
    {
      files, handles, nextHandle := map[], map[], 0;
    }

    // The text of a gate's file; a missing file reads as empty.
    function Log(gateID: string): string
      reads this
    {
      if gateID in files then files[gateID] else ""
    }

    method OpenForAppend(gateID: string, d: Disk) returns (handle: Option<Handle>)
      modifies this
      ensures handle.Some? == d.opens
      ensures !d.opens ==> files == old(files) && handles == old(handles)
      ensures d.opens ==>
        && handle.value.gateID == gateID
        && handles == old(handles)[gateID := handle.value]
        && files == old(files)[gateID := old(Log(gateID))]
    {
      if !d.opens {
        return None;
      }
      if gateID !in files {
        files := files[gateID := ""];
      }
      nextHandle := nextHandle + 1;
      var h := Handle(nextHandle, gateID);
      handles := handles[gateID := h];
      assert files == old(files)[gateID := old(Log(gateID))];
      return Some(h);
    }

    method AppendLine(handle: Handle, line: string, d: Disk) returns (ok: bool)
      requires handle.gateID in files
      modifies this`files
      ensures var n := Landed(d, line);
              && files == old(files)[handle.gateID := old(files)[handle.gateID] + line[..n]]
              && ok == (d.writes && n == |line|)
    {
      var n := Landed(d, line);
      files := files[handle.gateID := files[handle.gateID] + line[..n]];
      if !d.writes {
        return false;
      }
      return n == |line|;
    }

    method CloseHandle(gateID: string, d: Disk) returns (ok: bool)
      modifies this`handles
      ensures handles == old(handles) - {gateID}
      ensures ok == (old(gateID !in handles) || d.closes)
    {
      if gateID !in handles {
        return true;
      }
      handles := handles - {gateID};
      return d.closes;
    }

    method Events(gateID: string) returns (events: seq<Event>)
      ensures events == ParseLog(Log(gateID))
    {
      EmptyParses();
      if gateID !in files {
        return [];
      }
      events := [];
      var lines := Split(files[gateID], '\n');
      for i := 0 to |lines|
        invariant events == ParseLines(lines[..i])
      {
        ParseNextLine(lines, i);
        if lines[i] != "" {
          var parts := Split(lines[i], '\t');
          if |parts| >= 5 {
            var at := D.ParseInt(parts[0]);
            if at.Some? {
              events := events + [Event(parts[1], parts[2], parts[3], at.value, parts[4])];
            }
          }
        }
      }
      assert lines[..|lines|] == lines;
    }
  }

  class EventRecorder {
    const store: EventFileStore?

    constructor (store: EventFileStore?)
      ensures this.store == store
    {
      this.store := store;
    }

    // Appends one line and leaves no handle behind, on every path that opened one.
    method Record(e: Event, d: Disk) returns (ok: bool)
      modifies store
      ensures store == null ==> ok
      ensures store != null ==>
        && ok == (d.opens && d.writes && d.written >= |Line(e) + "\n"| && d.closes)
        && (d.opens ==> store.handles == old(store.handles) - {e.gateID})
        && (!d.opens ==> store.handles == old(store.handles) && store.files == old(store.files))
        && (forall g :: g != e.gateID ==> store.Log(g) == old(store.Log(g)))
        && (d.opens ==>
              store.Log(e.gateID) == old(store.Log(e.gateID)) + (Line(e) + "\n")[..Landed(d, Line(e) + "\n")])
      ensures store != null && ok ==> store.Log(e.gateID) == old(store.Log(e.gateID)) + (Line(e) + "\n")
      ensures store != null && ok && Clean(e) && old(Whole(store.Log(e.gateID))) ==>
        && Whole(store.Log(e.gateID))
        && ParseLog(store.Log(e.gateID)) == old(ParseLog(store.Log(e.gateID))) + [e]
    {
      if store == null {
        return true;
      }
      ghost var before := store.Log(e.gateID);
      if Clean(e) && Whole(before) {
        LogGrowsByOne(before, e);
      }
      var line := Line(e) + "\n";
      var handle := store.OpenForAppend(e.gateID, d);
      if handle.None? {
        return false;
      }
      var appended := store.AppendLine(handle.value, line, d);
      assert line[..|line|] == line;
      var closed := store.CloseHandle(e.gateID, d);
      return appended && closed;
    }
  }
}
