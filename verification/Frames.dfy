/** The text of the event stream: how internal/channels/demohttp/sse.go prints events and
    how web/widget/kontor.js takes the text apart again. */
module Frames {
  import opened Domain
  import opened Decimals

  datatype Event = Event(id: nat, kind: string, payload: string)

  // ---- breaking text at blank lines ----

  predicate BreakAt(s: string, i: nat) {
    i + 1 < |s| && s[i] == '\n' && s[i + 1] == '\n'
  }

  /** The first blank line at or after position `i`; |s| when there is none. */
  function FindBreak(s: string, i: nat): (k: nat)
    requires i <= |s|
    ensures i <= k <= |s|
    ensures k < |s| ==> BreakAt(s, k)
    ensures forall j :: i <= j < k ==> !BreakAt(s, j)
    decreases |s| - i
  {
    if i == |s| || BreakAt(s, i) then i else FindBreak(s, i + 1)
  }

  datatype Split = Split(frames: seq<string>, rest: string)

  /** buffer.split at blank lines: complete frames, and what is left in the buffer. */
  function Broken(s: string): Split
    decreases |s|
  {
    var k := FindBreak(s, 0);
    if k == |s| then Split([], s)
    else
      var more := Broken(s[k + 2..]);
      Split([s[..k]] + more.frames, more.rest)
  }

  lemma BreakInPrefix(x: string, y: string)
    ensures FindBreak(x, 0) < |x| ==> FindBreak(x + y, 0) == FindBreak(x, 0)
  {
    var k := FindBreak(x, 0);
    if k < |x| {
      assert forall j | 0 <= j < k :: BreakAt(x, j) == BreakAt(x + y, j);
      assert BreakAt(x + y, k);
    }
  }

  /** Splitting what has arrived and later the rest with what follows is splitting it all. */
  lemma {:induction false} ChunksDoNotMatter(x: string, y: string)
    ensures Broken(x + y) == Split(Broken(x).frames + Broken(Broken(x).rest + y).frames, Broken(Broken(x).rest + y).rest)
    decreases |x|
  {
    hide Broken, BreakAt;
    var k := FindBreak(x, 0);
    BreakInPrefix(x, y);
    FramesStep(x);
    if k < |x| {
      BreakHasTwo(x, k);
      FramesStep(x + y);
      assert (x + y)[k + 2..] == x[k + 2..] + y;
      assert (x + y)[..k] == x[..k];
      ChunksDoNotMatter(x[k + 2..], y);
    }
  }

  lemma BreakHasTwo(s: string, k: nat)
    requires BreakAt(s, k)
    ensures k + 1 < |s|
  {
  }

  lemma {:induction false} FramesStep(s: string)
    ensures var k := FindBreak(s, 0);
            if k == |s| then Broken(s) == Split([], s)
            else BreakAt(s, k) && Broken(s) == Split([s[..k]] + Broken(s[k + 2..]).frames, Broken(s[k + 2..]).rest)
  {
    hide FindBreak;
  }

  /** No blank line inside, even with the one that ends the frame. */
  ghost predicate Whole(body: string) {
    forall i :: 0 <= i <= |body| ==> !BreakAt(body + "\n", i)
  }

  lemma BodyEndsAtBreak(body: string, text: string)
    requires Whole(body)
    ensures FindBreak(body + "\n\n" + text, 0) == |body|
  {
    var all := body + "\n\n" + text;
    forall j | 0 <= j < |body|
      ensures !BreakAt(all, j)
    {
      assert !BreakAt(body + "\n", j);
      assert all[j] == (body + "\n")[j] && all[j + 1] == (body + "\n")[j + 1];
    }
    assert BreakAt(all, |body|);
  }

  function StreamText(bodies: seq<string>): string {
    if bodies == [] then "" else bodies[0] + "\n\n" + StreamText(bodies[1..])
  }

  /** A stream of whole frames comes apart into exactly those frames. */
  lemma {:induction false} FramesOfText(bodies: seq<string>)
    requires forall i :: 0 <= i < |bodies| ==> Whole(bodies[i])
    ensures Broken(StreamText(bodies)) == Split(bodies, "")
  {
    hide Broken, Whole;
    if bodies == [] {
      FramesStep("");
    } else {
      FirstFrame(bodies[0], StreamText(bodies[1..]));
      FramesOfText(bodies[1..]);
      assert bodies == [bodies[0]] + bodies[1..];
    }
  }

  lemma FirstFrame(body: string, text: string)
    requires Whole(body)
    ensures Broken(body + "\n\n" + text) == Split([body] + Broken(text).frames, Broken(text).rest)
  {
    hide Broken, Whole;
    var all := body + "\n\n" + text;
    BodyEndsAtBreak(body, text);
    FramesStep(all);
    assert all[..|body|] == body;
    assert all[|body| + 2..] == text;
  }

  // ---- lines and fields ----

  predicate OneLine(s: string) {
    forall i :: 0 <= i < |s| ==> s[i] != '\n'
  }

  function FindNewline(s: string, i: nat): (k: nat)
    requires i <= |s|
    ensures i <= k <= |s|
    ensures k < |s| ==> s[k] == '\n'
    ensures forall j :: i <= j < k ==> s[j] != '\n'
    decreases |s| - i
  {
    if i == |s| || s[i] == '\n' then i else FindNewline(s, i + 1)
  }

  /** frame.split at newlines. */
  function Lines(s: string): seq<string>
    decreases |s|
  {
    var k := FindNewline(s, 0);
    if k == |s| then [s] else [s[..k]] + Lines(s[k + 1..])
  }

  lemma LinesOfJoined(line: string, rest: string)
    requires OneLine(line)
    ensures Lines(line + "\n" + rest) == [line] + Lines(rest)
  {
    var all := line + "\n" + rest;
    assert all[|line|] == '\n';
    assert forall j | 0 <= j < |line| :: all[j] == line[j];
    assert FindNewline(all, 0) == |line|;
    assert all[..|line|] == line && all[|line| + 1..] == rest;
  }

  lemma LinesOfOne(line: string)
    requires OneLine(line)
    ensures Lines(line) == [line]
  {
  }

  predicate IsSpace(c: char) {
    c in {' ', '\t', '\n', '\r', '\U{000B}', '\U{000C}', '\U{00A0}', '\U{FEFF}'}
  }

  function TrimLeft(s: string): string {
    if s != "" && IsSpace(s[0]) then TrimLeft(s[1..]) else s
  }

  function TrimRight(s: string): string {
    if s != "" && IsSpace(s[|s| - 1]) then TrimRight(s[..|s| - 1]) else s
  }

  function Trim(s: string): string {
    TrimRight(TrimLeft(s))
  }

  lemma TrimSkipsSpace(s: string)
    ensures Trim(" " + s) == Trim(s)
  {
    assert (" " + s)[1..] == s;
  }

  lemma TrimmedDigits(s: string)
    requires s != "" && AllDigits(s)
    ensures Trim(s) == s
  {
    assert IsDigit(s[0]) && IsDigit(s[|s| - 1]);
  }

  predicate StartsWith(s: string, prefix: string) {
    |prefix| <= |s| && s[..|prefix|] == prefix
  }

  function DigitPrefix(s: string): string {
    if s != "" && IsDigit(s[0]) then [s[0]] + DigitPrefix(s[1..]) else ""
  }

  lemma {:induction false} DigitPrefixOfDigits(s: string)
    requires AllDigits(s)
    ensures DigitPrefix(s) == s
  {
    if s != "" {
      assert AllDigits(s[1..]);
      DigitPrefixOfDigits(s[1..]);
      assert s == [s[0]] + s[1..];
    }
  }

  lemma {:induction false} DigitPrefixIsDigits(s: string)
    ensures AllDigits(DigitPrefix(s))
  {
    if s != "" && IsDigit(s[0]) { DigitPrefixIsDigits(s[1..]); }
  }

  /** parseInt of a trimmed text, None for what is not a number: leading digits count. */
  function ParseInt(s: string): Option<int> {
    var negative := StartsWith(s, "-");
    var digits := DigitPrefix(if negative || StartsWith(s, "+") then s[1..] else s);
    DigitPrefixIsDigits(if negative || StartsWith(s, "+") then s[1..] else s);
    if digits == "" then None else Some(if negative then -(Value(digits) as int) else Value(digits))
  }

  lemma ParseIntOfPrint(n: nat)
    ensures ParseInt(Print(n)) == Some(n)
  {
    PrintIsDigits(n);
    assert IsDigit(Print(n)[0]);
    DigitPrefixOfDigits(Print(n));
  }

  // ---- one frame ----

  function WithoutNewlines(s: string): string {
    if s == "" then "" else (if s[0] == '\n' then "" else [s[0]]) + WithoutNewlines(s[1..])
  }

  function Body(e: Event): string {
    "id: " + Print(e.id) + "\nevent: " + e.kind + "\ndata: " + WithoutNewlines(e.payload)
  }

  /** What a frame says, as handleFrame collects it. */
  datatype Fields = Fields(id: Option<int>, kind: string, data: string)

  function ReadLine(f: Fields, line: string): Fields {
    if StartsWith(line, "id:") then f.(id := ParseInt(Trim(line[3..])))
    else if StartsWith(line, "event:") then f.(kind := Trim(line[6..]))
    else if StartsWith(line, "data:") then f.(data := f.data + Trim(line[5..]))
    else f
  }

  function ReadLines(f: Fields, lines: seq<string>): Fields
    decreases |lines|
  {
    if lines == [] then f else ReadLines(ReadLine(f, lines[0]), lines[1..])
  }

  function Read(frame: string): Fields {
    ReadLines(Fields(None, "message", ""), Lines(frame))
  }

  /** Newlines drop out, and everything between them stays. */
  lemma {:induction false} NewlinesDropOut(a: string, b: string)
    ensures WithoutNewlines(a + "\n" + b) == WithoutNewlines(a) + WithoutNewlines(b)
  {
    var all := a + "\n" + b;
    if a == "" {
      assert all[1..] == b;
    } else {
      assert all[1..] == a[1..] + "\n" + b;
      NewlinesDropOut(a[1..], b);
    }
  }

  lemma {:induction false} WithoutNewlinesIsOneLine(s: string)
    ensures OneLine(WithoutNewlines(s)) && |WithoutNewlines(s)| <= |s|
    ensures WithoutNewlines(s) == s <==> OneLine(s)
    ensures OneLine(s) || |WithoutNewlines(s)| < |s|
  {
    if s != "" {
      WithoutNewlinesIsOneLine(s[1..]);
      assert s == [s[0]] + s[1..];
      assert OneLine(s) <==> s[0] != '\n' && OneLine(s[1..]);
    }
  }

  lemma DigitsAreOneLine(n: nat)
    ensures OneLine(Print(n))
  {
    PrintIsDigits(n);
  }

  lemma BodyLines(e: Event)
    requires OneLine(e.kind)
    ensures Lines(Body(e)) == ["id: " + Print(e.id), "event: " + e.kind, "data: " + WithoutNewlines(e.payload)]
  {
    var a, b, c := "id: " + Print(e.id), "event: " + e.kind, "data: " + WithoutNewlines(e.payload);
    DigitsAreOneLine(e.id);
    WithoutNewlinesIsOneLine(e.payload);
    assert OneLine(a) && OneLine(b) && OneLine(c);
    assert Body(e) == a + "\n" + (b + "\n" + c);
    LinesOfJoined(a, b + "\n" + c);
    LinesOfJoined(b, c);
    LinesOfOne(c);
  }

  /** A printed event reads back as its id, its kind and its payload, the latter two trimmed
      and the payload on one line. */
  lemma {:induction false} ReadOfBody(e: Event)
    requires OneLine(e.kind)
    ensures Read(Body(e)) == Fields(Some(e.id), Trim(e.kind), Trim(WithoutNewlines(e.payload)))
  {
    hide Print, WithoutNewlines, Trim, ParseInt, Lines, Body, ReadLine, ReadLines;
    var a, b, c := "id: " + Print(e.id), "event: " + e.kind, "data: " + WithoutNewlines(e.payload);
    BodyLines(e);
    var f := Fields(None, "message", "");
    ReadId(f, e.id);
    ReadKind(ReadLine(f, a), e.kind);
    ReadData(ReadLine(ReadLine(f, a), b), WithoutNewlines(e.payload));
    ReadThree(f, a, b, c);
  }

  lemma ReadThree(f: Fields, a: string, b: string, c: string)
    ensures ReadLines(f, [a, b, c]) == ReadLine(ReadLine(ReadLine(f, a), b), c)
  {
    hide ReadLine;
    var ab := ReadLine(ReadLine(f, a), b);
    assert [a, b, c][1..] == [b, c] && [b, c][1..] == [c] && [c][1..] == [];
    assert ReadLines(ab, [c]) == ReadLine(ab, c);
    assert ReadLines(ReadLine(f, a), [b, c]) == ReadLines(ab, [c]);
  }

  lemma ReadId(f: Fields, n: nat)
    ensures ReadLine(f, "id: " + Print(n)) == f.(id := Some(n))
  {
    assert ("id: " + Print(n))[3..] == " " + Print(n);
    TrimSkipsSpace(Print(n));
    PrintIsDigits(n);
    TrimmedDigits(Print(n));
    ParseIntOfPrint(n);
  }

  lemma ReadKind(f: Fields, kind: string)
    ensures ReadLine(f, "event: " + kind) == f.(kind := Trim(kind))
  {
    var line := "event: " + kind;
    assert line[6..] == " " + kind && line[0] == 'e';
    TrimSkipsSpace(kind);
  }

  lemma ReadData(f: Fields, data: string)
    ensures ReadLine(f, "data: " + data) == f.(data := f.data + Trim(data))
  {
    var line := "data: " + data;
    assert line[5..] == " " + data && line[0] == 'd';
    TrimSkipsSpace(data);
  }

  lemma {:induction false} TrimShortens(s: string)
    ensures |Trim(s)| <= |s|
  {
    TrimLeftShortens(s);
    TrimRightShortens(TrimLeft(s));
  }

  lemma TrimLeftShortens(s: string)
    ensures |TrimLeft(s)| <= |s|
  {
  }

  lemma TrimRightShortens(s: string)
    ensures |TrimRight(s)| <= |s|
  {
  }

  /** The payload survives exactly when it is one line and trimmed. */
  lemma {:induction false} PayloadSurvivesIff(e: Event)
    requires OneLine(e.kind)
    ensures Read(Body(e)).data == e.payload <==> OneLine(e.payload) && Trim(e.payload) == e.payload
  {
    ReadOfBody(e);
    WithoutNewlinesIsOneLine(e.payload);
    TrimShortens(WithoutNewlines(e.payload));
  }

  lemma BodyIsWhole(e: Event)
    requires OneLine(e.kind)
    ensures Whole(Body(e))
  {
    DigitsAreOneLine(e.id);
    WithoutNewlinesIsOneLine(e.payload);
    var p, k, d := Print(e.id), e.kind, WithoutNewlines(e.payload);
    assert Body(e) == "id: " + p + "\nevent: " + k + "\ndata: " + d;
    hide Print, WithoutNewlines, Body;
    WholeText(p, k, d);
  }

  lemma WholeText(p: string, k: string, d: string)
    requires OneLine(p) && OneLine(k) && OneLine(d)
    ensures Whole("id: " + p + "\nevent: " + k + "\ndata: " + d)
  {
  }
}
