/** Resuming the event stream: streamEvents and EventsAfter on the server, streamOnce and
    handleFrame in the widget, over any chunking and any number of disconnects. */
module EventStream {
  import opened Domain
  import opened Decimals
  import opened Frames

  const MAX_ID := 9_223_372_036_854_775_807

  // ---- the durable log ----

  /** Ids start above zero and increase; event kinds are single words. */
  ghost predicate ValidLog(log: seq<Event>) {
    && (forall i :: 0 <= i < |log| ==> 0 < log[i].id <= MAX_ID && OneLine(log[i].kind))
    && forall i, j :: 0 <= i < j < |log| ==> log[i].id < log[j].id
  }

  function Newer(log: seq<Event>, after: int): seq<Event> {
    if log == [] then []
    else
      var front := Newer(log[..|log| - 1], after);
      if log[|log| - 1].id > after then front + [log[|log| - 1]] else front
  }

  /** EventsAfter: the first `limit` events past the id. */
  method EventsAfter(log: seq<Event>, after: int, limit: int) returns (events: seq<Event>)
    ensures var most := if limit < 1 || limit > 500 then 100 else limit;
            events == if |Newer(log, after)| <= most then Newer(log, after) else Newer(log, after)[..most]
  {
    var most := if limit < 1 || limit > 500 then 100 else limit;
    events := [];
    var k := 0;
    while k < |log| && |events| < most
      invariant k <= |log| && events == Newer(log[..k], after) && |events| <= most
    {
      assert log[..k + 1][..k] == log[..k];
      if log[k].id > after {
        events := events + [log[k]];
      }
      k := k + 1;
    }
    NewerGrows(log, after, k);
    assert log[..|log|] == log;
  }

  lemma {:induction false} NewerGrows(log: seq<Event>, after: int, k: nat)
    requires k <= |log|
    ensures |Newer(log[..k], after)| <= |Newer(log, after)| && Newer(log[..k], after) == Newer(log, after)[..|Newer(log[..k], after)|]
  {
    if k == |log| {
      assert log[..k] == log;
    } else {
      assert log[..|log| - 1][..k] == log[..k];
      NewerGrows(log[..|log| - 1], after, k);
    }
  }

  /** The id a client that has the first `k` events resumes from. */
  function Cursor(log: seq<Event>, k: nat): int
    requires k <= |log|
  {
    if k == 0 then 0 else log[k - 1].id
  }

  lemma {:induction false} NewerIsTheRest(log: seq<Event>, k: nat)
    requires ValidLog(log) && k <= |log|
    ensures Newer(log, Cursor(log, k)) == log[k..]
  {
    if k == |log| {
      NoneNewer(log, Cursor(log, k));
    } else {
      var n := |log| - 1;
      assert log[..n][..k] == log[..k];
      NewerIsTheRest(log[..n], k);
      assert log[k..] == log[..n][k..] + [log[n]];
    }
  }

  lemma {:induction false} NoneNewer(log: seq<Event>, after: int)
    requires forall i :: 0 <= i < |log| ==> log[i].id <= after
    ensures Newer(log, after) == []
  {
    if log != [] { NoneNewer(log[..|log| - 1], after); }
  }

  // ---- the server ----

  datatype Item = Comment(text: string) | Sent(event: Event)

  function BodyOf(item: Item): string {
    match item
    case Comment(text) => ": " + text
    case Sent(event) => Body(event)
  }

  function Bodies(items: seq<Item>): seq<string> {
    seq(|items|, i requires 0 <= i < |items| => BodyOf(items[i]))
  }

  function SentEvents(items: seq<Item>): seq<Event> {
    if items == [] then []
    else SentEvents(items[..|items| - 1]) + match items[|items| - 1] { case Comment(_) => [] case Sent(e) => [e] }
  }

  lemma SentAppend(items: seq<Item>, item: Item)
    ensures SentEvents(items + [item]) == SentEvents(items) + match item { case Comment(_) => [] case Sent(e) => [e] }
  {
    assert (items + [item])[..|items|] == items;
  }

  ghost predicate ItemsOk(items: seq<Item>) {
    forall i :: 0 <= i < |items| ==> OneLine(match items[i] { case Comment(t) => t case Sent(e) => e.kind })
  }

  /** lastEventID: the header, or the start of the stream. */
  function ServerCursor(header: string): Option<int> {
    var raw := Trim(header);
    if raw == "" then Some(0)
    else
      var digits := if raw[0] in {'-', '+'} then raw[1..] else raw;
      if digits == "" || !AllDigits(digits) || Value(digits) > MAX_ID || (raw[0] == '-' && Value(digits) != 0) then None
      else Some(Value(digits))
  }

  /** The resume header reads as the id it was printed from, as long as an id can be that large. */
  lemma HeaderRoundTrip(n: nat)
    ensures ServerCursor(Print(n)) == if n <= MAX_ID then Some(n) else None
  {
    PrintIsDigits(n);
    TrimmedDigits(Print(n));
    assert IsDigit(Print(n)[0]);
  }

  lemma SignedIsTrimmed(sign: char, digits: string)
    requires sign in {'+', '-'} && digits != "" && AllDigits(digits)
    ensures Trim([sign] + digits) == [sign] + digits
  {
    var s := [sign] + digits;
    assert s[|s| - 1] == digits[|digits| - 1] && IsDigit(digits[|digits| - 1]);
  }

  /** Without a header the stream starts at the beginning; a sign is read, and no id is negative. */
  lemma HeaderSigns(n: nat)
    ensures ServerCursor("") == Some(0)
    ensures ServerCursor("+" + Print(n)) == if n <= MAX_ID then Some(n) else None
    ensures ServerCursor("-" + Print(n)) == if n == 0 then Some(0) else None
  {
    PrintIsDigits(n);
    SignedIsTrimmed('+', Print(n));
    SignedIsTrimmed('-', Print(n));
    assert ("+" + Print(n))[1..] == Print(n) && ("-" + Print(n))[1..] == Print(n);
  }

  /** What one stream carries: comments anywhere, and events of the log past the cursor,
      in order and without gaps. */
  ghost predicate StreamFrom(log: seq<Event>, cursor: int, items: seq<Item>) {
    && ItemsOk(items) && |SentEvents(items)| <= |Newer(log, cursor)|
    && SentEvents(items) == Newer(log, cursor)[..|SentEvents(items)|]
  }

  /** What has been written so far: the events from `k` up to `upTo`, and comments. */
  ghost predicate Streamed(log: seq<Event>, k: nat, upTo: nat, cursor: int, items: seq<Item>) {
    && k <= upTo <= |log| && cursor == Cursor(log, upTo) && SentEvents(items) == log[k..upTo] && ItemsOk(items)
  }

  lemma WriteEvent(log: seq<Event>, k: nat, upTo: nat, cursor: int, items: seq<Item>)
    requires ValidLog(log) && Streamed(log, k, upTo, cursor, items) && upTo < |log|
    ensures Streamed(log, k, upTo + 1, log[upTo].id, items + [Sent(log[upTo])])
  {
    KindIsOneLine(log, upTo);
    SentAppend(items, Sent(log[upTo]));
    ItemsAppend(items, Sent(log[upTo]));
    assert log[k..upTo] + [log[upTo]] == log[k..upTo + 1];
  }

  lemma WriteComment(log: seq<Event>, k: nat, upTo: nat, cursor: int, items: seq<Item>, text: string)
    requires Streamed(log, k, upTo, cursor, items) && OneLine(text)
    ensures Streamed(log, k, upTo, cursor, items + [Comment(text)])
  {
    SentAppend(items, Comment(text));
    ItemsAppend(items, Comment(text));
  }

  /** A poll reads the next events of the log as it stands. */
  lemma PollReads(log: seq<Event>, size: nat, upTo: nat, events: seq<Event>)
    requires ValidLog(log) && upTo <= size <= |log|
    requires var newer := Newer(log[..size], Cursor(log, upTo)); events == if |newer| <= 100 then newer else newer[..100]
    ensures upTo + |events| <= size && events == log[upTo..upTo + |events|]
    ensures |events| == if size - upTo <= 100 then size - upTo else 100
  {
    PrefixIsValid(log, size);
    NewerIsTheRest(log[..size], upTo);
    assert Cursor(log[..size], upTo) == Cursor(log, upTo);
  }

  const CONNECTED := "connected"
  const HEARTBEAT := "heartbeat"
  const AGED := "stream age limit " + "reached, reconnect" + " to resume"

  lemma CommentsAreOneLine()
    ensures OneLine(CONNECTED) && OneLine(HEARTBEAT) && OneLine(AGED)
  {
    assert OneLine("stream age limit ") && OneLine("reached, reconnect") && OneLine(" to resume");
  }

  /** How far a stream from `k` gets by its polls: each takes up to a hundred events of the log
      as it stands then. */
  function Reach(k: nat, sizes: seq<nat>): nat {
    if sizes == [] then k
    else
      var before := Reach(k, sizes[..|sizes| - 1]);
      if before + 100 < sizes[|sizes| - 1] then before + 100 else sizes[|sizes| - 1]
  }

  /** What a growing log looks like to the polls of a stream from `k`. */
  ghost predicate Sizes(log: seq<Event>, k: nat, sizes: seq<nat>) {
    && k <= |log| && (forall i :: 0 <= i < |sizes| ==> k <= sizes[i] <= |log|)
    && forall i, j :: 0 <= i < j < |sizes| ==> sizes[i] <= sizes[j]
  }

  lemma ReachNext(k: nat, sizes: seq<nat>, p: nat)
    requires p < |sizes|
    ensures Reach(k, sizes[..p + 1]) == if Reach(k, sizes[..p]) + 100 < sizes[p] then Reach(k, sizes[..p]) + 100 else sizes[p]
  {
    assert sizes[..p + 1][..p] == sizes[..p];
  }

  function Count(items: seq<Item>, text: string): nat {
    if items == [] then 0 else Count(items[..|items| - 1], text) + if items[|items| - 1] == Comment(text) then 1 else 0
  }

  function Beats(beats: nat -> bool, n: nat): nat {
    if n == 0 then 0 else Beats(beats, n - 1) + if beats(n - 1) then 1 else 0
  }

  lemma CountAppend(items: seq<Item>, item: Item, text: string)
    ensures Count(items + [item], text) == Count(items, text) + if item == Comment(text) then 1 else 0
  {
    assert (items + [item])[..|items|] == items;
  }

  /** streamEvents: poll after poll, the log as it stands at each poll, heartbeats in between.
      Everything its polls come to see is sent, a hundred events a poll. */
  method StreamEvents(log: seq<Event>, sizes: seq<nat>, k: nat, beats: nat -> bool, aged: bool) returns (items: seq<Item>)
    requires ValidLog(log) && Sizes(log, k, sizes)
    ensures StreamFrom(log, Cursor(log, k), items)
    ensures k <= Reach(k, sizes) <= |log| && SentEvents(items) == log[k..Reach(k, sizes)]
    ensures items != [] && items[0] == Comment("connected") && Count(items, "heartbeat") == Beats(beats, |sizes|)
    ensures aged ==> items[|items| - 1] == Comment("stream age limit reached, reconnect to resume")
  {
    hide ValidLog, Newer, Streamed, SentEvents, ItemsOk, OneLine, Count, Reach, Commented, Beats, CONNECTED, HEARTBEAT, AGED;
    var cursor := Cursor(log, k);
    ghost var upTo: nat := k;
    items := [];
    NoPolls(k);
    FirstComment(beats);
    CommentsAreOneLine();
    NothingWritten(log, k);
    WriteComment(log, k, upTo, cursor, items, CONNECTED);
    items := items + [Comment(CONNECTED)];
    assert items == [Comment(CONNECTED)];
    for p := 0 to |sizes|
      invariant Streamed(log, k, upTo, cursor, items) && upTo <= |log| && cursor == Cursor(log, upTo)
      invariant forall i :: p <= i < |sizes| ==> upTo <= sizes[i]
      invariant upTo == Reach(k, sizes[..p]) && Commented(items, beats, p)
    {
      var events := EventsAfter(log[..sizes[p]], cursor, 100);
      PollReads(log, sizes[p], upTo, events);
      ReachNext(k, sizes, p);
      ghost var from := upTo;
      for n := 0 to |events|
        invariant upTo == from + n <= sizes[p] && Streamed(log, k, upTo, cursor, items) && cursor == Cursor(log, upTo)
        invariant Commented(items, beats, p)
      {
        assert events[n] == log[upTo];
        OneMoreItem(items, Sent(events[n]), beats, p);
        WriteEvent(log, k, upTo, cursor, items);
        items := items + [Sent(events[n])];
        cursor := events[n].id;
        upTo := upTo + 1;
      }
      PollDone(items, beats, p);
      if beats(p) {
        WriteComment(log, k, upTo, cursor, items, HEARTBEAT);
        items := items + [Comment(HEARTBEAT)];
      }
    }
    assert sizes[..|sizes|] == sizes;
    if aged {
      LastComment(items, beats, |sizes|);
      WriteComment(log, k, upTo, cursor, items, AGED);
      items := items + [Comment(AGED)];
    }
    StreamedFrom(log, k, upTo, cursor, items);
    CommentsAre(items, beats, |sizes|);
  }

  /** The stream opens with a comment and has one heartbeat for each that was due. */
  ghost predicate Commented(items: seq<Item>, beats: nat -> bool, p: nat) {
    items != [] && items[0] == Comment("connected") && Count(items, "heartbeat") == Beats(beats, p)
  }

  lemma CommentsAre(items: seq<Item>, beats: nat -> bool, p: nat)
    requires Commented(items, beats, p)
    ensures items != [] && items[0] == Comment("connected") && Count(items, "heartbeat") == Beats(beats, p)
  {
  }

  lemma FirstComment(beats: nat -> bool)
    ensures Commented([Comment(CONNECTED)], beats, 0)
  {
    CountAppend([], Comment(CONNECTED), "heartbeat");
    assert [] + [Comment(CONNECTED)] == [Comment(CONNECTED)];
    assert CONNECTED[0] != "heartbeat"[0];
  }

  lemma OneMoreItem(items: seq<Item>, item: Item, beats: nat -> bool, p: nat)
    requires Commented(items, beats, p) && item != Comment("heartbeat")
    ensures Commented(items + [item], beats, p)
  {
    CountAppend(items, item, "heartbeat");
  }

  lemma PollDone(items: seq<Item>, beats: nat -> bool, p: nat)
    requires Commented(items, beats, p)
    ensures if beats(p) then Commented(items + [Comment(HEARTBEAT)], beats, p + 1) else Commented(items, beats, p + 1)
  {
    CountAppend(items, Comment(HEARTBEAT), "heartbeat");
  }

  lemma LastComment(items: seq<Item>, beats: nat -> bool, p: nat)
    requires Commented(items, beats, p)
    ensures Commented(items + [Comment(AGED)], beats, p) && AGED == "stream age limit reached, reconnect to resume"
  {
    assert AGED[0] != "heartbeat"[0];
    OneMoreItem(items, Comment(AGED), beats, p);
  }

  lemma NoPolls(k: nat)
    ensures Reach(k, []) == k && Count([], "heartbeat") == 0
  {
  }

  /** Polls that see the log as it stands catch up by a hundred events each. */
  lemma {:induction false} PollsCatchUp(log: seq<Event>, k: nat, sizes: seq<nat>, m: nat)
    requires Sizes(log, k, sizes) && m <= |sizes| && forall i :: |sizes| - m <= i < |sizes| ==> sizes[i] == |log|
    ensures k <= Reach(k, sizes) <= |log|
    ensures Reach(k, sizes) == |log| || k + 100 * m <= Reach(k, sizes)
  {
    if sizes != [] {
      var front := sizes[..|sizes| - 1];
      PollsCatchUp(log, k, front, if m == 0 then 0 else m - 1);
    }
  }

  lemma NothingWritten(log: seq<Event>, k: nat)
    requires k <= |log|
    ensures Streamed(log, k, k, Cursor(log, k), [])
  {
  }

  lemma StreamedFrom(log: seq<Event>, k: nat, upTo: nat, cursor: int, items: seq<Item>)
    requires ValidLog(log) && Streamed(log, k, upTo, cursor, items)
    ensures StreamFrom(log, Cursor(log, k), items) && k <= upTo <= |log| && SentEvents(items) == log[k..upTo]
  {
    NewerIsTheRest(log, k);
    assert log[k..][..upTo - k] == log[k..upTo];
  }

  lemma ItemsAppend(items: seq<Item>, item: Item)
    requires ItemsOk(items) && OneLine(match item { case Comment(t) => t case Sent(e) => e.kind })
    ensures ItemsOk(items + [item])
  {
  }

  lemma KindIsOneLine(log: seq<Event>, k: nat)
    requires ValidLog(log) && k < |log|
    ensures OneLine(log[k].kind)
  {
  }

  lemma PrefixIsValid(log: seq<Event>, n: nat)
    requires ValidLog(log) && n <= |log|
    ensures ValidLog(log[..n])
  {
  }

  // ---- the client ----

  /** The widget's state: the last id, the frames it accepted, the unfinished text. */
  datatype Client = Client(last: int, accepted: seq<Fields>, buffer: string)

  function Handle(c: Client, frame: string): Client {
    var f := Read(frame);
    if f.id.None? || f.id.value <= c.last then c else c.(last := f.id.value, accepted := c.accepted + [f])
  }

  function HandleAll(c: Client, frames: seq<string>): Client
    decreases |frames|
  {
    if frames == [] then c else HandleAll(Handle(c, frames[0]), frames[1..])
  }

  function Feed(c: Client, chunk: string): Client {
    var s := Broken(c.buffer + chunk);
    HandleAll(c.(buffer := s.rest), s.frames)
  }

  function FeedAll(c: Client, chunks: seq<string>): Client
    decreases |chunks|
  {
    if chunks == [] then c else FeedAll(Feed(c, chunks[0]), chunks[1..])
  }

  function Flatten(chunks: seq<string>): string {
    if chunks == [] then "" else chunks[0] + Flatten(chunks[1..])
  }

  /** A new connection starts with an empty buffer. */
  function Reconnected(c: Client): Client {
    c.(buffer := "")
  }

  class Widget {
    var last: int
    var accepted: seq<Fields>
    var buffer: string

    ghost function Contents(): Client
      reads this
    {
      Client(last, accepted, buffer)
    }

    /** The body of pump: add the chunk, split, keep the rest, handle the frames in order. */
    method Receive(chunk: string)
      modifies this
      ensures Contents() == Feed(old(Contents()), chunk)
    {
      var s := Broken(buffer + chunk);
      buffer := s.rest;
      ghost var goal := HandleAll(Contents(), s.frames);
      var k := 0;
      assert s.frames[0..] == s.frames;
      while k < |s.frames|
        invariant k <= |s.frames| && HandleAll(Contents(), s.frames[k..]) == goal
      {
        assert s.frames[k..][1..] == s.frames[k + 1..];
        HandleFrame(s.frames[k]);
        k := k + 1;
      }
    }

    method HandleFrame(frame: string)
      modifies this
      ensures Contents() == Handle(old(Contents()), frame)
      ensures buffer == old(buffer) && old(last) <= last
      ensures accepted != old(accepted) <==> Read(frame).id.Some? && old(last) < Read(frame).id.value
      ensures accepted != old(accepted) ==> accepted == old(accepted) + [Read(frame)] && Read(frame).id == Some(last)
    {
      var f := Read(frame);
      if f.id.None? || f.id.value <= last {
        return;
      }
      last := f.id.value;
      accepted := accepted + [f];
    }

    method Reconnect()
      modifies this
      ensures Contents() == Reconnected(old(Contents()))
    {
      buffer := "";
    }
  }

  lemma HandleKeepsBuffer(c: Client, frame: string, buffer: string)
    ensures Handle(c.(buffer := buffer), frame) == Handle(c, frame).(buffer := buffer)
  {
  }

  lemma {:induction false} HandleAllKeepsBuffer(c: Client, frames: seq<string>, buffer: string)
    ensures HandleAll(c.(buffer := buffer), frames) == HandleAll(c, frames).(buffer := buffer)
    decreases |frames|
  {
    hide Handle;
    if frames != [] {
      HandleKeepsBuffer(c, frames[0], buffer);
      HandleAllKeepsBuffer(Handle(c, frames[0]), frames[1..], buffer);
    }
  }

  lemma {:induction false} HandleAllAppend(c: Client, a: seq<string>, b: seq<string>)
    ensures HandleAll(c, a + b) == HandleAll(HandleAll(c, a), b)
    decreases |a|
  {
    hide Handle;
    if a == [] {
      assert a + b == b;
    } else {
      assert (a + b)[1..] == a[1..] + b;
      HandleAllAppend(Handle(c, a[0]), a[1..], b);
    }
  }

  /** Feeding two chunks is feeding their concatenation. */
  lemma {:induction false} FeedTwice(c: Client, x: string, y: string)
    ensures Feed(Feed(c, x), y) == Feed(c, x + y)
  {
    hide Broken, HandleAll;
    var first := Broken(c.buffer + x);
    var second := Broken(first.rest + y);
    assert c.buffer + (x + y) == (c.buffer + x) + y;
    ChunksDoNotMatter(c.buffer + x, y);
    HandleAllKeepsBuffer(c, first.frames, first.rest);
    HandleAllAppend(c, first.frames, second.frames);
    HandleAllKeepsBuffer(HandleAll(c, first.frames), second.frames, second.rest);
    HandleAllKeepsBuffer(c, first.frames + second.frames, second.rest);
  }

  lemma FeedNothing(c: Client)
    requires c.buffer == ""
    ensures Feed(c, "") == c
  {
    assert c.buffer + "" == "";
  }

  /** However the text is cut into chunks, the client ends in the same state. */
  lemma {:induction false} ChunkingDoesNotMatter(c: Client, seen: string, chunks: seq<string>)
    ensures FeedAll(Feed(c, seen), chunks) == Feed(c, seen + Flatten(chunks))
    decreases |chunks|
  {
    hide Feed;
    if chunks == [] {
      assert seen + Flatten(chunks) == seen;
    } else {
      FeedTwice(c, seen, chunks[0]);
      ChunkingDoesNotMatter(c, seen + chunks[0], chunks[1..]);
      assert seen + (chunks[0] + Flatten(chunks[1..])) == (seen + chunks[0]) + Flatten(chunks[1..]);
    }
  }

  // ---- exactly once, in order ----

  /** What the client keeps of an event. */
  function Told(e: Event): Fields {
    Fields(Some(e.id), Trim(e.kind), Trim(WithoutNewlines(e.payload)))
  }

  function ToldAll(log: seq<Event>): seq<Fields> {
    seq(|log|, i requires 0 <= i < |log| => Told(log[i]))
  }

  /** The client has accepted exactly the first `k` events. */
  ghost predicate UpTo(log: seq<Event>, k: nat, c: Client) {
    k <= |log| && c.last == Cursor(log, k) && c.accepted == ToldAll(log[..k])
  }

  lemma CommentIsIgnored(c: Client, text: string)
    requires OneLine(text)
    ensures Handle(c, BodyOf(Comment(text))) == c
  {
    var line := ": " + text;
    assert line[0] == ':';
    LinesOfOne(line);
    assert ReadLines(Fields(None, "message", ""), [line]) == ReadLine(Fields(None, "message", ""), line);
  }

  lemma NextIsAccepted(log: seq<Event>, k: nat, c: Client)
    requires ValidLog(log) && k < |log| && UpTo(log, k, c)
    ensures UpTo(log, k + 1, Handle(c, Body(log[k])))
  {
    hide Read, Body, Trim;
    ReadOfBody(log[k]);
    assert c.last < log[k].id;
    assert ToldAll(log[..k + 1]) == ToldAll(log[..k]) + [Told(log[k])];
  }

  /** Handling the first frames of a stream advances the client event by event. */
  lemma {:induction false} FramesAdvance(log: seq<Event>, k: nat, c: Client, items: seq<Item>)
    requires ValidLog(log) && UpTo(log, k, c) && ItemsOk(items)
    requires k + |SentEvents(items)| <= |log| && SentEvents(items) == log[k..k + |SentEvents(items)|]
    ensures UpTo(log, k + |SentEvents(items)|, HandleAll(c, Bodies(items)))
    decreases |items|
  {
    hide Handle, Body, ValidLog, UpTo;
    if items != [] {
      var n := |items| - 1;
      var front, item := items[..n], items[n];
      assert items == front + [item];
      SentAppend(front, item);
      FrontIsPart(log, k, SentEvents(front), SentEvents(items));
      FramesAdvance(log, k, c, front);
      assert Bodies(items) == Bodies(front) + [BodyOf(item)];
      HandleAllAppend(c, Bodies(front), [BodyOf(item)]);
      HandleOne(HandleAll(c, Bodies(front)), BodyOf(item));
      if item.Comment? {
        CommentIsIgnored(HandleAll(c, Bodies(front)), item.text);
      } else {
        NextIsAccepted(log, k + |SentEvents(front)|, HandleAll(c, Bodies(front)));
      }
    }
  }

  lemma HandleOne(c: Client, frame: string)
    ensures HandleAll(c, [frame]) == Handle(c, frame)
  {
  }

  lemma FrontIsPart(log: seq<Event>, k: nat, front: seq<Event>, all: seq<Event>)
    requires k + |all| <= |log| && all == log[k..k + |all|] && front <= all
    ensures front == log[k..k + |front|]
    ensures |all| == |front| + 1 ==> all[|front|] == log[k + |front|]
  {
    assert front == all[..|front|];
  }

  lemma BodiesAreWhole(items: seq<Item>)
    requires ItemsOk(items)
    ensures forall i :: 0 <= i < |items| ==> Whole(Bodies(items)[i])
  {
    forall i | 0 <= i < |items|
      ensures Whole(BodyOf(items[i]))
    {
      match items[i]
      case Comment(text) => CommentIsWhole(text);
      case Sent(e) => BodyIsWhole(e);
    }
  }

  lemma CommentIsWhole(text: string)
    requires OneLine(text)
    ensures Whole(": " + text)
  {
  }

  /** One connection: what the server sends, and the chunks that arrive before it breaks. */
  datatype Session = Session(items: seq<Item>, chunks: seq<string>)

  /** Any part of the stream's text, from its start, in any chunks. */
  ghost predicate Arrives(s: Session) {
    Flatten(s.chunks) <= StreamText(Bodies(s.items))
  }

  /** The whole frames within a prefix of the text are the first frames of the stream. */
  lemma {:induction false} PrefixFrames(bodies: seq<string>, x: string) returns (f: nat)
    requires x <= StreamText(bodies) && forall i :: 0 <= i < |bodies| ==> Whole(bodies[i])
    ensures f <= |bodies| && Broken(x).frames == bodies[..f]
    ensures x == StreamText(bodies) ==> f == |bodies|
  {
    hide Broken, Whole;
    var y := StreamText(bodies)[|x|..];
    assert x + y == StreamText(bodies);
    ChunksDoNotMatter(x, y);
    FramesOfText(bodies);
    f := |Broken(x).frames|;
  }

  lemma {:induction false} SessionAdvances(log: seq<Event>, k: nat, c: Client, s: Session) returns (j: nat)
    requires ValidLog(log) && UpTo(log, k, c) && StreamFrom(log, Cursor(log, k), s.items) && Arrives(s)
    ensures k <= j && UpTo(log, j, FeedAll(Reconnected(c), s.chunks))
    ensures Flatten(s.chunks) == StreamText(Bodies(s.items)) && SentEvents(s.items) == Newer(log, Cursor(log, k)) ==> j == |log|
  {
    hide Broken, ValidLog, UpTo, ItemsOk, HandleAll, Bodies;
    CursorInLog(log, k, c);
    var x := Flatten(s.chunks);
    var start := Reconnected(c);
    FeedNothing(start);
    ChunkingDoesNotMatter(start, "", s.chunks);
    assert "" + x == x;
    BodiesAreWhole(s.items);
    SameLength(s.items);
    var f := PrefixFrames(Bodies(s.items), x);
    NewerIsTheRest(log, k);
    var part := FirstItems(log, k, s.items, f);
    BufferDoesNotMatter(log, k, c, Broken(x).rest);
    FramesAdvance(log, k, c.(buffer := Broken(x).rest), s.items[..f]);
    assert "" + x == start.buffer + x;
    j := k + |SentEvents(s.items[..f])|;
    assert f == |s.items| ==> s.items[..f] == s.items;
  }

  /** A session that has polled often enough since the log last grew, and whose text all arrives,
      brings the client to the end of the log. */
  lemma {:induction false} WatcherCatchesUp(log: seq<Event>, k: nat, c: Client, sizes: seq<nat>, m: nat, s: Session)
    requires ValidLog(log) && UpTo(log, k, c) && Sizes(log, k, sizes)
    requires m <= |sizes| && (forall i :: |sizes| - m <= i < |sizes| ==> sizes[i] == |log|) && |log| - k <= 100 * m
    requires StreamFrom(log, Cursor(log, k), s.items) && k <= Reach(k, sizes) <= |log| && SentEvents(s.items) == log[k..Reach(k, sizes)]
    requires Flatten(s.chunks) == StreamText(Bodies(s.items))
    ensures UpTo(log, |log|, FeedAll(Reconnected(c), s.chunks))
  {
    hide ValidLog, UpTo, FeedAll, StreamText, Bodies, SentEvents, Reach;
    PollsCatchUp(log, k, sizes, m);
    assert Reach(k, sizes) == |log|;
    NewerIsTheRest(log, k);
    assert log[k..|log|] == log[k..];
    var j := SessionAdvances(log, k, c, s);
  }

  lemma SameLength(items: seq<Item>)
    ensures |Bodies(items)| == |items| && forall f :: 0 <= f <= |items| ==> Bodies(items)[..f] == Bodies(items[..f])
  {
  }

  lemma CursorInLog(log: seq<Event>, k: nat, c: Client)
    requires UpTo(log, k, c)
    ensures k <= |log|
  {
  }

  lemma BufferDoesNotMatter(log: seq<Event>, k: nat, c: Client, buffer: string)
    requires UpTo(log, k, c)
    ensures UpTo(log, k, c.(buffer := buffer))
  {
  }

  lemma FirstItems(log: seq<Event>, k: nat, items: seq<Item>, f: nat) returns (part: seq<Event>)
    requires k <= |log| && f <= |items| && ItemsOk(items)
    requires |SentEvents(items)| <= |log[k..]| && SentEvents(items) == log[k..][..|SentEvents(items)|]
    ensures part == SentEvents(items[..f]) && k + |part| <= |log| && part == log[k..k + |part|] && ItemsOk(items[..f])
  {
    part := SentEvents(items[..f]);
    SentPrefix(items, f);
    assert part == SentEvents(items)[..|part|];
  }

  lemma {:induction false} SentPrefix(items: seq<Item>, f: nat)
    requires f <= |items|
    ensures SentEvents(items[..f]) <= SentEvents(items)
  {
    if f == |items| {
      assert items[..f] == items;
    } else {
      assert items[..|items| - 1][..f] == items[..f];
      SentPrefix(items[..|items| - 1], f);
    }
  }

  // ---- any number of disconnects ----

  function RunClient(c: Client, sessions: seq<Session>): Client
    decreases |sessions|
  {
    if sessions == [] then c else RunClient(FeedAll(Reconnected(c), sessions[0].chunks), sessions[1..])
  }

  /** Each connection asks for what follows the client's last id and may break anywhere. */
  ghost predicate Connections(log: seq<Event>, c: Client, sessions: seq<Session>)
    decreases |sessions|
  {
    sessions == [] ||
    (&& c.last >= 0 && ServerCursor(Print(c.last)).Some?
     && StreamFrom(log, ServerCursor(Print(c.last)).value, sessions[0].items) && Arrives(sessions[0])
     && Connections(log, FeedAll(Reconnected(c), sessions[0].chunks), sessions[1..]))
  }

  /** Over any chunking and any disconnects the accepted events are a prefix of the log:
      no gap, no duplicate, in order. */
  lemma {:induction false} ResumeIsExactlyOnce(log: seq<Event>, k: nat, c: Client, sessions: seq<Session>) returns (j: nat)
    requires ValidLog(log) && UpTo(log, k, c) && Connections(log, c, sessions)
    ensures k <= j && UpTo(log, j, RunClient(c, sessions))
    decreases |sessions|
  {
    hide ValidLog, UpTo, StreamFrom, Arrives, FeedAll, ServerCursor;
    if sessions == [] {
      return k;
    }
    CursorFits(log, k, c);
    HeaderRoundTrip(c.last);
    j := SessionAdvances(log, k, c, sessions[0]);
    j := ResumeIsExactlyOnce(log, j, FeedAll(Reconnected(c), sessions[0].chunks), sessions[1..]);
  }

  /** The last connection is read to the end of what the log holds. */
  ghost predicate EndsComplete(log: seq<Event>, c: Client, sessions: seq<Session>)
    decreases |sessions|
  {
    && sessions != []
    && if |sessions| == 1 then
         Flatten(sessions[0].chunks) == StreamText(Bodies(sessions[0].items)) && SentEvents(sessions[0].items) == Newer(log, c.last)
       else EndsComplete(log, FeedAll(Reconnected(c), sessions[0].chunks), sessions[1..])
  }

  /** After any disconnects, one connection read to the end leaves nothing out. */
  lemma {:induction false} ResumeReachesTheEnd(log: seq<Event>, k: nat, c: Client, sessions: seq<Session>)
    requires ValidLog(log) && UpTo(log, k, c) && Connections(log, c, sessions) && EndsComplete(log, c, sessions)
    ensures UpTo(log, |log|, RunClient(c, sessions))
    decreases |sessions|
  {
    hide ValidLog, UpTo, StreamFrom, Arrives, FeedAll, ServerCursor;
    CursorFits(log, k, c);
    HeaderRoundTrip(c.last);
    var j := SessionAdvances(log, k, c, sessions[0]);
    if |sessions| != 1 {
      ResumeReachesTheEnd(log, j, FeedAll(Reconnected(c), sessions[0].chunks), sessions[1..]);
    }
  }

  lemma CursorFits(log: seq<Event>, k: nat, c: Client)
    requires ValidLog(log) && UpTo(log, k, c)
    ensures k <= |log| && 0 <= c.last <= MAX_ID && c.last == Cursor(log, k)
  {
  }
}
