// Server-sent events: what handleEvents prints (api/handlers.go) and what the JavaScript client makes
// of it, however the stream is cut into chunks (sdks/javascript/src/client.ts).
module Sse {
  datatype Event = Event(name: string, data: string)

  const EVENT := "event:"
  const DATA := "data:"

  // ----- Lines -----

  // The first part with one more character before it.
  function Prepend(c: char, parts: seq<string>): seq<string>
    requires parts != []
  {
    [[c] + parts[0]] + parts[1..]
  }

  lemma PrependConcat(c: char, a: seq<string>, b: seq<string>)
    requires a != []
    ensures Prepend(c, a + b) == Prepend(c, a) + b
  {
    assert (a + b)[1..] == a[1..] + b;
  }

  // The string cut at its newlines; the last part is what follows the last newline.
  function Split(s: string): (parts: seq<string>)
    ensures |parts| > 0
  {
    if s == "" then [""]
    else if s[0] == '\n' then [""] + Split(s[1..])
    else Prepend(s[0], Split(s[1..]))
  }

  function Lines(s: string): seq<string> {
    Split(s)[..|Split(s)| - 1]
  }

  function Rest(s: string): string {
    Split(s)[|Split(s)| - 1]
  }

  predicate AfterLastNewline(text: string, rest: string) {
    && |rest| <= |text| && text[|text| - |rest|..] == rest
    && '\n' !in rest
    && (|rest| < |text| ==> text[|text| - |rest| - 1] == '\n')
  }

  lemma {:induction false} PartsAreLines(s: string)
    ensures forall l :: l in Split(s) ==> '\n' !in l
    ensures |Split(s)| == 1 ==> Split(s) == [s]
    ensures |Split(s)| > 1 ==> '\n' in s
  {
    if s != "" {
      PartsAreLines(s[1..]);
      var parts := Split(s[1..]);
      if s[0] != '\n' {
        assert '\n' !in [s[0]] + parts[0];
        assert forall l :: l in parts[1..] ==> l in parts;
        assert s == [s[0]] + s[1..];
      }
    }
  }

  lemma {:induction false} RestIsTheTail(s: string)
    ensures AfterLastNewline(s, Rest(s))
  {
    PartsAreLines(s);
    if |Split(s)| > 1 {
      var tail := s[1..];
      RestIsTheTail(tail);
      assert Rest(s) == Rest(tail);
      var n := |tail| - |Rest(tail)|;
      assert s[n + 1..] == tail[n..];
      if n > 0 {
        assert s[n] == tail[n - 1];
      }
    }
  }

  lemma SplitCons(c: char, tail: string)
    ensures Split([c] + tail) == if c == '\n' then [""] + Split(tail) else Prepend(c, Split(tail))
  {
    assert ([c] + tail)[1..] == tail;
  }

  lemma NewlineResumes(tail: string, b: string)
    requires Split(tail + b) == Lines(tail) + Split(Rest(tail) + b)
    ensures Split("\n" + (tail + b)) == Lines("\n" + tail) + Split(Rest("\n" + tail) + b)
  {
    SplitCons('\n', tail);
    SplitCons('\n', tail + b);
    assert Lines("\n" + tail) == [""] + Lines(tail) && Rest("\n" + tail) == Rest(tail);
  }

  lemma PrependKeepsLast(c: char, parts: seq<string>)
    requires |parts| >= 2
    ensures var n, more := |parts| - 1, Prepend(c, parts);
            |more| == |parts| && more[..n] == Prepend(c, parts[..n]) && more[n] == parts[n]
  {
  }

  lemma LongerFirstLine(c: char, tail: string, b: string)
    requires c != '\n' && |Split(tail)| >= 2 && Split(tail + b) == Lines(tail) + Split(Rest(tail) + b)
    ensures Split([c] + (tail + b)) == Lines([c] + tail) + Split(Rest([c] + tail) + b)
  {
    SplitCons(c, tail);
    SplitCons(c, tail + b);
    PrependKeepsLast(c, Split(tail));
    PrependConcat(c, Lines(tail), Split(Rest(tail) + b));
  }

  lemma OnlyLine(a: string, b: string)
    requires |Split(a)| == 1
    ensures Split(a + b) == Lines(a) + Split(Rest(a) + b)
  {
    PartsAreLines(a);
    assert Lines(a) == [] && Rest(a) == a;
  }

  // Splitting may resume from what followed the last newline.
  lemma {:induction false} SplitResumes(a: string, b: string)
    ensures Split(a + b) == Lines(a) + Split(Rest(a) + b)
  {
    if |Split(a)| == 1 {
      OnlyLine(a, b);
    } else {
      var c, tail := a[0], a[1..];
      SplitResumes(tail, b);
      assert a == [c] + tail && a + b == [c] + (tail + b);
      if c == '\n' {
        NewlineResumes(tail, b);
      } else {
        LongerFirstLine(c, tail, b);
      }
    }
  }

  function Terminated(lines: seq<string>): string {
    if lines == [] then "" else lines[0] + "\n" + Terminated(lines[1..])
  }

  lemma {:induction false} SplitPart(line: string, tail: string)
    requires '\n' !in line
    ensures Split(line + "\n" + tail) == [line] + Split(tail)
  {
    if line == "" {
      assert (line + "\n" + tail)[1..] == tail;
    } else {
      var text := line + "\n" + tail;
      assert text[0] == line[0] != '\n' && text[1..] == line[1..] + "\n" + tail;
      SplitPart(line[1..], tail);
      assert Split(text[1..]) == [line[1..]] + Split(tail);
      assert [line[0]] + line[1..] == line;
    }
  }

  lemma {:induction false} LinesOfTerminated(lines: seq<string>)
    requires forall l :: l in lines ==> '\n' !in l
    ensures Split(Terminated(lines)) == lines + [""]
  {
    if lines != [] {
      SplitPart(lines[0], Terminated(lines[1..]));
      LinesOfTerminated(lines[1..]);
    }
  }

  lemma {:induction false} TerminatedConcat(a: seq<string>, b: seq<string>)
    ensures Terminated(a + b) == Terminated(a) + Terminated(b)
  {
    if a == [] {
      assert a + b == b;
    } else {
      TerminatedConcat(a[1..], b);
      assert (a + b)[1..] == a[1..] + b;
    }
  }

  // ----- Trimming -----

  // What String.prototype.trim removes: white space and line terminators.
  predicate Blank(c: char) {
    var n := c as int;
    || 9 <= n <= 13 || n == 0x20 || n == 0xA0 || n == 0x1680 || 0x2000 <= n <= 0x200A
    || n == 0x2028 || n == 0x2029 || n == 0x202F || n == 0x205F || n == 0x3000 || n == 0xFEFF
  }

  function TrimStart(s: string): string {
    if s != "" && Blank(s[0]) then TrimStart(s[1..]) else s
  }

  function TrimEnd(s: string): string {
    if s != "" && Blank(s[|s| - 1]) then TrimEnd(s[..|s| - 1]) else s
  }

  function Trim(s: string): string {
    TrimEnd(TrimStart(s))
  }

  predicate Trimmed(s: string) {
    s == "" || (!Blank(s[0]) && !Blank(s[|s| - 1]))
  }

  lemma {:induction false} TrimStartIsSuffix(s: string)
    ensures TrimStart(s) == "" || !Blank(TrimStart(s)[0])
    ensures forall c :: c in TrimStart(s) ==> c in s
  {
    if s != "" && Blank(s[0]) {
      TrimStartIsSuffix(s[1..]);
    }
  }

  lemma {:induction false} TrimEndIsPrefix(s: string)
    ensures TrimEnd(s) <= s
    ensures TrimEnd(s) == "" || !Blank(TrimEnd(s)[|TrimEnd(s)| - 1])
    ensures s != "" && !Blank(s[0]) ==> TrimEnd(s) != ""
  {
    if s != "" && Blank(s[|s| - 1]) {
      TrimEndIsPrefix(s[..|s| - 1]);
    }
  }

  lemma TrimIsTrimmed(s: string)
    ensures Trimmed(Trim(s)) && (Trim(s) == s <==> Trimmed(s))
    ensures forall c :: c in Trim(s) ==> c in s
    ensures s != "" && !Blank(s[0]) ==> Trim(s) != "" && Trim(s)[0] == s[0]
  {
    TrimStartIsSuffix(s);
    TrimEndIsPrefix(TrimStart(s));
  }

  // A field printed with one space reads back as itself.
  lemma FieldReads(field: string, value: string)
    requires field in {EVENT, DATA} && Trimmed(value)
    ensures var t := Trim(field + " " + value); field <= t && Trim(t[|field|..]) == value
  {
    var line := field + " " + value;
    if value == "" {
      assert line[..|line| - 1] == field;
      TrimIsTrimmed(field);
      TrimEndIsPrefix(line);
      assert TrimStart(line) == line && TrimEnd(line) == TrimEnd(field) == field;
    } else {
      TrimIsTrimmed(line);
      assert line[|field|..] == " " + value;
      assert (" " + value)[1..] == value;
      TrimIsTrimmed(value);
      assert TrimStart(" " + value) == TrimStart(value);
    }
  }

  // ----- The client -----

  datatype Client = Client(event: string, out: seq<Event>, thrown: bool)

  const FRESH := Client("", [], false)

  // One complete line. `valid` says which texts JSON.parse accepts; it throws on the others.
  function OnLine(valid: string -> bool, c: Client, line: string): Client {
    var t := Trim(line);
    if c.thrown || t == "" || t[0] == ':' then c
    else if EVENT <= t then c.(event := Trim(t[|EVENT|..]))
    else if DATA <= t then
      var d := Trim(t[|DATA|..]);
      if valid(d) then c.(out := c.out + [Event(c.event, d)]) else c.(thrown := true)
    else c
  }

  function OnLines(valid: string -> bool, c: Client, lines: seq<string>): Client {
    if lines == [] then c else OnLine(valid, OnLines(valid, c, lines[..|lines| - 1]), lines[|lines| - 1])
  }

  // The name that counts is the last one read, also after a data line.
  lemma {:induction false} LastNameCounts(valid: string -> bool, lines: seq<string>, i: nat)
    requires i < |lines| && "event:" <= Trim(lines[i]) && !OnLines(valid, FRESH, lines).thrown
    requires forall k :: i < k < |lines| ==> !("event:" <= Trim(lines[k]))
    ensures OnLines(valid, FRESH, lines).event == Trim(Trim(lines[i])[6..])
    decreases |lines|
  {
    if i < |lines| - 1 {
      LastNameCounts(valid, lines[..|lines| - 1], i);
    }
  }

  lemma OnDataLine(valid: string -> bool, c: Client, line: string)
    requires "data:" <= Trim(line) && !c.thrown
    ensures var text := Trim(Trim(line)[5..]);
            OnLine(valid, c, line) == if valid(text) then c.(out := c.out + [Event(c.event, text)]) else c.(thrown := true)
  {
    assert Trim(line)[0] == 'd';
  }

  // So each data line is yielded under the last name before it, as soon as it is read.
  lemma DataIsYieldedAtOnce(valid: string -> bool, lines: seq<string>, data: string, i: nat)
    requires i < |lines| && "event:" <= Trim(lines[i]) && !OnLines(valid, FRESH, lines).thrown
    requires forall k :: i < k < |lines| ==> !("event:" <= Trim(lines[k]))
    requires "data:" <= Trim(data)
    ensures var before, after := OnLines(valid, FRESH, lines), OnLines(valid, FRESH, lines + [data]);
            var text := Trim(Trim(data)[5..]);
            && after.thrown == !valid(text)
            && after.out == if valid(text) then before.out + [Event(Trim(Trim(lines[i])[6..]), text)] else before.out
  {
    LastNameCounts(valid, lines, i);
    OnDataLine(valid, OnLines(valid, FRESH, lines), data);
    var all := lines + [data];
    assert all[..|all| - 1] == lines && all[|all| - 1] == data;
  }

  // Everything the client has read, chunk after chunk, and the incomplete line it keeps.
  function Received(valid: string -> bool, chunks: seq<string>): (Client, string) {
    if chunks == [] then (FRESH, "")
    else
      var (c, buffer) := Received(valid, chunks[..|chunks| - 1]);
      if c.thrown then (c, buffer)
      else
        var text := buffer + chunks[|chunks| - 1];
        (OnLines(valid, c, Lines(text)), Rest(text))
  }

  function Concat(chunks: seq<string>): string {
    if chunks == [] then "" else Concat(chunks[..|chunks| - 1]) + chunks[|chunks| - 1]
  }

  lemma {:induction false} OnMoreLines(valid: string -> bool, c: Client, a: seq<string>, b: seq<string>)
    ensures OnLines(valid, c, a + b) == OnLines(valid, OnLines(valid, c, a), b)
  {
    if b == [] {
      assert a + b == a;
    } else {
      var n := |b| - 1;
      OnMoreLines(valid, c, a, b[..n]);
      assert (a + b)[..|a + b| - 1] == a + b[..n];
    }
  }

  lemma {:induction false} ThrownStays(valid: string -> bool, c: Client, lines: seq<string>)
    requires c.thrown
    ensures OnLines(valid, c, lines) == c
  {
    if lines != [] {
      ThrownStays(valid, c, lines[..|lines| - 1]);
    }
  }

  // However the text was cut, the client has yielded what the whole text yields, and it keeps
  // exactly what follows the last newline.
  lemma {:induction false} ChunksDoNotMatter(valid: string -> bool, chunks: seq<string>)
    ensures Received(valid, chunks).0 == OnLines(valid, FRESH, Lines(Concat(chunks)))
    ensures !Received(valid, chunks).0.thrown ==>
              && Received(valid, chunks).1 == Rest(Concat(chunks))
              && AfterLastNewline(Concat(chunks), Received(valid, chunks).1)
  {
    RestIsTheTail(Concat(chunks));
    if chunks != [] {
      var n := |chunks| - 1;
      ChunksDoNotMatter(valid, chunks[..n]);
      var text, chunk := Concat(chunks[..n]), chunks[n];
      SplitResumes(text, chunk);
      var more := Split(Rest(text) + chunk);
      assert Lines(text + chunk) == Lines(text) + more[..|more| - 1];
      OnMoreLines(valid, FRESH, Lines(text), more[..|more| - 1]);
      if Received(valid, chunks[..n]).0.thrown {
        ThrownStays(valid, Received(valid, chunks[..n]).0, more[..|more| - 1]);
      }
    }
  }

  lemma NextLine(valid: string -> bool, c: Client, lines: seq<string>, k: nat)
    requires k < |lines|
    ensures OnLines(valid, c, lines[..k + 1]) == OnLine(valid, OnLines(valid, c, lines[..k]), lines[k])
  {
    assert lines[..k + 1][..k] == lines[..k];
  }

  lemma NextChunk(valid: string -> bool, chunks: seq<string>, i: nat, c: Client, buffer: string)
    requires i < |chunks| && Received(valid, chunks[..i]) == (c, buffer) && !c.thrown
    ensures var text := buffer + chunks[i];
            Received(valid, chunks[..i + 1]) == (OnLines(valid, c, Lines(text)), Rest(text))
  {
    assert chunks[..i + 1][..i] == chunks[..i];
  }

  method Events(valid: string -> bool, chunks: seq<string>) returns (out: seq<Event>, thrown: bool, rest: string)
    ensures Received(valid, chunks).0.out == out && Received(valid, chunks).0.thrown == thrown
    ensures !thrown ==> Received(valid, chunks).1 == rest
  {
    out, thrown := [], false;
    var buffer, currentEvent := "", "";
    var i := 0;
    while i < |chunks| && !thrown
      invariant 0 <= i <= |chunks|
      invariant Received(valid, chunks[..i]) == (Client(currentEvent, out, thrown), buffer)
    {
      ghost var before := Client(currentEvent, out, thrown);
      NextChunk(valid, chunks, i, before, buffer);
      buffer := buffer + chunks[i];
      var lines := Split(buffer);
      buffer, lines := lines[|lines| - 1], lines[..|lines| - 1];
      var k := 0;
      while k < |lines| && !thrown
        invariant 0 <= k <= |lines|
        invariant OnLines(valid, before, lines[..k]) == Client(currentEvent, out, thrown)
      {
        NextLine(valid, before, lines, k);
        var trimmed := Trim(lines[k]);
        if trimmed == "" || trimmed[0] == ':' {
        } else if EVENT <= trimmed {
          currentEvent := Trim(trimmed[|EVENT|..]);
        } else if DATA <= trimmed {
          var data := Trim(trimmed[|DATA|..]);
          if valid(data) {
            out := out + [Event(currentEvent, data)];
          } else {
            thrown := true;
          }
        }
        k := k + 1;
      }
      StoppedEarly(valid, before, lines, k);
      i := i + 1;
    }
    assert chunks[..|chunks|] == chunks;
    NothingAfter(valid, chunks, i);
    rest := buffer;
  }

  lemma StoppedEarly(valid: string -> bool, c: Client, lines: seq<string>, k: nat)
    requires k <= |lines| && (k == |lines| || OnLines(valid, c, lines[..k]).thrown)
    ensures OnLines(valid, c, lines) == OnLines(valid, c, lines[..k])
  {
    assert lines == lines[..k] + lines[k..];
    OnMoreLines(valid, c, lines[..k], lines[k..]);
    if k < |lines| {
      ThrownStays(valid, OnLines(valid, c, lines[..k]), lines[k..]);
    }
  }

  lemma {:induction false} NothingAfter(valid: string -> bool, chunks: seq<string>, i: nat)
    requires i <= |chunks| && (i == |chunks| || Received(valid, chunks[..i]).0.thrown)
    ensures Received(valid, chunks) == Received(valid, chunks[..i])
  {
    if i == |chunks| {
      assert chunks[..i] == chunks;
    } else {
      assert chunks[..|chunks| - 1][..i] == chunks[..i];
      NothingAfter(valid, chunks[..|chunks| - 1], i);
    }
  }

  // ----- The server -----

  datatype Message = Message(event: Event, id: string)

  // What the loop of handleEvents wakes up for.
  datatype Wake = KeepAlive | Deliver(message: Message)

  const CONNECTED := Event("connected", "{\"status\":\"connected\"}")

  // The lines one wake-up prints.
  function LinesOf(w: Wake): seq<string> {
    match w
    case KeepAlive => [": keepalive", ""]
    case Deliver(m) =>
      ["event: " + m.event.name, "data: " + m.event.data] + (if m.id == "" then [] else ["id: " + m.id]) + [""]
  }

  function AllLines(ws: seq<Wake>): seq<string> {
    if ws == [] then LinesOf(Deliver(Message(CONNECTED, "")))
    else AllLines(ws[..|ws| - 1]) + LinesOf(ws[|ws| - 1])
  }

  // The same, as the format strings write it.
  lemma DeliveryText(event: string, data: string, id: string)
    ensures Terminated([event, data, id]) == event + "\n" + data + "\n" + id + "\n"
    ensures Terminated([event, data]) == event + "\n" + data + "\n"
    ensures Terminated([event]) == event + "\n"
  {
    assert [event, data, id][1..] == [data, id] && [event, data][1..] == [data] && [data, id][1..] == [id];
    assert [event][1..] == [] && [id][1..] == [] && [data][1..] == [];
    assert Terminated([id]) == id + "\n" && Terminated([data]) == data + "\n";
  }

  lemma WakeText(w: Wake)
    ensures w.KeepAlive? ==> Terminated(LinesOf(w)) == ": keepalive\n\n"
    ensures w.Deliver? ==>
              var m := w.message;
              Terminated(LinesOf(w)) ==
              ("event: " + m.event.name + "\n" + ("data: " + m.event.data) + "\n")
              + (if m.id == "" then "" else "id: " + m.id + "\n") + "\n"
  {
    match w
    case KeepAlive =>
      DeliveryText(": keepalive", "", "");
    case Deliver(m) =>
      var ends, id := ["event: " + m.event.name, "data: " + m.event.data], "id: " + m.id;
      DeliveryText(ends[0], ends[1], id);
      DeliveryText("", id, "");
      DeliveryText(id, "", "");
      TerminatedConcat(ends, if m.id == "" then [] else [id]);
      TerminatedConcat(ends + if m.id == "" then [] else [id], [""]);
  }

  method PrintWake(body: string, w: Wake) returns (out: string)
    ensures out == body + Terminated(LinesOf(w))
    ensures w.KeepAlive? ==> out == body + ": keepalive\n\n"
    ensures w.Deliver? ==>
              var m := w.message;
              out == body + (("event: " + m.event.name + "\n" + ("data: " + m.event.data) + "\n")
                             + (if m.id == "" then "" else "id: " + m.id + "\n") + "\n")
  {
    WakeText(w);
    match w {
      case KeepAlive =>
        out := body + ": keepalive\n\n";
      case Deliver(m) =>
        var text := "event: " + m.event.name + "\n" + ("data: " + m.event.data) + "\n";
        if m.id != "" {
          text := text + ("id: " + m.id + "\n");
        }
        out := body + (text + "\n");
    }
  }

  method HandleEvents(ws: seq<Wake>) returns (body: string)
    ensures body == Terminated(AllLines(ws))
  {
    body := PrintWake("", Deliver(Message(CONNECTED, "")));
    for i := 0 to |ws|
      invariant body == Terminated(AllLines(ws[..i]))
    {
      body := PrintWake(body, ws[i]);
      assert ws[..i + 1][..i] == ws[..i];
      TerminatedConcat(AllLines(ws[..i]), LinesOf(ws[i]));
    }
    assert ws[..|ws|] == ws;
  }

  // ----- There and back -----

  function EventsOf(ws: seq<Wake>): seq<Event> {
    if ws == [] then []
    else EventsOf(ws[..|ws| - 1]) + match ws[|ws| - 1] { case KeepAlive => [] case Deliver(m) => [m.event] }
  }

  predicate OneLineIds(ws: seq<Wake>) {
    forall w :: w in ws && w.Deliver? ==> '\n' !in w.message.id
  }

  // What survives: a name and a text of one line each, nothing to trim, and a text that parses.
  predicate Survives(valid: string -> bool, e: Event) {
    Trimmed(e.name) && '\n' !in e.name && Trimmed(e.data) && '\n' !in e.data && valid(e.data)
  }

  lemma SkippedLines(valid: string -> bool, c: Client, id: string)
    ensures OnLine(valid, c, "") == c && OnLine(valid, c, ": keepalive") == c && OnLine(valid, c, "id: " + id) == c
  {
    TrimIsTrimmed(": keepalive");
    TrimIsTrimmed("id: " + id);
    assert ("id: " + id)[0] == 'i';
  }

  lemma FieldLines(valid: string -> bool, c: Client, e: Event)
    requires !c.thrown && Survives(valid, e)
    ensures OnLine(valid, OnLine(valid, c, "event: " + e.name), "data: " + e.data) == Client(e.name, c.out + [e], false)
  {
    FieldReads(EVENT, e.name);
    FieldReads(DATA, e.data);
    assert EVENT + " " == "event: " && DATA + " " == "data: ";
    assert EVENT[0] != DATA[0];
  }

  lemma WakeIsRead(valid: string -> bool, c: Client, w: Wake)
    requires !c.thrown && (w.Deliver? ==> Survives(valid, w.message.event))
    ensures var r := OnLines(valid, c, LinesOf(w));
            !r.thrown && r.out == c.out + match w { case KeepAlive => [] case Deliver(m) => [m.event] }
  {
    match w
    case KeepAlive =>
      SkippedLines(valid, c, "");
      TwoLines(valid, c, ": keepalive", "");
    case Deliver(m) =>
      var d := OnLines(valid, c, ["event: " + m.event.name, "data: " + m.event.data]);
      TwoLines(valid, c, "event: " + m.event.name, "data: " + m.event.data);
      FieldLines(valid, c, m.event);
      SkippedLines(valid, d, m.id);
      if m.id == "" {
        assert LinesOf(w) == ["event: " + m.event.name, "data: " + m.event.data] + [""];
        OnMoreLines(valid, c, ["event: " + m.event.name, "data: " + m.event.data], [""]);
        assert OnLines(valid, d, [""]) == OnLine(valid, OnLines(valid, d, []), "");
      } else {
        assert LinesOf(w) == ["event: " + m.event.name, "data: " + m.event.data] + ["id: " + m.id, ""];
        OnMoreLines(valid, c, ["event: " + m.event.name, "data: " + m.event.data], ["id: " + m.id, ""]);
        TwoLines(valid, d, "id: " + m.id, "");
      }
  }

  lemma TwoLines(valid: string -> bool, c: Client, a: string, b: string)
    ensures OnLines(valid, c, [a, b]) == OnLine(valid, OnLine(valid, c, a), b)
  {
    assert [a, b][..1] == [a] && [a][..0] == [];
    assert OnLines(valid, c, [a]) == OnLine(valid, OnLines(valid, c, []), a);
  }

  lemma LastEvent(ws: seq<Wake>)
    requires ws != []
    ensures var w, before := ws[|ws| - 1], EventsOf(ws[..|ws| - 1]);
            && EventsOf(ws) == before + match w { case KeepAlive => [] case Deliver(m) => [m.event] }
            && (w.Deliver? ==> w.message.event in EventsOf(ws))
            && forall e :: e in before ==> e in EventsOf(ws)
  {
  }

  lemma {:induction false} AllAreRead(valid: string -> bool, ws: seq<Wake>)
    requires valid(CONNECTED.data) && forall e :: e in EventsOf(ws) ==> Survives(valid, e)
    ensures var r := OnLines(valid, FRESH, AllLines(ws)); !r.thrown && r.out == [CONNECTED] + EventsOf(ws)
  {
    if ws == [] {
      WakeIsRead(valid, FRESH, Deliver(Message(CONNECTED, "")));
    } else {
      var n := |ws| - 1;
      var c := OnLines(valid, FRESH, AllLines(ws[..n]));
      AllAreRead(valid, ws[..n]);
      OnMoreLines(valid, FRESH, AllLines(ws[..n]), LinesOf(ws[n]));
      LastEvent(ws);
      WakeIsRead(valid, c, ws[n]);
      assert AllLines(ws) == AllLines(ws[..n]) + LinesOf(ws[n]);
    }
  }

  lemma WakeLinesAreClean(w: Wake)
    requires w.Deliver? ==>
               '\n' !in w.message.event.name && '\n' !in w.message.event.data && '\n' !in w.message.id
    ensures forall l :: l in LinesOf(w) ==> '\n' !in l
  {
    assert '\n' !in ": keepalive" && '\n' !in "event: " && '\n' !in "data: " && '\n' !in "id: ";
  }

  lemma {:induction false} LinesAreClean(valid: string -> bool, ws: seq<Wake>)
    requires OneLineIds(ws) && forall e :: e in EventsOf(ws) ==> Survives(valid, e)
    ensures forall l :: l in AllLines(ws) ==> '\n' !in l
  {
    if ws == [] {
      WakeLinesAreClean(Deliver(Message(CONNECTED, "")));
    } else {
      var n := |ws| - 1;
      LinesAreClean(valid, ws[..n]);
      assert ws[n].Deliver? ==> ws[n].message.event in EventsOf(ws);
      WakeLinesAreClean(ws[n]);
    }
  }

  // Whatever the text, the client only ever yields such events.
  lemma {:induction false} YieldedSurvive(valid: string -> bool, lines: seq<string>)
    requires forall l :: l in lines ==> '\n' !in l
    ensures var c := OnLines(valid, FRESH, lines);
            && Trimmed(c.event) && '\n' !in c.event
            && forall e :: e in c.out ==> Survives(valid, e)
  {
    if lines != [] {
      var n := |lines| - 1;
      YieldedSurvive(valid, lines[..n]);
      var c, t := OnLines(valid, FRESH, lines[..n]), Trim(lines[n]);
      TrimIsTrimmed(lines[n]);
      assert '\n' !in t;
      if EVENT <= t {
        TrimIsTrimmed(t[|EVENT|..]);
        assert forall x :: x in t[|EVENT|..] ==> x in t;
      } else if DATA <= t {
        TrimIsTrimmed(t[|DATA|..]);
        assert forall x :: x in t[|DATA|..] ==> x in t;
      }
    }
  }

  // However its output is cut, the client gets back the connected event and then exactly the events
  // delivered, if and only if each of them has a one-line trimmed name and a one-line trimmed text that
  // parses as JSON.
  lemma RoundTrip(valid: string -> bool, ws: seq<Wake>, chunks: seq<string>)
    requires valid(CONNECTED.data) && OneLineIds(ws) && Concat(chunks) == Terminated(AllLines(ws))
    ensures Received(valid, chunks).0.out == [CONNECTED] + EventsOf(ws)
            <==> forall e :: e in EventsOf(ws) ==> Survives(valid, e)
    ensures (forall e :: e in EventsOf(ws) ==> Survives(valid, e)) ==>
              && !Received(valid, chunks).0.thrown && Received(valid, chunks).1 == ""
              && Received(valid, chunks).0.out == [Event("connected", "{\"status\":\"connected\"}")] + EventsOf(ws)
  {
    ChunksDoNotMatter(valid, chunks);
    PartsAreLines(Concat(chunks));
    var out := Received(valid, chunks).0.out;
    YieldedSurvive(valid, Lines(Concat(chunks)));
    if forall e :: e in EventsOf(ws) ==> Survives(valid, e) {
      LinesAreClean(valid, ws);
      LinesOfTerminated(AllLines(ws));
      AllAreRead(valid, ws);
    }
    if out == [CONNECTED] + EventsOf(ws) {
      forall e | e in EventsOf(ws) ensures Survives(valid, e) {
        assert e in out;
      }
    }
  }

  // ----- The standard's reading (WHATWG HTML Living Standard, sections 9.2.5 and 9.2.6) -----

  // Lines may also end with a carriage return, or with both.
  function StandardSplit(s: string): (parts: seq<string>)
    ensures |parts| > 0
  {
    if s == "" then [""]
    else if s[0] == '\r' && |s| > 1 && s[1] == '\n' then [""] + StandardSplit(s[2..])
    else if s[0] == '\r' || s[0] == '\n' then [""] + StandardSplit(s[1..])
    else Prepend(s[0], StandardSplit(s[1..]))
  }

  lemma {:induction false} NoReturns(s: string)
    requires '\r' !in s
    ensures StandardSplit(s) == Split(s)
  {
    if s != "" {
      NoReturns(s[1..]);
    }
  }

  datatype Reader = Reader(eventType: string, data: string, out: seq<Event>)

  function Colon(line: string): (k: nat)
    ensures k <= |line| && (k < |line| ==> line[k] == ':')
  {
    if line == "" || line[0] == ':' then 0 else 1 + Colon(line[1..])
  }

  function Value(line: string, k: nat): string {
    if k >= |line| then ""
    else if k + 1 < |line| && line[k + 1] == ' ' then line[k + 2..]
    else line[k + 1..]
  }

  // A blank line dispatches what has been collected, if there is any data.
  function OnStandardLine(r: Reader, line: string): Reader {
    if line == "" then
      if r.data == "" then Reader("", "", r.out)
      else
        Reader("", "", r.out + [Event(if r.eventType == "" then "message" else r.eventType, r.data[..|r.data| - 1])])
    else if line[0] == ':' then r
    else
      var k := Colon(line);
      if line[..k] == "event" then r.(eventType := Value(line, k))
      else if line[..k] == "data" then r.(data := r.data + Value(line, k) + "\n")
      else r
  }

  function OnStandardLines(r: Reader, lines: seq<string>): Reader
    decreases |lines|
  {
    if lines == [] then r else OnStandardLines(OnStandardLine(r, lines[0]), lines[1..])
  }

  function StandardEvents(text: string): seq<Event> {
    var parts := StandardSplit(text);
    OnStandardLines(Reader("", "", []), parts[..|parts| - 1]).out
  }

  lemma {:induction false} OnMoreStandardLines(r: Reader, a: seq<string>, b: seq<string>)
    ensures OnStandardLines(r, a + b) == OnStandardLines(OnStandardLines(r, a), b)
    decreases |a|
  {
    if a == [] {
      assert a + b == b;
    } else {
      OnMoreStandardLines(OnStandardLine(r, a[0]), a[1..], b);
      assert (a + b)[1..] == a[1..] + b;
    }
  }

  // An event without a name is dispatched as a message.
  function Named(e: Event): Event {
    if e.name == "" then e.(name := "message") else e
  }

  function AllNamed(es: seq<Event>): seq<Event> {
    seq(|es|, i requires 0 <= i < |es| => Named(es[i]))
  }

  lemma StandardFields(value: string)
    ensures Colon("event: " + value) == 5 && Value("event: " + value, 5) == value
    ensures Colon("data: " + value) == 4 && Value("data: " + value, 4) == value
    ensures Colon("id: " + value) == 2
  {
    ColonAfter("event", ": " + value);
    ColonAfter("data", ": " + value);
    ColonAfter("id", ": " + value);
    assert "event" + (": " + value) == "event: " + value;
    assert "data" + (": " + value) == "data: " + value;
    assert "id" + (": " + value) == "id: " + value;
  }

  lemma {:induction false} ColonAfter(field: string, tail: string)
    requires ':' !in field && tail != "" && tail[0] == ':'
    ensures Colon(field + tail) == |field|
  {
    if field == "" {
      assert field + tail == tail;
    } else {
      assert (field + tail)[1..] == field[1..] + tail;
      ColonAfter(field[1..], tail);
    }
  }

  lemma StandardLines(r: Reader, value: string)
    ensures OnStandardLine(r, "event: " + value) == r.(eventType := value)
    ensures OnStandardLine(r, "data: " + value) == r.(data := r.data + value + "\n")
    ensures OnStandardLine(r, "id: " + value) == r
  {
    StandardFields(value);
    assert ("event: " + value)[..5] == "event";
    assert ("data: " + value)[..4] == "data";
    assert ("id: " + value)[..2] == "id";
  }

  lemma StandardStep(r: Reader, lines: seq<string>)
    requires lines != []
    ensures OnStandardLines(r, lines) == OnStandardLines(OnStandardLine(r, lines[0]), lines[1..])
  {}

  // The three fields of a delivery, read from a reset state.
  lemma StandardDelivery(out: seq<Event>, e: Event, id: string)
    ensures OnStandardLines(Reader("", "", out), ["event: " + e.name, "data: " + e.data])
            == Reader(e.name, e.data + "\n", out)
    ensures OnStandardLine(Reader(e.name, e.data + "\n", out), "id: " + id) == Reader(e.name, e.data + "\n", out)
  {
    var ls := ["event: " + e.name, "data: " + e.data];
    var r1 := Reader(e.name, "", out);
    StandardLines(Reader("", "", out), e.name);
    StandardLines(r1, e.data);
    StandardLines(Reader(e.name, e.data + "\n", out), id);
    assert "" + e.data + "\n" == e.data + "\n";
    StandardStep(Reader("", "", out), ls);
    assert ls[1..] == [ls[1]] && ls[1..][1..] == [];
    StandardStep(r1, ls[1..]);
  }

  lemma StandardDispatch(e: Event, out: seq<Event>)
    ensures OnStandardLine(Reader(e.name, e.data + "\n", out), "") == Reader("", "", out + [Named(e)])
  {
    assert (e.data + "\n")[..|e.data|] == e.data;
  }

  lemma StandardEnd(r: Reader, line: string)
    ensures OnStandardLines(r, [line]) == OnStandardLine(r, line)
    ensures OnStandardLines(r, [line, ""]) == OnStandardLine(OnStandardLine(r, line), "")
  {
    assert [line, ""][1..] == [""] && [line][1..] == [] && [""][1..] == [];
    StandardStep(r, [line, ""]);
    StandardStep(OnStandardLine(r, line), [""]);
  }

  lemma StandardWake(out: seq<Event>, w: Wake)
    ensures OnStandardLines(Reader("", "", out), LinesOf(w)) ==
            Reader("", "", out + match w { case KeepAlive => [] case Deliver(m) => [Named(m.event)] })
  {
    var r := Reader("", "", out);
    match w
    case KeepAlive =>
      StandardEnd(r, ": keepalive");
    case Deliver(m) =>
      var fields := ["event: " + m.event.name, "data: " + m.event.data];
      var read := Reader(m.event.name, m.event.data + "\n", out);
      StandardDelivery(out, m.event, m.id);
      StandardDispatch(m.event, out);
      StandardEnd(read, "");
      StandardEnd(read, "id: " + m.id);
      if m.id == "" {
        assert LinesOf(w) == fields + [""];
        OnMoreStandardLines(r, fields, [""]);
      } else {
        assert LinesOf(w) == fields + ["id: " + m.id, ""];
        OnMoreStandardLines(r, fields, ["id: " + m.id, ""]);
      }
  }

  lemma {:induction false} StandardAll(ws: seq<Wake>)
    ensures OnStandardLines(Reader("", "", []), AllLines(ws)) == Reader("", "", [CONNECTED] + AllNamed(EventsOf(ws)))
  {
    if ws == [] {
      StandardWake([], Deliver(Message(CONNECTED, "")));
    } else {
      var n := |ws| - 1;
      StandardAll(ws[..n]);
      OnMoreStandardLines(Reader("", "", []), AllLines(ws[..n]), LinesOf(ws[n]));
      StandardWake([CONNECTED] + AllNamed(EventsOf(ws[..n])), ws[n]);
    }
  }

  lemma SameTail<T>(head: T, a: seq<T>, b: seq<T>)
    ensures [head] + a == [head] + b <==> a == b
  {
    assert ([head] + a)[1..] == a && ([head] + b)[1..] == b;
  }

  lemma UnchangedWhenNamed(es: seq<Event>)
    ensures AllNamed(es) == es <==> forall e :: e in es ==> e.name != ""
  {
    assert forall i :: 0 <= i < |es| ==> AllNamed(es)[i] == Named(es[i]);
  }

  // The standard never reads a carriage return into a name or a text.
  lemma {:induction false} StandardParts(s: string)
    ensures forall l :: l in StandardSplit(s) ==> '\r' !in l
  {
    if s != "" {
      if s[0] == '\r' && |s| > 1 && s[1] == '\n' {
        StandardParts(s[2..]);
      } else {
        StandardParts(s[1..]);
        var parts := StandardSplit(s[1..]);
        if s[0] != '\r' && s[0] != '\n' {
          assert '\r' !in [s[0]] + parts[0];
          assert forall l :: l in parts[1..] ==> l in parts;
        }
      }
    }
  }

  predicate OneLine(r: Reader) {
    '\r' !in r.eventType && '\r' !in r.data && forall e :: e in r.out ==> '\r' !in e.name && '\r' !in e.data
  }

  lemma OneLineStep(r: Reader, line: string)
    requires OneLine(r) && '\r' !in line
    ensures OneLine(OnStandardLine(r, line))
  {
    if line != "" {
      var k := Colon(line);
      assert forall c :: c in Value(line, k) ==> c in line;
    } else if r.data != "" {
      assert forall c :: c in r.data[..|r.data| - 1] ==> c in r.data;
      assert '\r' !in "message";
    }
  }

  lemma {:induction false} OneLineRun(r: Reader, lines: seq<string>)
    requires OneLine(r) && forall l :: l in lines ==> '\r' !in l
    ensures OneLine(OnStandardLines(r, lines))
    decreases |lines|
  {
    if lines != [] {
      OneLineStep(r, lines[0]);
      OneLineRun(OnStandardLine(r, lines[0]), lines[1..]);
    }
  }

  lemma StandardIsOneLine(text: string)
    ensures forall e :: e in StandardEvents(text) ==> '\r' !in e.name && '\r' !in e.data
  {
    StandardParts(text);
    var parts := StandardSplit(text);
    OneLineRun(Reader("", "", []), parts[..|parts| - 1]);
  }

  // ----- The two readings -----

  predicate NoReturnsInIds(ws: seq<Wake>) {
    forall w :: w in ws && w.Deliver? ==> '\r' !in w.message.id
  }

  // A name, and no carriage return.
  predicate Plain(e: Event) {
    e.name != "" && '\r' !in e.name && '\r' !in e.data
  }

  lemma WakeLinesHaveNoReturns(w: Wake)
    requires w.Deliver? ==> '\r' !in w.message.event.name && '\r' !in w.message.event.data && '\r' !in w.message.id
    ensures '\r' !in Terminated(LinesOf(w))
  {
    WakeText(w);
    assert '\r' !in ": keepalive\n\n" && '\r' !in "event: " && '\r' !in "data: " && '\r' !in "id: " && '\r' !in "\n";
  }

  lemma {:induction false} PrintedHasNoReturns(ws: seq<Wake>)
    requires NoReturnsInIds(ws) && forall e :: e in EventsOf(ws) ==> '\r' !in e.name && '\r' !in e.data
    ensures '\r' !in Terminated(AllLines(ws))
  {
    if ws == [] {
      WakeLinesHaveNoReturns(Deliver(Message(CONNECTED, "")));
    } else {
      var n := |ws| - 1;
      LastEvent(ws);
      PrintedHasNoReturns(ws[..n]);
      WakeLinesHaveNoReturns(ws[n]);
      TerminatedConcat(AllLines(ws[..n]), LinesOf(ws[n]));
    }
  }

  // With no carriage return in it, the standard reads what was delivered, but for events without a name.
  lemma StandardReadsThem(valid: string -> bool, ws: seq<Wake>)
    requires OneLineIds(ws) && NoReturnsInIds(ws)
    requires forall e :: e in EventsOf(ws) ==> Survives(valid, e) && '\r' !in e.name && '\r' !in e.data
    ensures StandardEvents(Terminated(AllLines(ws))) == [CONNECTED] + AllNamed(EventsOf(ws))
  {
    PrintedHasNoReturns(ws);
    NoReturns(Terminated(AllLines(ws)));
    LinesAreClean(valid, ws);
    LinesOfTerminated(AllLines(ws));
    StandardAll(ws);
  }

  // On the server's output the client, which yields at each data line, and the standard, which
  // dispatches at each blank line, read the same events, if and only if no event lacks a name and none
  // has a carriage return inside its name or its text.
  lemma ClientMeetsTheStandard(valid: string -> bool, ws: seq<Wake>, chunks: seq<string>)
    requires valid(CONNECTED.data) && OneLineIds(ws) && NoReturnsInIds(ws)
    requires forall e :: e in EventsOf(ws) ==> Survives(valid, e)
    requires Concat(chunks) == Terminated(AllLines(ws))
    ensures StandardEvents(Concat(chunks)) == Received(valid, chunks).0.out
            <==> forall e :: e in EventsOf(ws) ==> Plain(e)
  {
    RoundTrip(valid, ws, chunks);
    var es, out := EventsOf(ws), StandardEvents(Concat(chunks));
    StandardIsOneLine(Concat(chunks));
    if forall e :: e in es ==> '\r' !in e.name && '\r' !in e.data {
      StandardReadsThem(valid, ws);
      SameTail(CONNECTED, AllNamed(es), es);
      UnchangedWhenNamed(es);
    } else if out == [CONNECTED] + es {
      TailIsIn(CONNECTED, es);
    }
  }

  lemma TailIsIn<T>(head: T, a: seq<T>)
    ensures forall x :: x in a ==> x in [head] + a
  {
  }
}
