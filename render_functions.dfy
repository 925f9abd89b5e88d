/** The two pieces of the rendering helpers that carry logic: the text shown
    for the names of the entities on a map cell, and the editing rules of the
    blocking text prompt used to enter the player's name and the seed. */
module Render {
  import opened Wrappers

  // ---------------------------------------------------------------------
  // Names at a location

  /** An entity on the map: where it stands and what it is called. */
  datatype Entity = Entity(x: int, y: int, name: string)

  /** What the name lookup reads of the game map: its size, the visibility
      grid (indexed `visible[x][y]`) and the entities in iteration order. */
  datatype GameMap = GameMap(width: int, height: int, visible: seq<seq<bool>>, entities: seq<Entity>)

  /** The visibility grid has one column of `height` cells per x. */
  predicate WellFormed(m: GameMap)
  {
    |m.visible| == m.width && forall i :: 0 <= i < |m.visible| ==> |m.visible[i]| == m.height
  }

  predicate InBounds(m: GameMap, x: int, y: int)
  {
    0 <= x < m.width && 0 <= y < m.height
  }

  predicate StandsAt(e: Entity, x: int, y: int)
  {
    e.x == x && e.y == y
  }

  /** The names of the entities standing on (x, y), in iteration order. */
  function NamesAt(es: seq<Entity>, x: int, y: int): (r: seq<string>)
    ensures |r| <= |es|
    ensures r == [] <==> forall i :: 0 <= i < |es| ==> !StandsAt(es[i], x, y)
  {
    if es == [] then []
    else
      var rest := NamesAt(es[1..], x, y);
      assert forall i :: 1 <= i < |es| ==> es[i] == es[1..][i - 1];
      if StandsAt(es[0], x, y) then [es[0].name] + rest else rest
  }

  /** Total length of the names. */
  function TotalLength(parts: seq<string>): nat
  {
    if parts == [] then 0 else |parts[0]| + TotalLength(parts[1..])
  }

  /** `sep.join(parts)`: every name once, in order, with one separator
      between neighbours. */
  function Join(parts: seq<string>, sep: string): (r: string)
    ensures |parts| == 0 ==> r == ""
    ensures |parts| > 0 ==> |r| == TotalLength(parts) + (|parts| - 1) * |sep|
    ensures |parts| > 0 ==> r[..|parts[0]|] == parts[0]
  {
    if |parts| == 0 then ""
    else if |parts| == 1 then parts[0]
    else
      var tail := Join(parts[1..], sep);
      assert (|parts| - 1) * |sep| == (|parts| - 2) * |sep| + |sep|;
      parts[0] + sep + tail
  }

  function Upper(c: char): char
  {
    if 'a' <= c <= 'z' then (c as int - 32) as char else c
  }

  function Lower(c: char): char
  {
    if 'A' <= c <= 'Z' then (c as int + 32) as char else c
  }

  /** `str.capitalize()`: first character upper case, the rest lower case. */
  function Capitalize(s: string): (r: string)
    ensures |r| == |s|
    ensures |s| > 0 ==> r[0] == Upper(s[0])
    ensures forall i :: 1 <= i < |s| ==> r[i] == Lower(s[i])
  {
    if s == [] then []
    else [Upper(s[0])] + seq(|s| - 1, i requires 0 <= i < |s| - 1 => Lower(s[i + 1]))
  }

  /** The text shown for what stands on (x, y): nothing outside the map or on
      a cell not currently visible, otherwise the names there joined with
      ", " and capitalised. */
  function NamesAtLocation(x: int, y: int, m: GameMap): (r: string)
    requires WellFormed(m)
    ensures !InBounds(m, x, y) ==> r == ""
    ensures InBounds(m, x, y) && !m.visible[x][y] ==> r == ""
    ensures NamesAt(m.entities, x, y) == [] ==> r == ""
    ensures InBounds(m, x, y) && m.visible[x][y] ==>
              r == Capitalize(Join(NamesAt(m.entities, x, y), ", "))
    ensures Capitalize(r) == r
  {
    if !InBounds(m, x, y) || !m.visible[x][y] then ""
    else
      var names := Join(NamesAt(m.entities, x, y), ", ");
      CapitalizeIdempotent(names);
      Capitalize(names)
  }

  // ---------------------------------------------------------------------
  // Properties of the name lookup

  lemma CaseIdempotent(c: char)
    ensures Upper(Upper(c)) == Upper(c) && Lower(Lower(c)) == Lower(c)
    ensures Lower(Upper(c)) == Lower(c) || !('a' <= c <= 'z')
  {
  }

  /** Capitalising twice is capitalising once. */
  lemma CapitalizeIdempotent(s: string)
    ensures Capitalize(Capitalize(s)) == Capitalize(s)
  {
    var r := Capitalize(s);
    var rr := Capitalize(r);
    if s != [] {
      CaseIdempotent(s[0]);
      forall i | 1 <= i < |s| ensures rr[i] == r[i] {
        CaseIdempotent(s[i]);
      }
    }
  }

  /** An entity iterated last adds its name at the end, and only when it
      stands on the queried cell. */
  lemma {:induction false} NamesAtAppend(es: seq<Entity>, e: Entity, x: int, y: int)
    ensures NamesAt(es + [e], x, y) ==
              NamesAt(es, x, y) + (if StandsAt(e, x, y) then [e.name] else [])
  {
    if es != [] {
      assert (es + [e])[1..] == es[1..] + [e];
      NamesAtAppend(es[1..], e, x, y);
    }
  }

  lemma {:induction false} JoinAppend(parts: seq<string>, p: string, sep: string)
    requires parts != []
    ensures Join(parts + [p], sep) == Join(parts, sep) + sep + p
  {
    if |parts| > 1 {
      assert (parts + [p])[1..] == parts[1..] + [p];
      JoinAppend(parts[1..], p, sep);
    }
  }

  /** With a non-empty separator the joined text is empty exactly when there
      are no names, or a single empty name. */
  lemma {:induction false} JoinEmpty(parts: seq<string>, sep: string)
    requires sep != ""
    ensures Join(parts, sep) == "" <==> |parts| == 0 || (|parts| == 1 && parts[0] == "")
  {
    if |parts| > 1 {
      assert |Join(parts, sep)| >= |sep| > 0;
    }
  }

  /** An entity that does not stand on the cell changes nothing there. */
  lemma OtherCellsIgnored(x: int, y: int, m: GameMap, e: Entity)
    requires WellFormed(m) && !StandsAt(e, x, y)
    ensures NamesAtLocation(x, y, m.(entities := m.entities + [e])) == NamesAtLocation(x, y, m)
  {
    var moved := m.(entities := m.entities + [e]);
    assert WellFormed(moved);
    NamesAtAppend(m.entities, e, x, y);
    assert NamesAt(moved.entities, x, y) == NamesAt(m.entities, x, y);
  }

  /** An entity iterated last, on a visible cell where others already stand,
      is listed after them, separated by ", ". */
  lemma ArrivalListedLast(x: int, y: int, m: GameMap, e: Entity)
    requires WellFormed(m) && InBounds(m, x, y) && m.visible[x][y]
    requires StandsAt(e, x, y) && NamesAt(m.entities, x, y) != []
    ensures NamesAtLocation(x, y, m.(entities := m.entities + [e])) ==
              Capitalize(Join(NamesAt(m.entities, x, y), ", ") + ", " + e.name)
  {
    NamesAtAppend(m.entities, e, x, y);
    JoinAppend(NamesAt(m.entities, x, y), e.name, ", ");
  }

  /** A lone entity on a visible cell is shown by its capitalised name. */
  lemma LoneEntity(x: int, y: int, m: GameMap, e: Entity)
    requires WellFormed(m) && InBounds(m, x, y) && m.visible[x][y]
    requires StandsAt(e, x, y) && NamesAt(m.entities, x, y) == []
    ensures NamesAtLocation(x, y, m.(entities := m.entities + [e])) == Capitalize(e.name)
  {
    NamesAtAppend(m.entities, e, x, y);
  }

  // ---------------------------------------------------------------------
  // The text prompt's buffer

  /** The keys the prompt reacts to; every other key is `OtherKey`. */
  datatype KeySym = Return | Return2 | KpEnter | Backspace | KpBackspace | Escape | OtherKey(code: int)

  /** Input events as the prompt sees them. */
  datatype Event = TextInput(text: string) | KeyDown(sym: KeySym) | OtherEvent

  predicate IsEnter(k: KeySym)
  {
    k == Return || k == Return2 || k == KpEnter
  }

  predicate IsBackspace(k: KeySym)
  {
    k == Backspace || k == KpBackspace
  }

  /** The prompt either keeps editing `buffer` or has finished with `text`. */
  datatype Edit = Editing(buffer: string) | Done(text: string)

  /** The effect of one event on the buffer. */
  function EditStep(buffer: string, e: Event): (r: Edit)
    ensures e.TextInput? ==>
              r.Editing? && |r.buffer| == |buffer| + |e.text| &&
              r.buffer[..|buffer|] == buffer && r.buffer[|buffer|..] == e.text
    ensures e.KeyDown? && IsBackspace(e.sym) ==>
              r.Editing? && (buffer == "" ==> r.buffer == "") &&
              (buffer != "" ==> r.buffer + [buffer[|buffer| - 1]] == buffer)
    ensures e.KeyDown? && IsEnter(e.sym) ==> r == Done(buffer)
    ensures e.KeyDown? && e.sym == Escape ==> r == Done("")
    ensures e.OtherEvent? || (e.KeyDown? && e.sym.OtherKey?) ==> r == Editing(buffer)
  {
    match e
    case TextInput(t) => Editing(buffer + t)
    case KeyDown(k) =>
      if IsEnter(k) then Done(buffer)
      else if IsBackspace(k) then Editing(if buffer == "" then "" else buffer[..|buffer| - 1])
      else if k == Escape then Done("")
      else Editing(buffer)
    case OtherEvent => Editing(buffer)
  }

  /** The prompt's answer after `events`, starting from `buffer`: the text it
      returns, or None while it is still waiting for more input. */
  function Read(buffer: string, events: seq<Event>): (r: Option<string>)
    ensures r.None? <==> forall i :: 0 <= i < |events| ==> KeepsEditing(events[i])
    decreases |events|
  {
    if events == [] then None
    else
      assert forall i :: 1 <= i < |events| ==> events[i] == events[1..][i - 1];
      match EditStep(buffer, events[0])
      case Done(t) => Some(t)
      case Editing(b) => Read(b, events[1..])
  }

  /** Total length of the text typed in `events`. */
  function TypedLength(events: seq<Event>): nat
  {
    if events == [] then 0
    else (if events[0].TextInput? then |events[0].text| else 0) + TypedLength(events[1..])
  }

  /** `ask_for_text` without the drawing: consume events, editing the buffer,
      until Enter (answer the buffer) or Escape (answer the empty string). */
  method AskForText(events: seq<Event>) returns (answer: Option<string>)
    ensures answer == Read("", events)
    ensures answer.Some? ==> |answer.value| <= TypedLength(events)
  {
    var buffer := "";
    var i := 0;
    while i < |events|
      invariant 0 <= i <= |events|
      invariant Read("", events) == Read(buffer, events[i..])
      invariant |buffer| + TypedLength(events[i..]) <= TypedLength(events)
    {
      var event := events[i];
      assert events[i..][1..] == events[i + 1..];
      if event.TextInput? {
        buffer := buffer + event.text;
      } else if event.KeyDown? {
        if IsEnter(event.sym) {
          return Some(buffer);
        } else if IsBackspace(event.sym) {
          buffer := if buffer == "" then "" else buffer[..|buffer| - 1];
        } else if event.sym == Escape {
          return Some("");
        }
      }
      i := i + 1;
    }
    answer := None;
  }

  // ---------------------------------------------------------------------
  // Properties of the prompt

  /** `s` typed one character per event. */
  function Typed(s: string): (r: seq<Event>)
    ensures |r| == |s|
  {
    if s == "" then [] else [TextInput([s[0]])] + Typed(s[1..])
  }

  /** `n` presses of Backspace. */
  function Backspaces(n: nat): (r: seq<Event>)
    ensures |r| == n
  {
    if n == 0 then [] else [KeyDown(Backspace)] + Backspaces(n - 1)
  }

  /** Typing `s` appends `s` to the buffer. */
  lemma {:induction false} TypingAppends(b: string, s: string, rest: seq<Event>)
    ensures Read(b, Typed(s) + rest) == Read(b + s, rest)
    decreases |s|
  {
    if s != "" {
      var events := Typed(s) + rest;
      assert events[0] == TextInput([s[0]]);
      assert events[1..] == Typed(s[1..]) + rest;
      assert EditStep(b, events[0]) == Editing(b + [s[0]]);
      assert Read(b, events) == Read(b + [s[0]], events[1..]);
      TypingAppends(b + [s[0]], s[1..], rest);
      assert b + [s[0]] + s[1..] == b + s;
    } else {
      assert Typed(s) + rest == rest && b + s == b;
    }
  }

  /** One Backspace per character erases what was typed. */
  lemma {:induction false} BackspacesErase(b: string, s: string, rest: seq<Event>)
    ensures Read(b + s, Backspaces(|s|) + rest) == Read(b, rest)
    decreases |s|
  {
    if s != "" {
      var shorter := s[..|s| - 1];
      var events := Backspaces(|s|) + rest;
      assert events[0] == KeyDown(Backspace);
      assert events[1..] == Backspaces(|shorter|) + rest;
      assert (b + s)[..|b + s| - 1] == b + shorter;
      assert EditStep(b + s, events[0]) == Editing(b + shorter);
      assert Read(b + s, events) == Read(b + shorter, events[1..]);
      BackspacesErase(b, shorter, rest);
    } else {
      assert Backspaces(0) + rest == rest && b + s == b;
    }
  }

  /** Typing a text and erasing it with Backspace leaves the prompt as it was. */
  lemma TypeThenErase(b: string, s: string, rest: seq<Event>)
    ensures Read(b, Typed(s) + Backspaces(|s|) + rest) == Read(b, rest)
  {
    assert Typed(s) + Backspaces(|s|) + rest == Typed(s) + (Backspaces(|s|) + rest);
    TypingAppends(b, s, Backspaces(|s|) + rest);
    BackspacesErase(b, s, rest);
  }

  /** Neither Enter nor Escape: an event that does not end the prompt. */
  predicate KeepsEditing(e: Event)
  {
    !(e.KeyDown? && (IsEnter(e.sym) || e.sym == Escape))
  }

  /** Escape answers the empty string whatever was typed before it. */
  lemma {:induction false} EscapeDiscards(b: string, events: seq<Event>, rest: seq<Event>)
    requires forall i :: 0 <= i < |events| ==> KeepsEditing(events[i])
    ensures Read(b, events + [KeyDown(Escape)] + rest) == Some("")
    decreases |events|
  {
    if events != [] {
      assert (events + [KeyDown(Escape)] + rest)[1..] == events[1..] + [KeyDown(Escape)] + rest;
      EscapeDiscards(EditStep(b, events[0]).buffer, events[1..], rest);
    }
  }

  /** Enter answers the buffer: typing `s` and pressing Enter gives `s`. */
  lemma TypeThenEnter(s: string, rest: seq<Event>)
    ensures Read("", Typed(s) + [KeyDown(Return)] + rest) == Some(s)
  {
    assert Typed(s) + [KeyDown(Return)] + rest == Typed(s) + ([KeyDown(Return)] + rest);
    TypingAppends("", s, [KeyDown(Return)] + rest);
    assert "" + s == s;
  }
}
