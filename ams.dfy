/**
 * The event listing of the asset-management service: a CSV header naming
 * twelve event properties, then one line per event holding those properties
 * in the same order. A property that is missing or falsy leaves its cell
 * empty; any other value is turned into text and has its newlines, carriage
 * returns and commas escaped with a backslash.
 */
module Ams {
  import opened Wrappers
  import opened JsValues
  import opened Seqs
  import opened Sink

  /** An event as the service's JSON delivers it; a key it lacks reads as undefined. */
  type Event = map<string, Wire>

  /** The columns of the listing, in the order they are written. */
  const EventProperties: seq<string> := [
    "path", "assetType", "dueDate", "userName", "priority", "updated",
    "userId", "startDate", "description", "id", "cause", "type"]

  /** `event[p]`. */
  function Property(e: Event, p: string): Wire {
    if p in e then e[p] else Undefined
  }

  // ---------------------------------------------------------------------
  // Lines: every cell followed by a comma, the last by a newline.
  // ---------------------------------------------------------------------

  /** What is written after cell `i` of `n`. */
  function Separator(i: nat, n: nat): string {
    if i == n - 1 then "\n" else ","
  }

  /** The first `k` cells of a line, each followed by its separator. */
  function LinePrefix(cells: seq<string>, k: nat): string
    requires k <= |cells|
  {
    if k == 0 then "" else LinePrefix(cells, k - 1) + cells[k - 1] + Separator(k - 1, |cells|)
  }

  /** The text the cell loop writes for `cells`. */
  function Line(cells: seq<string>): string {
    LinePrefix(cells, |cells|)
  }

  /** The first `k` cells are the join of those cells with ",", then the separator that follows cell `k - 1`. */
  lemma {:induction false} LinePrefixIsJoin(cells: seq<string>, k: nat)
    requires 1 <= k <= |cells|
    ensures LinePrefix(cells, k) == Join(cells[..k], ",") + Separator(k - 1, |cells|)
  {
    if k > 1 {
      LinePrefixIsJoin(cells, k - 1);
      JoinSnoc(cells[..k - 1], cells[k - 1], ",");
      assert cells[..k - 1] + [cells[k - 1]] == cells[..k];
      AppendAssoc(Join(cells[..k - 1], ","), ",", cells[k - 1]);
    }
  }

  /** A line of at least one cell is its cells joined by "," and ended by a newline. */
  lemma LineIsJoin(cells: seq<string>)
    requires |cells| >= 1
    ensures Line(cells) == Join(cells, ",") + "\n"
  {
    LinePrefixIsJoin(cells, |cells|);
    assert cells[..|cells|] == cells;
  }

  /** A line whose cells hold no newline holds exactly one, its last character. */
  lemma {:induction false} LineHasOneNewline(cells: seq<string>, k: nat)
    requires 1 <= k <= |cells|
    requires forall i :: 0 <= i < |cells| ==> '\n' !in cells[i]
    ensures multiset(LinePrefix(cells, k))['\n'] == if k == |cells| then 1 else 0
  {
    var sep := Separator(k - 1, |cells|);
    assert multiset(cells[k - 1])['\n'] == 0;
    assert LinePrefix(cells, k) == LinePrefix(cells, k - 1) + cells[k - 1] + sep;
    if k > 1 {
      LineHasOneNewline(cells, k - 1);
    }
    assert multiset(sep)['\n'] == if k == |cells| then 1 else 0;
  }

  /** The header: the property names joined by commas, then a newline. */
  lemma HeaderIsJoin()
    ensures Line(EventProperties) == Join(EventProperties, ",") + "\n"
  {
    var p := EventProperties;
    assert |p| == 12;
    LineIsJoin(p);
  }

  // ---------------------------------------------------------------------
  // Escaping.
  // ---------------------------------------------------------------------

  /** `s.replace(/c/g, rep)`: every occurrence of `c` becomes `rep`. */
  function ReplaceAll(s: string, c: char, rep: string): (r: string)
    ensures c !in rep ==> c !in r
    ensures forall ch :: ch != c && ch !in rep && ch !in s ==> ch !in r
    ensures c !in s ==> r == s
  {
    if s == [] then [] else (if s[0] == c then rep else [s[0]]) + ReplaceAll(s[1..], c, rep)
  }

  /** Replacing in a concatenation replaces in each part. */
  lemma {:induction false} ReplaceAllAppend(a: string, b: string, c: char, rep: string)
    ensures ReplaceAll(a + b, c, rep) == ReplaceAll(a, c, rep) + ReplaceAll(b, c, rep)
  {
    if a != [] {
      assert (a + b)[0] == a[0];
      assert (a + b)[1..] == a[1..] + b;
      ReplaceAllAppend(a[1..], b, c, rep);
      AppendAssoc(if a[0] == c then rep else [a[0]], ReplaceAll(a[1..], c, rep), ReplaceAll(b, c, rep));
    } else {
      assert a + b == b;
    }
  }

  /** The three replacements in the order they are applied: newlines, carriage returns, commas. */
  function Escape(s: string): string {
    ReplaceAll(ReplaceAll(ReplaceAll(s, '\n', "\\n"), '\r', "\\r"), ',', "\\,")
  }

  /** The escape of one character, as a reference for `Escape`. */
  function EscapeChar(ch: char): (r: string)
    ensures |r| >= 1
  {
    if ch == '\n' then "\\n" else if ch == '\r' then "\\r" else if ch == ',' then "\\," else [ch]
  }

  /** Each character of `s` escaped on its own. */
  function Escaped(s: string): string {
    if s == [] then [] else EscapeChar(s[0]) + Escaped(s[1..])
  }

  /** Applying the three replacements in turn is the same as escaping each character once. */
  lemma {:induction false} EscapeIsPerCharacter(s: string)
    ensures Escape(s) == Escaped(s)
  {
    if s != [] {
      var x0 := if s[0] == '\n' then "\\n" else [s[0]];
      var r1 := ReplaceAll(s[1..], '\n', "\\n");
      assert ReplaceAll(s, '\n', "\\n") == x0 + r1;
      ReplaceAllAppend(x0, r1, '\r', "\\r");
      var x1 := ReplaceAll(x0, '\r', "\\r");
      var r2 := ReplaceAll(r1, '\r', "\\r");
      ReplaceAllAppend(x1, r2, ',', "\\,");
      var x2 := ReplaceAll(x1, ',', "\\,");
      assert x2 == EscapeChar(s[0]) by {
        if s[0] == '\n' {
          assert x1 == "\\n";
        } else if s[0] == '\r' {
          assert x0 == "\r";
          assert x1 == "\\r";
        } else if s[0] == ',' {
          assert x1 == ",";
        } else {
          assert x1 == [s[0]];
        }
      }
      EscapeIsPerCharacter(s[1..]);
    }
  }

  /** Every comma of `t` follows a backslash. */
  predicate CommasEscaped(t: string) {
    forall j :: 0 <= j < |t| && t[j] == ',' ==> 0 < j && t[j - 1] == '\\'
  }

  lemma CommasEscapedAppend(a: string, b: string)
    requires CommasEscaped(a) && CommasEscaped(b)
    ensures CommasEscaped(a + b)
  {
    var t := a + b;
    forall j | 0 <= j < |t| && t[j] == ','
      ensures 0 < j && t[j - 1] == '\\'
    {
      if j >= |a| {
        assert t[j] == b[j - |a|];
        assert t[j - 1] == b[j - 1 - |a|];
      }
    }
  }

  /** Escaped text holds no line break, and every comma in it is preceded by a backslash. */
  lemma {:induction false} EscapedIsCellSafe(s: string)
    ensures '\n' !in Escaped(s) && '\r' !in Escaped(s)
    ensures CommasEscaped(Escaped(s))
  {
    if s != [] {
      EscapedIsCellSafe(s[1..]);
      var x := EscapeChar(s[0]);
      assert CommasEscaped(x) by {
        if s[0] == ',' {
          assert x == ['\\', ','];
        }
      }
      CommasEscapedAppend(x, Escaped(s[1..]));
    }
  }

  /** Text with no newline, carriage return or comma is written unchanged. */
  lemma {:induction false} PlainTextKept(s: string)
    requires '\n' !in s && '\r' !in s && ',' !in s
    ensures Escape(s) == s
  {
    EscapeIsPerCharacter(s);
    if s != [] {
      PlainTextKept(s[1..]);
      EscapeIsPerCharacter(s[1..]);
    }
  }

  /** The escape is not reversible: a newline and a backslash followed by `n` are written alike. */
  lemma EscapeIsLossy()
    ensures Escape("\n") == Escape("\\n") == "\\n"
  {
    PlainTextKept("\\n");
    assert ReplaceAll("\n", '\n', "\\n") == "\\n";
  }

  // ---------------------------------------------------------------------
  // Event cells and the listing.
  // ---------------------------------------------------------------------

  /** The cell of property `p`: empty when `event[p]` is falsy, else its text escaped. */
  function FieldText(e: Event, p: string): (r: string)
    ensures '\n' !in r && '\r' !in r && CommasEscaped(r)
  {
    var v := Property(e, p);
    if Truthy(v) then
      var s := StringOf(v).value;
      EscapeIsPerCharacter(s);
      EscapedIsCellSafe(s);
      Escape(s)
    else ""
  }

  /** Missing keys and the falsy values (null, false, 0, NaN, "") all give an empty cell. */
  lemma FalsyValuesBlank(e: Event, p: string)
    requires Property(e, p) in {Undefined, Null, Bool(false), Num(Int(0)), Num(NaN), Str("")}
    ensures FieldText(e, p) == ""
  {
  }

  /** A truthy value is written as its text, escaped. */
  lemma TruthyValueWritten(e: Event, p: string)
    requires Truthy(Property(e, p))
    ensures StringOf(Property(e, p)).Some?
    ensures FieldText(e, p) == Escaped(StringOf(Property(e, p)).value)
  {
    EscapeIsPerCharacter(StringOf(Property(e, p)).value);
  }

  /** A string property is written escaped, the empty string as an empty cell. */
  lemma StringCells(e: Event)
    ensures forall p :: Property(e, p).Str? ==> FieldText(e, p) == Escaped(Property(e, p).s)
  {
    forall p | Property(e, p).Str?
      ensures FieldText(e, p) == Escaped(Property(e, p).s)
    {
      EscapeIsPerCharacter(Property(e, p).s);
    }
  }

  /** The twelve cells of an event, in the order of `EventProperties`. */
  function EventCells(e: Event): (r: seq<string>)
    ensures |r| == |EventProperties|
    ensures forall i :: 0 <= i < |r| ==> r[i] == FieldText(e, EventProperties[i])
    ensures forall i :: 0 <= i < |r| ==> '\n' !in r[i] && '\r' !in r[i] && CommasEscaped(r[i])
    ensures forall i :: 0 <= i < |r| && !Truthy(Property(e, EventProperties[i])) ==> r[i] == ""
    ensures forall i :: 0 <= i < |r| && Property(e, EventProperties[i]).Str? ==>
      r[i] == Escaped(Property(e, EventProperties[i]).s)
  {
    StringCells(e);
    seq(|EventProperties|, i requires 0 <= i < |EventProperties| => FieldText(e, EventProperties[i]))
  }

  /** The lines of the events, in order. */
  function EventLines(events: seq<Event>): string {
    if events == [] then "" else EventLines(events[..|events| - 1]) + Line(EventCells(events[|events| - 1]))
  }

  /** Everything the listing writes: the header, then a line per event. */
  function Listing(events: seq<Event>): string {
    Line(EventProperties) + EventLines(events)
  }

  /**
   * An event's line is its twelve cells joined by commas and ended by a
   * newline; no cell holds a line break, and every comma inside a cell
   * follows a backslash.
   */
  lemma EventLineFormat(e: Event)
    ensures Line(EventCells(e)) == Join(EventCells(e), ",") + "\n"
    ensures forall i :: 0 <= i < |EventCells(e)| ==>
      '\n' !in EventCells(e)[i] && '\r' !in EventCells(e)[i] && CommasEscaped(EventCells(e)[i])
  {
    var cells := EventCells(e);
    LineIsJoin(cells);
    forall i | 0 <= i < |cells|
      ensures '\n' !in cells[i] && '\r' !in cells[i] && CommasEscaped(cells[i])
    {
      assert cells[i] == FieldText(e, EventProperties[i]);
    }
  }

  /** The listing holds one newline for the header and one per event: every line stays on its own line. */
  lemma {:induction false} ListingLineCount(events: seq<Event>)
    ensures multiset(Listing(events))['\n'] == |events| + 1
  {
    LineHasOneNewline(EventProperties, |EventProperties|);
    EventLinesCount(events);
  }

  lemma {:induction false} EventLinesCount(events: seq<Event>)
    ensures multiset(EventLines(events))['\n'] == |events|
  {
    if events != [] {
      var cells := EventCells(events[|events| - 1]);
      LineHasOneNewline(cells, |cells|);
      EventLinesCount(events[..|events| - 1]);
    }
  }

  // ---------------------------------------------------------------------
  // The writer.
  // ---------------------------------------------------------------------

  /** Writing cell `i` and its separator after the first `i` cells extends the line by one cell. */
  lemma LineAdvance(base: string, cells: seq<string>, i: nat, now: string)
    requires i < |cells|
    requires now == base + LinePrefix(cells, i) + cells[i] + Separator(i, |cells|)
    ensures now == base + LinePrefix(cells, i + 1)
  {
    AppendAssoc(base + LinePrefix(cells, i), cells[i], Separator(i, |cells|));
    AppendAssoc(base, LinePrefix(cells, i), cells[i] + Separator(i, |cells|));
    AppendAssoc(LinePrefix(cells, i), cells[i], Separator(i, |cells|));
  }

  /** The header loop: each property name, then a comma or, after the last, a newline. */
  method WriteHeader(out: Stdout)
    modifies out
    ensures out.text == old(out.text) + Line(EventProperties)
  {
    var properties := EventProperties;
    for i := 0 to |properties|
      invariant out.text == old(out.text) + LinePrefix(properties, i)
    {
      out.Write(properties[i]);
      out.Write(if i == |properties| - 1 then "\n" else ",");
      LineAdvance(old(out.text), properties, i, out.text);
    }
  }

  /** The cell of property `p`: written only when the value is truthy, after the three replacements. */
  method WriteField(e: Event, p: string, out: Stdout)
    modifies out
    ensures out.text == old(out.text) + FieldText(e, p)
  {
    var v := Property(e, p);
    if Truthy(v) {
      var str := StringOf(v).value;
      str := ReplaceAll(str, '\n', "\\n");
      str := ReplaceAll(str, '\r', "\\r");
      str := ReplaceAll(str, ',', "\\,");
      out.Write(str);
    } else {
      assert old(out.text) + "" == old(out.text);
    }
  }

  /** One event's line: each property's cell, then its separator. */
  method WriteEvent(e: Event, out: Stdout)
    modifies out
    ensures out.text == old(out.text) + Line(EventCells(e))
  {
    var properties := EventProperties;
    ghost var cells := EventCells(e);
    for i := 0 to |properties|
      invariant out.text == old(out.text) + LinePrefix(cells, i)
    {
      WriteField(e, properties[i], out);
      out.Write(if i == |properties| - 1 then "\n" else ",");
      LineAdvance(old(out.text), cells, i, out.text);
    }
  }

  /** `listEvents` once the events have been fetched: the header, then every event's line. */
  method ListEvents(events: seq<Event>, out: Stdout)
    modifies out
    ensures out.text == old(out.text) + Listing(events)
  {
    WriteHeader(out);
    for k := 0 to |events|
      invariant out.text == old(out.text) + Line(EventProperties) + EventLines(events[..k])
    {
      ghost var before := out.text;
      WriteEvent(events[k], out);
      assert events[..k + 1][..k] == events[..k];
      AppendAssoc(old(out.text) + Line(EventProperties), EventLines(events[..k]), Line(EventCells(events[k])));
    }
    assert events[..|events|] == events;
    AppendAssoc(old(out.text), Line(EventProperties), EventLines(events));
  }
}
