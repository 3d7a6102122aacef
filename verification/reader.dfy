/**
  The event-stream reader: field parsing of one line, the assembly of lines
  into events by `NextEvent`, and the repeated calls that turn a complete
  input into its sequence of events together with the sticky session fields
  (last event id and reconnection time).
 */
module Reader {
  import opened Wrappers
  import opened Events
  import Bytes
  import Scanner

  /** The reader's session fields, sticky across events. */
  datatype Session = Session(lastEventId: string, reconnectionTime: int)

  /** The event under construction inside one `NextEvent` call. */
  datatype Pending = Pending(eventType: string, data: seq<string>)

  /** What a `NextEvent` call starts from. */
  const Fresh: Pending := Pending(DefaultMessageType, [])

  /** A line split into field name and value. */
  datatype FieldValue = FieldValue(field: string, value: string)

  /** Index of the first colon of `s`, or -1 when there is none. */
  function IndexOfColon(s: string): (i: int)
    ensures -1 <= i < |s|
    ensures i == -1 <==> ':' !in s
    ensures 0 <= i ==> s[i] == ':' && ':' !in s[..i]
  {
    var i := Bytes.IndexAny(s, ":");
    assert 0 <= i ==> forall k :: 0 <= k < i ==> s[..i][k] == s[k];
    i
  }

  /**
    The field is the text before the first colon and the value the text
    after it, less one leading space; without a colon the whole line is the
    field and the value is empty.
   */
  function ParseField(line: string): (fv: FieldValue)
    ensures ':' !in line ==> fv == FieldValue(line, "")
    ensures ':' in line ==>
      && ':' !in fv.field
      && ((line == fv.field + ":" + fv.value && (fv.value == "" || fv.value[0] != ' '))
          || line == fv.field + ": " + fv.value)
  {
    var i := IndexOfColon(line);
    if i == -1 then FieldValue(line, "")
    else
      SplitAtColon(line, i);
      var field, rest := line[..i], line[i + 1..];
      if |rest| != 0 && rest[0] == ' ' then FieldValue(field, rest[1..]) else FieldValue(field, rest)
  }

  /** Lemma: a line cut at a colon is the text before it, the colon (and a space), and the rest. */
  lemma SplitAtColon(line: string, i: nat)
    requires i < |line| && line[i] == ':'
    ensures line == line[..i] + ":" + line[i + 1..]
    ensures |line[i + 1..]| != 0 && line[i + 1] == ' ' ==> line == line[..i] + ": " + line[i + 2..]
  {
    assert line == line[..i] + [line[i]] + line[i + 1..];
    if |line[i + 1..]| != 0 && line[i + 1] == ' ' {
      assert line[i + 1..] == " " + line[i + 2..];
    }
  }

  /** The field/value split is the only one with the properties above. */
  lemma ParseFieldUnique(line: string, field: string, sep: string, value: string)
    requires line == field + sep + value
    requires ':' !in field
    requires (sep == ":" && (value == "" || value[0] != ' ')) || sep == ": "
    ensures ParseField(line) == FieldValue(field, value)
  {
    var fv := ParseField(line);
    assert line[|field|] == ':';
    assert line[..|field|] == field;
    assert line[..|fv.field|] == fv.field;
    assert |fv.field| == |field|;
    assert fv.field == field;
    if sep == ": " {
      assert line[|field| + 1] == ' ';
      assert line[|field| + 2..] == value;
    } else if value != "" {
      assert line[|field| + 1] == value[0];
      assert line[|field| + 1..] == value;
    }
  }

  predicate IsDigit(c: char) {
    '0' <= c <= '9'
  }

  predicate AllDigits(s: string) {
    forall k :: 0 <= k < |s| ==> IsDigit(s[k])
  }

  /** The value of a string of decimal digits. */
  function DigitsValue(s: string): nat
    requires AllDigits(s)
  {
    if |s| == 0 then 0
    else DigitsValue(s[..|s| - 1]) * 10 + (s[|s| - 1] as int - '0' as int)
  }

  /**
    Base-10 integer parsing as `strconv.Atoi` does it (overflow aside): an
    optional `+` or `-` followed by at least one digit.
   */
  function Atoi(s: string): (r: Option<int>)
    ensures r.Some? ==> 0 < |s|
    ensures r.Some? && s[0] == '-' ==> r.value <= 0
    ensures r.Some? && s[0] != '-' ==> r.value >= 0
  {
    if 0 < |s| && (s[0] == '+' || s[0] == '-') then
      var digits := s[1..];
      if |digits| == 0 || !AllDigits(digits) then None
      else if s[0] == '-' then Some(-(DigitsValue(digits) as int))
      else Some(DigitsValue(digits))
    else if |s| == 0 || !AllDigits(s) then None
    else Some(DigitsValue(s))
  }

  /** Decimal digits of a natural number, most significant first, no leading zero. */
  function NatDigits(n: nat): (s: string)
    ensures 0 < |s| && AllDigits(s)
    ensures DigitsValue(s) == n
    ensures s[0] != '0' || n == 0
  {
    if n < 10 then ["0123456789"[n]]
    else
      var prefix := NatDigits(n / 10);
      var s := prefix + ["0123456789"[n % 10]];
      assert s[..|s| - 1] == prefix;
      s
  }

  /** The canonical decimal form of an integer. */
  function FormatInt(n: int): string {
    if n < 0 then "-" + NatDigits(-n) else NatDigits(n)
  }

  /** Parsing undoes formatting, with or without an explicit `+`. */
  lemma AtoiFormatInt(n: int)
    ensures Atoi(FormatInt(n)) == Some(n)
    ensures n >= 0 ==> Atoi("+" + FormatInt(n)) == Some(n)
  {
    var d := NatDigits(if n < 0 then -n else n);
    if n < 0 {
      assert FormatInt(n)[1..] == d;
    } else {
      assert ("+" + d)[1..] == d;
    }
  }

  /** Atoi accepts exactly an optional sign followed by one or more digits. */
  lemma AtoiAccepts(s: string)
    ensures Atoi(s).Some? <==>
      (0 < |s| && AllDigits(s)) ||
      (1 < |s| && (s[0] == '+' || s[0] == '-') && AllDigits(s[1..]))
  {
    if 0 < |s| && AllDigits(s) {
      assert IsDigit(s[0]);
    }
  }

  /** A leading zero adds nothing to the value of a digit string. */
  lemma {:induction false} LeadingZeroValue(d: string)
    requires AllDigits(d)
    ensures AllDigits("0" + d) && DigitsValue("0" + d) == DigitsValue(d)
    decreases |d|
  {
    var z := "0" + d;
    forall k | 0 < k < |z| ensures IsDigit(z[k]) {
      assert z[k] == d[k - 1];
    }
    if 0 < |d| {
      var p := d[..|d| - 1];
      LeadingZeroValue(p);
      assert z[..|z| - 1] == "0" + p;
      assert z[|z| - 1] == d[|d| - 1];
    }
  }

  /** On digits, Atoi gives their value, `+` keeps it and `-` negates it. */
  lemma AtoiSigned(d: string)
    requires 0 < |d| && AllDigits(d)
    ensures Atoi(d) == Some(DigitsValue(d))
    ensures Atoi("+" + d) == Atoi(d)
    ensures Atoi("-" + d) == Some(-(DigitsValue(d) as int))
  {
    assert IsDigit(d[0]);
    SignThenDigits('+', d);
    SignThenDigits('-', d);
  }

  /** A sign followed by digits parses as their value, negated for `-`. */
  lemma SignThenDigits(sign: char, d: string)
    requires sign == '+' || sign == '-'
    requires 0 < |d| && AllDigits(d)
    ensures Atoi([sign] + d) == Some(if sign == '-' then -(DigitsValue(d) as int) else DigitsValue(d))
  {
    assert ([sign] + d)[1..] == d;
  }

  /**
    Leading zeros are accepted and do not change the value, signed or not;
    `-0` and `+0` both parse as zero.
   */
  lemma AtoiLeadingZero(d: string)
    requires 0 < |d| && AllDigits(d)
    ensures Atoi("0" + d) == Atoi(d)
    ensures Atoi("+0" + d) == Atoi("+" + d)
    ensures Atoi("-0" + d) == Atoi("-" + d)
    ensures Atoi("-0") == Atoi("+0") == Atoi("0") == Some(0)
  {
    LeadingZeroValue(d);
    AtoiSigned(d);
    AtoiSigned("0" + d);
    assert "+0" + d == "+" + ("0" + d);
    assert "-0" + d == "-" + ("0" + d);
    AtoiSigned("0");
    assert "-0" == "-" + "0" && "+0" == "+" + "0";
  }

  /** State threaded through the lines of one `NextEvent` call. */
  datatype ReadState = ReadState(pending: Pending, session: Session)

  /** Effect of one non-empty line on the pending event and the session. */
  function ApplyLine(p: Pending, s: Session, line: string): (st: ReadState)
    requires line != ""
    ensures st.pending.data == p.data || st.pending.data == p.data + [ParseField(line).value]
  {
    if line[0] == ':' then ReadState(p, s) else ApplyField(p, s, ParseField(line))
  }

  /** Effect of one field: the four known names act, any other is ignored. */
  function ApplyField(p: Pending, s: Session, fv: FieldValue): (st: ReadState)
    ensures fv.field == FieldNameEvent ==> st.pending.eventType == fv.value
    ensures fv.field != FieldNameEvent ==> st.pending.eventType == p.eventType
    ensures fv.field != FieldNameData ==> st.pending.data == p.data
    ensures fv.field == FieldNameData ==> st.pending.data == p.data + [fv.value]
    ensures fv.field != FieldNameId ==> st.session.lastEventId == s.lastEventId
    ensures fv.field != FieldNameRetry ==> st.session.reconnectionTime == s.reconnectionTime
  {
    if fv.field == FieldNameEvent then ReadState(p.(eventType := fv.value), s)
    else if fv.field == FieldNameData then ReadState(p.(data := p.data + [fv.value]), s)
    else if fv.field == FieldNameId then
      if '\0' in fv.value then ReadState(p, s)
      else ReadState(p, s.(lastEventId := fv.value))
    else if fv.field == FieldNameRetry then
      match Atoi(fv.value)
      case None => ReadState(p, s)
      case Some(n) => ReadState(p, s.(reconnectionTime := n))
    else ReadState(p, s)
  }

  /** Comment lines change nothing. */
  lemma CommentIgnored(p: Pending, s: Session, line: string)
    requires line != "" && line[0] == ':'
    ensures ApplyLine(p, s, line) == ReadState(p, s)
  {
  }

  predicate IsKnownField(field: string) {
    field == FieldNameEvent || field == FieldNameData || field == FieldNameId || field == FieldNameRetry
  }

  /** A line whose field name is not one of the four known names changes nothing. */
  lemma UnknownFieldIgnored(p: Pending, s: Session, line: string)
    requires line != "" && !IsKnownField(ParseField(line).field)
    ensures ApplyLine(p, s, line) == ReadState(p, s)
  {
  }

  /**
    An `event` line sets the pending event type to its value, empty
    included; it touches neither the data lines nor the session.
   */
  lemma EventField(p: Pending, s: Session, line: string)
    requires line != "" && line[0] != ':' && ParseField(line).field == FieldNameEvent
    ensures ApplyLine(p, s, line) == ReadState(p.(eventType := ParseField(line).value), s)
  {
  }

  /**
    An `id` line sets the last event id to its value (clearing it when the
    value is empty) unless the value holds a NUL, in which case it changes
    nothing; it never touches the pending event or the reconnection time.
   */
  lemma IdField(p: Pending, s: Session, line: string)
    requires line != "" && line[0] != ':' && ParseField(line).field == FieldNameId
    ensures var v := ParseField(line).value;
      ApplyLine(p, s, line) ==
        if '\0' in v then ReadState(p, s) else ReadState(p, Session(v, s.reconnectionTime))
  {
  }

  /**
    A `retry` line whose value parses as an integer sets the reconnection
    time to it; any other `retry` line changes nothing.
   */
  lemma RetryField(p: Pending, s: Session, line: string)
    requires line != "" && line[0] != ':' && ParseField(line).field == FieldNameRetry
    ensures var v := ParseField(line).value;
      ApplyLine(p, s, line) ==
        if Atoi(v).Some? then ReadState(p, Session(s.lastEventId, Atoi(v).value)) else ReadState(p, s)
  {
  }

  /** Data lines joined with a single LF between consecutive lines. */
  function Join(parts: seq<string>): string {
    if |parts| == 0 then ""
    else if |parts| == 1 then parts[0]
    else parts[0] + "\n" + Join(parts[1..])
  }

  /** The pieces of `s` between LFs. */
  function SplitLf(s: string): (parts: seq<string>)
    ensures 0 < |parts|
    decreases |s|
  {
    var i := IndexOfLf(s);
    if i == -1 then [s] else [s[..i]] + SplitLf(s[i + 1..])
  }

  /** Index of the first LF of `s`, or -1 when there is none. */
  function IndexOfLf(s: string): (i: int)
    ensures -1 <= i < |s|
    ensures i == -1 <==> '\n' !in s
    ensures 0 <= i ==> s[i] == '\n' && '\n' !in s[..i]
  {
    var i := Bytes.IndexAny(s, "\n");
    assert 0 <= i ==> forall k :: 0 <= k < i ==> s[..i][k] == s[k];
    i
  }

  /** Splitting joined LF-free lines at LFs gives back the lines. */
  lemma {:induction false} SplitLfJoin(parts: seq<string>)
    requires 0 < |parts|
    requires forall k :: 0 <= k < |parts| ==> '\n' !in parts[k]
    ensures SplitLf(Join(parts)) == parts
  {
    if |parts| == 1 {
      assert IndexOfLf(parts[0]) == -1;
    } else {
      var p0 := parts[0];
      assert '\n' !in p0;
      assert Join(parts) == p0 + "\n" + Join(parts[1..]);
      SplitLfCons(p0, Join(parts[1..]));
      SplitLfJoin(parts[1..]);
      assert parts == [p0] + parts[1..];
    }
  }

  /** An LF-free piece followed by an LF splits off as the first piece. */
  lemma SplitLfCons(p0: string, rest: string)
    requires '\n' !in p0
    ensures SplitLf(p0 + "\n" + rest) == [p0] + SplitLf(rest)
  {
    var j := p0 + "\n" + rest;
    assert j[|p0|] == '\n';
    assert j[..|p0|] == p0;
    assert IndexOfLf(j) == |p0|;
    assert j[|p0| + 1..] == rest;
  }

  /** The event a blank line dispatches: the pending type and data, and the sticky id. */
  function Dispatch(p: Pending, s: Session): Event {
    Event(p.eventType, Join(p.data), s.lastEventId)
  }

  /**
    An event's data gives back its data lines: none of them can hold an LF,
    so splitting the dispatched data at LFs recovers them in order.
   */
  lemma DispatchKeepsDataLines(p: Pending, s: Session)
    requires 0 < |p.data|
    requires forall k :: 0 <= k < |p.data| ==> '\n' !in p.data[k]
    ensures SplitLf(Dispatch(p, s).data) == p.data
  {
    SplitLfJoin(p.data);
  }

  /** Outcome of one `NextEvent` call: the event, if any, the lines left and the session. */
  datatype NextResult = NextResult(event: Option<Event>, rest: seq<string>, session: Session)

  /**
    The inner loops of `NextEvent`: lines are applied until a blank line
    finds data pending. A blank line without pending data is skipped and
    leaves the pending type in place. Running out of lines ends the call with
    no event, dropping whatever was pending.
   */
  function Collect(lines: seq<string>, p: Pending, s: Session): (r: NextResult)
    ensures |r.rest| <= |lines| && r.rest == lines[|lines| - |r.rest|..]
    ensures r.event.Some? ==> |r.rest| < |lines| && lines[|lines| - |r.rest| - 1..] == [""] + r.rest
    ensures r.event.None? ==> r.rest == []
    ensures r.event.Some? ==> r.event.value.id == r.session.lastEventId
    decreases |lines|
  {
    if |lines| == 0 then NextResult(None, [], s)
    else if lines[0] == "" then
      if |p.data| == 0 then Collect(lines[1..], p, s)
      else NextResult(Some(Dispatch(p, s)), lines[1..], s)
    else
      var st := ApplyLine(p, s, lines[0]);
      Collect(lines[1..], st.pending, st.session)
  }

  /** One `NextEvent` call: a fresh pending event, the session carried in. */
  function NextEvent(lines: seq<string>, s: Session): (r: NextResult)
    ensures r.event.None? ==> r.rest == []
    ensures r.event.Some? ==> |r.rest| < |lines| && lines[|lines| - |r.rest| - 1..] == [""] + r.rest
    ensures r.event.Some? ==> r.event.value.id == r.session.lastEventId
  {
    Collect(lines, Fresh, s)
  }

  /** Everything a reader yields: its events and its final session. */
  datatype ParseResult = ParseResult(events: seq<Event>, session: Session)

  /** `NextEvent` called until it reports that no events remain. */
  function ParseLines(lines: seq<string>, s: Session): (r: ParseResult)
    ensures |r.events| <= |lines|
    decreases |lines|
  {
    var n := NextEvent(lines, s);
    if n.event.None? then ParseResult([], n.session)
    else
      var tail := ParseLines(n.rest, n.session);
      ParseResult([n.event.value] + tail.events, tail.session)
  }

  /** The reader over a complete input, seeded with a last event id and reconnection time. */
  function Parse(input: string, lastEventId: string, reconnectionTime: int): (r: ParseResult) {
    ParseLines(Scanner.Tokens(input), Session(lastEventId, reconnectionTime))
  }

  // A reference definition: the whole stream as one line-by-line state machine.

  /** The line machine: pending event, session, and the events dispatched so far. */
  datatype Machine = Machine(pending: Pending, session: Session, events: seq<Event>)

  /**
    One line of the machine. A blank line dispatches when data is pending and
    then starts a fresh event; a blank line without data changes nothing.
   */
  function Step(m: Machine, line: string): (m': Machine)
    ensures |m'.events| == |m.events| + (if line == "" && 0 < |m.pending.data| then 1 else 0)
    ensures m'.events[..|m.events|] == m.events
    ensures line != "" && 0 < |m.pending.data| ==> 0 < |m'.pending.data|
    ensures line == "" && 0 < |m.pending.data| ==> m'.events[|m.events|] == Dispatch(m.pending, m.session)
  {
    if line == "" then
      if |m.pending.data| == 0 then m
      else Machine(Fresh, m.session, m.events + [Dispatch(m.pending, m.session)])
    else
      var st := ApplyLine(m.pending, m.session, line);
      Machine(st.pending, st.session, m.events)
  }

  /** The machine run over a sequence of lines. */
  function Run(lines: seq<string>, m: Machine): Machine
    decreases |lines|
  {
    if |lines| == 0 then m else Run(lines[1..], Step(m, lines[0]))
  }

  /** Lemma: one `Collect` corresponds to the machine run up to the dispatching blank line. */
  lemma {:induction false} CollectRun(lines: seq<string>, p: Pending, s: Session, evs: seq<Event>)
    ensures var r := Collect(lines, p, s);
      if r.event.Some? then
        Run(lines, Machine(p, s, evs)) == Run(r.rest, Machine(Fresh, r.session, evs + [r.event.value]))
      else
        Run(lines, Machine(p, s, evs)).events == evs && Run(lines, Machine(p, s, evs)).session == r.session
    decreases |lines|
  {
    if |lines| > 0 {
      if lines[0] == "" {
        if |p.data| == 0 {
          CollectRun(lines[1..], p, s, evs);
        }
      } else {
        var st := ApplyLine(p, s, lines[0]);
        CollectRun(lines[1..], st.pending, st.session, evs);
      }
    }
  }

  /**
    The nested loops of repeated `NextEvent` calls behave as the single line
    machine: same events, same final session.
   */
  lemma {:induction false} ParseLinesIsRun(lines: seq<string>, s: Session, evs: seq<Event>)
    ensures var m := Run(lines, Machine(Fresh, s, evs));
      m.events == evs + ParseLines(lines, s).events && m.session == ParseLines(lines, s).session
    decreases |lines|
  {
    var n := NextEvent(lines, s);
    CollectRun(lines, Fresh, s, evs);
    if n.event.Some? {
      ParseLinesIsRun(n.rest, n.session, evs + [n.event.value]);
    }
  }

  /** The reader over a complete input yields the line machine's events and final session over its tokens. */
  lemma ParseIsRun(input: string, lastEventId: string, reconnectionTime: int)
    ensures var s := Session(lastEventId, reconnectionTime);
      var m := Run(Scanner.Tokens(input), Machine(Fresh, s, []));
      Parse(input, lastEventId, reconnectionTime) == ParseResult(m.events, m.session)
  {
    var s := Session(lastEventId, reconnectionTime);
    var lines := Scanner.Tokens(input);
    ParseLinesIsRun(lines, s, []);
    assert [] + ParseLines(lines, s).events == ParseLines(lines, s).events;
  }

  /** Lemma: the machine only appends, one event per dispatching blank line. */
  lemma {:induction false} RunNoBlankLine(lines: seq<string>, m: Machine)
    requires forall k :: 0 <= k < |lines| ==> lines[k] != ""
    ensures Run(lines, m).events == m.events
    ensures 0 < |m.pending.data| ==> 0 < |Run(lines, m).pending.data|
    decreases |lines|
  {
    if |lines| > 0 {
      RunNoBlankLine(lines[1..], Step(m, lines[0]));
    }
  }

  /** Lemma: running over two pieces is running over the second from where the first ended. */
  lemma {:induction false} RunAppend(a: seq<string>, b: seq<string>, m: Machine)
    ensures Run(a + b, m) == Run(b, Run(a, m))
    decreases |a|
  {
    if |a| > 0 {
      assert (a + b)[1..] == a[1..] + b;
      RunAppend(a[1..], b, Step(m, a[0]));
    } else {
      assert a + b == b;
    }
  }

  /**
    Lines that hold no blank line add no event to whatever came before them,
    and raise no error: a trailing event that no blank line ends is dropped.
   */
  lemma NoBlankLineNoEvent(lines: seq<string>, tail: seq<string>, s: Session)
    requires forall k :: 0 <= k < |tail| ==> tail[k] != ""
    ensures ParseLines(lines + tail, s).events == ParseLines(lines, s).events
  {
    var m0 := Machine(Fresh, s, []);
    var mA := Run(lines, m0);
    ParseLinesIsRun(lines + tail, s, []);
    ParseLinesIsRun(lines, s, []);
    RunAppend(lines, tail, m0);
    RunNoBlankLine(tail, mA);
    SameAfterNothing(Run(lines + tail, m0).events, mA.events,
      ParseLines(lines + tail, s).events, ParseLines(lines, s).events);
  }

  /** Lemma: two event sequences that equal the same one after nothing are equal. */
  lemma SameAfterNothing(x: seq<Event>, y: seq<Event>, a: seq<Event>, b: seq<Event>)
    requires x == [] + a && y == [] + b && x == y
    ensures a == b
  {
    assert [] + a == a && [] + b == b;
  }

  /**
    The last event id only changes on an `id` line whose value holds no NUL,
    and becomes that value; the reconnection time only changes on a `retry`
    line whose value parses, and becomes that integer.
   */
  lemma StickySession(m: Machine, line: string)
    ensures var m' := Step(m, line);
      && (m'.session.lastEventId != m.session.lastEventId ==>
            line != "" && line[0] != ':' && ParseField(line).field == FieldNameId
            && '\0' !in ParseField(line).value && m'.session.lastEventId == ParseField(line).value)
      && (m'.session.reconnectionTime != m.session.reconnectionTime ==>
            line != "" && line[0] != ':' && ParseField(line).field == FieldNameRetry
            && Atoi(ParseField(line).value) == Some(m'.session.reconnectionTime))
  {
  }

  /**
    Between an event and the next, the type carries over a blank line that
    finds no data; only a dispatch resets it to the default.
   */
  lemma TypeCarriesOverEmptyDispatch(m: Machine)
    requires |m.pending.data| == 0
    ensures Step(m, "") == m
  {
  }

  lemma TypeResetAfterDispatch(m: Machine)
    requires 0 < |m.pending.data|
    ensures Step(m, "").pending == Pending(DefaultMessageType, [])
  {
  }
}
