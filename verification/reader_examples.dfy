/**
  The reader's expected outputs for the inputs of its table-driven tests
  (reader_test.go), proved of the model, plus one input showing that an
  event type survives a blank line with no data. Each case is proved in two
  parts: the line machine over the lines, from any machine with nothing
  pending, and then the tokenization of the input text.
 */
module ReaderExamples {
  import opened Wrappers
  import opened Events
  import opened Reader
  import Scanner

  const S0: Session := Session("", 0)
  const M0: Machine := Machine(Fresh, S0, [])
  const Message: Event := Event(DefaultMessageType, "", "")

  // ------------------------------------------------------ running the machine

  /** Lemma: running the machine over a line and then the rest. */
  lemma RunCons(line: string, rest: seq<string>, m: Machine)
    ensures Run([line] + rest, m) == Run(rest, Step(m, line))
  {
    assert ([line] + rest)[1..] == rest;
  }

  /** Lemma: running one piece of input after another. */
  lemma RunThen(a: seq<string>, b: seq<string>, m: Machine, m1: Machine, m2: Machine)
    requires Run(a, m) == m1 && Run(b, m1) == m2
    ensures Run(a + b, m) == m2
  {
    RunAppend(a, b, m);
  }

  lemma RunOne(a: string, m: Machine, m1: Machine)
    requires Step(m, a) == m1
    ensures Run([a], m) == m1
  {
    RunCons(a, [], m);
    assert [a] == [a] + [];
  }

  lemma RunTwo(a: string, b: string, m: Machine, m1: Machine, m2: Machine)
    requires Step(m, a) == m1 && Step(m1, b) == m2
    ensures Run([a, b], m) == m2
  {
    RunCons(a, [b], m);
    RunOne(b, m1, m2);
    assert [a, b] == [a] + [b];
  }

  lemma RunThree(a: string, b: string, c: string, m: Machine, m1: Machine, m2: Machine, m3: Machine)
    requires Step(m, a) == m1 && Step(m1, b) == m2 && Step(m2, c) == m3
    ensures Run([a, b, c], m) == m3
  {
    RunCons(a, [b, c], m);
    RunTwo(b, c, m1, m2, m3);
    assert [a, b, c] == [a] + [b, c];
  }

  lemma RunFour(a: string, b: string, c: string, d: string, m: Machine, m1: Machine, m2: Machine, m3: Machine, m4: Machine)
    requires Step(m, a) == m1 && Step(m1, b) == m2 && Step(m2, c) == m3 && Step(m3, d) == m4
    ensures Run([a, b, c, d], m) == m4
  {
    RunCons(a, [b, c, d], m);
    RunThree(b, c, d, m1, m2, m3, m4);
    assert [a, b, c, d] == [a] + [b, c, d];
  }

  lemma RunFive(a: string, b: string, c: string, d: string, e: string, m: Machine, m1: Machine, m2: Machine, m3: Machine, m4: Machine, m5: Machine)
    requires Step(m, a) == m1 && Step(m1, b) == m2 && Step(m2, c) == m3 && Step(m3, d) == m4 && Step(m4, e) == m5
    ensures Run([a, b, c, d, e], m) == m5
  {
    RunCons(a, [b, c, d, e], m);
    RunFour(b, c, d, e, m1, m2, m3, m4, m5);
    assert [a, b, c, d, e] == [a] + [b, c, d, e];
  }

  /** Lemma: parsing LF-terminated break-free lines is running the machine over them. */
  lemma ParseOfLines(input: string, lines: seq<string>, last: string, s: Session)
    requires forall k :: 0 <= k < |lines| ==> Scanner.HasNoLineBreak(lines[k])
    requires Scanner.HasNoLineBreak(last)
    requires input == Scanner.TerminateEach(lines) + last
    ensures var m := Run(lines + (if last == "" then [] else [last]), Machine(Fresh, s, []));
      Parse(input, s.lastEventId, s.reconnectionTime) == ParseResult(m.events, m.session)
  {
    var all := lines + (if last == "" then [] else [last]);
    Scanner.TokensOfLines(lines, last);
    assert Session(s.lastEventId, s.reconnectionTime) == s;
    ParseLinesIsRun(all, s, []);
    ResultOfRun(ParseLines(all, s), Run(all, Machine(Fresh, s, [])));
  }

  /** Lemma: parsing LF-terminated break-free lines gives the events and session the machine ends with. */
  lemma ParseOfRun(input: string, lines: seq<string>, s: Session, m: Machine)
    requires forall k :: 0 <= k < |lines| ==> Scanner.HasNoLineBreak(lines[k])
    requires input == Scanner.TerminateEach(lines)
    requires Run(lines, Machine(Fresh, s, [])) == m
    ensures Parse(input, s.lastEventId, s.reconnectionTime) == ParseResult(m.events, m.session)
  {
    assert Scanner.TerminateEach(lines) + "" == Scanner.TerminateEach(lines);
    ParseOfLines(input, lines, "", s);
    assert lines + [] == lines;
  }

  /** Lemma: a parse result whose events and session are those of a machine run from no events. */
  lemma ResultOfRun(r: ParseResult, m: Machine)
    requires m.events == [] + r.events && m.session == r.session
    ensures r == ParseResult(m.events, m.session)
  {
    assert [] + r.events == r.events;
  }

  // ------------------------------------------------------------ single lines

  /** Lemma: a blank line after one data line dispatches that line as the event's data. */
  lemma DispatchOne(m: Machine, t: string, d: string)
    requires m.pending == Pending(t, [d])
    ensures Step(m, "") == Machine(Fresh, m.session, m.events + [Event(t, d, m.session.lastEventId)])
  {
  }

  /** Lemma: a blank line after two empty data lines dispatches an event whose data is one LF. */
  lemma DispatchTwoEmpty(m: Machine, t: string)
    requires m.pending == Pending(t, ["", ""])
    ensures Step(m, "") == Machine(Fresh, m.session, m.events + [Event(t, "\n", m.session.lastEventId)])
  {
    assert Join(["", ""]) == "\n" by {
      assert ["", ""][1..] == [""];
    }
  }

  /** Lemma: the effect of a field line, in terms of its field name and value. */
  lemma FieldStep(m: Machine, field: string, sep: string, v: string)
    requires field != "" && ':' !in field
    requires (sep == ":" && (v == "" || v[0] != ' ')) || sep == ": "
    ensures var st := ApplyField(m.pending, m.session, FieldValue(field, v));
      Step(m, field + sep + v) == Machine(st.pending, st.session, m.events)
  {
    ParseFieldUnique(field + sep + v, field, sep, v);
    assert (field + sep + v)[0] == field[0];
  }

  /** Lemma: the effect of a line without a colon: the whole line names a field with an empty value. */
  lemma BareStep(m: Machine, field: string)
    requires field != "" && ':' !in field
    ensures var st := ApplyField(m.pending, m.session, FieldValue(field, ""));
      Step(m, field) == Machine(st.pending, st.session, m.events)
  {
    assert field[0] in field;
  }

  /** Lemma: an `event` line without a colon sets an empty event type. */
  lemma BareEventStep(m: Machine)
    ensures Step(m, "event") == m.(pending := m.pending.(eventType := ""))
  {
    BareStep(m, FieldNameEvent);
  }

  /** Lemma: a `data` line without a colon appends an empty data line. */
  lemma BareDataStep(m: Machine)
    ensures Step(m, "data") == m.(pending := m.pending.(data := m.pending.data + [""]))
  {
    BareStep(m, FieldNameData);
  }

  /** Lemma: an `id` line without a colon clears the last event id. */
  lemma BareIdStep(m: Machine)
    ensures Step(m, "id") == m.(session := m.session.(lastEventId := ""))
  {
    BareStep(m, FieldNameId);
  }

  /** Lemma: a `data:` line with nothing after the colon appends an empty data line. */
  lemma EmptyDataStep(m: Machine)
    ensures Step(m, "data:") == m.(pending := m.pending.(data := m.pending.data + [""]))
  {
    FieldStep(m, "data", ":", "");
    assert "data" + ":" + "" == "data:";
  }

  /** Lemma: a `data: ` line appends what follows the single space after the colon. */
  lemma DataSpaceStep(m: Machine, v: string)
    ensures Step(m, "data: " + v) == m.(pending := m.pending.(data := m.pending.data + [v]))
  {
    FieldStep(m, "data", ": ", v);
    assert "data" + ": " + v == "data: " + v;
  }

  /** Lemma: `id: 1` sets the last event id to "1". */
  lemma IdSpaceOneStep(m: Machine)
    ensures Step(m, "id: 1") == m.(session := m.session.(lastEventId := "1"))
  {
    FieldStep(m, "id", ": ", "1");
    assert "id" + ": " + "1" == "id: 1";
    assert '\0' !in "1";
  }

  /** Lemma: `event:1` sets the event type to "1". */
  lemma EventOneStep(m: Machine)
    ensures Step(m, "event:1") == m.(pending := m.pending.(eventType := "1"))
  {
    FieldStep(m, "event", ":", "1");
    assert "event" + ":" + "1" == "event:1";
  }

  /** Lemma: `id:1` sets the last event id to "1". */
  lemma IdOneStep(m: Machine)
    ensures Step(m, "id:1") == m.(session := m.session.(lastEventId := "1"))
  {
    FieldStep(m, "id", ":", "1");
    assert "id" + ":" + "1" == "id:1";
    assert '\0' !in "1";
  }

  /** Lemma: an id holding NUL is ignored. */
  lemma NulIdStep(m: Machine)
    ensures Step(m, "id:\0") == m
  {
    FieldStep(m, "id", ":", "\0");
    assert "id" + ":" + "\0" == "id:\0";
    assert '\0' in "\0";
  }

  /** Lemma: the effect of a `retry` line with no space after the colon. */
  lemma RetryStep(m: Machine, v: string)
    requires v == "" || v[0] != ' '
    ensures Step(m, "retry:" + v) ==
      if Atoi(v).Some? then m.(session := m.session.(reconnectionTime := Atoi(v).value)) else m
  {
    FieldStep(m, "retry", ":", v);
    assert "retry" + ":" + v == "retry:" + v;
    assert FieldNameRetry != FieldNameEvent && FieldNameRetry != FieldNameData && FieldNameRetry != FieldNameId;
  }

  lemma AtoiTen()
    ensures Atoi("10") == Some(10)
  {
    assert NatDigits(1) == "1";
    AtoiFormatInt(10);
  }

  /** Lemma: `retry:10` sets the reconnection time to 10. */
  lemma RetryTenStep(m: Machine)
    ensures Step(m, "retry:10") == m.(session := m.session.(reconnectionTime := 10))
  {
    AtoiTen();
    RetryStep(m, "10");
    assert "retry:" + "10" == "retry:10";
  }

  /** Lemma: a `retry` value that is not a number is ignored. */
  lemma BadRetryStep(m: Machine)
    ensures Step(m, "retry:$") == m
  {
    assert !IsDigit("$"[0]);
    RetryStep(m, "$");
    assert "retry:" + "$" == "retry:$";
  }

  // -------------------------------------------------------------------- cases

  /** Empty input: no events, session untouched. */
  lemma EmptyInput(input: string)
    requires input == ""
    ensures Parse(input, "", 0) == ParseResult([], S0)
  {
    ParseOfLines(input, [], "", S0);
  }

  lemma CommentOnlyLines(m: Machine, lines: seq<string>)
    requires m.pending == Fresh && lines == [":test", ""]
    ensures Run(lines, m) == m
  {
    CommentIgnored(m.pending, m.session, ":test");
    TypeCarriesOverEmptyDispatch(m);
    RunTwo(":test", "", m, m, m);
  }

  /** A comment and a blank line: no events. */
  lemma CommentOnly(input: string)
    requires input == ":test\n\n"
    ensures Parse(input, "", 0) == ParseResult([], S0)
  {
    var lines := [":test", ""];
    assert Scanner.HasNoLineBreak(lines[0]);
    ParseOfLines(input, lines, "", S0);
    assert lines + [] == lines;
    CommentOnlyLines(M0, lines);
  }

  /** Lemma: the bare field name `event` holds no line break. */
  lemma BareFieldHasNoLineBreak(input: string)
    requires input == "event"
    ensures Scanner.HasNoLineBreak(input)
  {
  }

  lemma FieldWithoutLineBreakLines(m: Machine, lines: seq<string>)
    requires m.pending == Fresh && lines == ["event"]
    ensures Run(lines, m) == m.(pending := Pending("", []))
  {
    BareEventStep(m);
    RunOne("event", m, m.(pending := Pending("", [])));
  }

  /** A field with no line break at all: no events. */
  lemma FieldWithoutLineBreak(input: string)
    requires input == "event"
    ensures Parse(input, "", 0) == ParseResult([], S0)
  {
    var none: seq<string> := [];
    BareFieldHasNoLineBreak(input);
    ParseOfLines(input, none, input, S0);
    assert none + [input] == ["event"];
    FieldWithoutLineBreakLines(M0, ["event"]);
  }

  lemma FieldWithNoValueLines(m: Machine, lines: seq<string>)
    requires m.pending == Fresh && lines == ["event", ""]
    ensures Run(lines, m) == m.(pending := Pending("", []))
  {
    var m1 := m.(pending := Pending("", []));
    BareEventStep(m);
    TypeCarriesOverEmptyDispatch(m1);
    RunTwo("event", "", m, m1, m1);
  }

  /** An event type and a blank line but no data: no events. */
  lemma FieldWithNoValue(input: string)
    requires input == "event\n\n"
    ensures Parse(input, "", 0) == ParseResult([], S0)
  {
    var lines := ["event", ""];
    assert Scanner.HasNoLineBreak(lines[0]);
    ParseOfLines(input, lines, "", S0);
    assert lines + [] == lines;
    FieldWithNoValueLines(M0, lines);
  }

  lemma EventWithNoTypeLines(m: Machine, lines: seq<string>)
    requires m.pending == Fresh && lines == ["data", ""]
    ensures Run(lines, m) == m.(events := m.events + [Event(DefaultMessageType, "", m.session.lastEventId)])
  {
    var m1 := m.(pending := Pending(DefaultMessageType, [""]));
    BareDataStep(m);
    DispatchOne(m1, DefaultMessageType, "");
    RunTwo("data", "", m, m1, m.(events := m.events + [Event(DefaultMessageType, "", m.session.lastEventId)]));
  }

  /** An event with no type gets the default type. */
  lemma EventWithNoType(input: string)
    requires input == "data\n\n"
    ensures Parse(input, "", 0) == ParseResult([Message], S0)
  {
    var lines := ["data", ""];
    assert Scanner.HasNoLineBreak(lines[0]);
    ParseOfLines(input, lines, "", S0);
    assert lines + [] == lines;
    EventWithNoTypeLines(M0, lines);
  }

  lemma EventWithTypeLines(m: Machine, lines: seq<string>)
    requires m.pending == Fresh && lines == ["event:1", "data:", ""]
    ensures Run(lines, m) == m.(events := m.events + [Event("1", "", m.session.lastEventId)])
  {
    var m1 := m.(pending := Pending("1", []));
    var m2 := m.(pending := Pending("1", [""]));
    EventOneStep(m);
    EmptyDataStep(m1);
    DispatchOne(m2, "1", "");
    RunThree("event:1", "data:", "", m, m1, m2, m.(events := m.events + [Event("1", "", m.session.lastEventId)]));
  }

  /** An event with a type. */
  lemma EventWithType(input: string)
    requires input == "event:1\ndata:\n\n"
    ensures Parse(input, "", 0) == ParseResult([Event("1", "", "")], S0)
  {
    var lines := ["event:1", "data:", ""];
    assert Scanner.HasNoLineBreak(lines[0]) && Scanner.HasNoLineBreak(lines[1]);
    ParseOfLines(input, lines, "", S0);
    assert lines + [] == lines;
    EventWithTypeLines(M0, lines);
  }

  lemma EventWithIdLines(m: Machine, lines: seq<string>)
    requires m.pending == Fresh && lines == ["id:1", "data:", ""]
    ensures var s := m.session.(lastEventId := "1");
      Run(lines, m) == Machine(Fresh, s, m.events + [Event(DefaultMessageType, "", "1")])
  {
    var s := m.session.(lastEventId := "1");
    var m1 := m.(session := s);
    var m2 := m1.(pending := Pending(DefaultMessageType, [""]));
    IdOneStep(m);
    EmptyDataStep(m1);
    DispatchOne(m2, DefaultMessageType, "");
    RunThree("id:1", "data:", "", m, m1, m2, Machine(Fresh, s, m.events + [Event(DefaultMessageType, "", "1")]));
  }

  /** An event carries the id set before it, and the reader keeps that id. */
  lemma EventWithId(input: string)
    requires input == "id:1\ndata:\n\n"
    ensures Parse(input, "", 0) == ParseResult([Event(DefaultMessageType, "", "1")], Session("1", 0))
  {
    var lines := ["id:1", "data:", ""];
    assert Scanner.HasNoLineBreak(lines[0]) && Scanner.HasNoLineBreak(lines[1]);
    ParseOfLines(input, lines, "", S0);
    assert lines + [] == lines;
    EventWithIdLines(M0, lines);
  }

  /** Lemma: `data:` and a blank line dispatch an event with empty data. */
  lemma EmptyDataEventLines(m: Machine, lines: seq<string>)
    requires m.pending == Fresh && lines == ["data:", ""]
    ensures Run(lines, m) == m.(events := m.events + [Event(DefaultMessageType, "", m.session.lastEventId)])
  {
    var m1 := m.(pending := Pending(DefaultMessageType, [""]));
    EmptyDataStep(m);
    DispatchOne(m1, DefaultMessageType, "");
    RunTwo("data:", "", m, m1, m.(events := m.events + [Event(DefaultMessageType, "", m.session.lastEventId)]));
  }

  lemma EventRetainingPreviousIdLines(m: Machine, head: seq<string>, tail: seq<string>)
    requires m.pending == Fresh && head == ["id:1", "data:", ""] && tail == ["data:", ""]
    ensures var s := m.session.(lastEventId := "1");
      var e := Event(DefaultMessageType, "", "1");
      Run(head + tail, m) == Machine(Fresh, s, m.events + [e, e])
  {
    var s := m.session.(lastEventId := "1");
    var e := Event(DefaultMessageType, "", "1");
    var m3 := Machine(Fresh, s, m.events + [e]);
    EventWithIdLines(m, head);
    EmptyDataEventLines(m3, tail);
    AppendTwo(m.events, e, e);
    RunThen(head, tail, m, m3, Machine(Fresh, s, m.events + [e, e]));
  }

  /** Lemma: the test's text is its two records, each line LF-terminated and free of line breaks. */
  lemma EventRetainingPreviousIdText(input: string, head: seq<string>, tail: seq<string>)
    requires input == "id:1\ndata:\n\n" + "data:\n\n"
    requires head == ["id:1", "data:", ""] && tail == ["data:", ""]
    ensures input == Scanner.TerminateEach(head + tail) + ""
  {
    TerminateThree("id:1", "data:", head);
    TerminateTwo("data:", tail);
    TerminateAppend(head, tail);
  }

  lemma EventRetainingPreviousIdNoBreaks(head: seq<string>, tail: seq<string>)
    requires head == ["id:1", "data:", ""] && tail == ["data:", ""]
    ensures forall k :: 0 <= k < |head + tail| ==> Scanner.HasNoLineBreak((head + tail)[k])
  {
    assert Scanner.HasNoLineBreak(head[0]) && Scanner.HasNoLineBreak(head[1]);
    assert head + tail == ["id:1", "data:", "", "data:", ""];
  }

  /** The id stays in force for later events that do not set one. */
  lemma EventRetainingPreviousId(input: string)
    requires input == "id:1\ndata:\n\n" + "data:\n\n"
    ensures Parse(input, "", 0) ==
      ParseResult([Event(DefaultMessageType, "", "1"), Event(DefaultMessageType, "", "1")], Session("1", 0))
  {
    var head: seq<string> := ["id:1", "data:", ""];
    var tail: seq<string> := ["data:", ""];
    EventRetainingPreviousIdText(input, head, tail);
    EventRetainingPreviousIdNoBreaks(head, tail);
    ParseOfLines(input, head + tail, "", S0);
    assert head + tail + [] == head + tail;
    EventRetainingPreviousIdLines(M0, head, tail);
  }

  lemma NulInIdIgnoredLines(m: Machine, lines: seq<string>)
    requires m.pending == Fresh && lines == ["id:\0", "data:", ""]
    ensures Run(lines, m) == m.(events := m.events + [Event(DefaultMessageType, "", m.session.lastEventId)])
  {
    var m1 := m.(pending := Pending(DefaultMessageType, [""]));
    NulIdStep(m);
    EmptyDataStep(m);
    DispatchOne(m1, DefaultMessageType, "");
    RunThree("id:\0", "data:", "", m, m, m1, m.(events := m.events + [Event(DefaultMessageType, "", m.session.lastEventId)]));
  }

  /** An id holding NUL is ignored. */
  lemma NulInIdIgnored(input: string)
    requires input == "id:\0\ndata:\n\n"
    ensures Parse(input, "", 0) == ParseResult([Message], S0)
  {
    var lines := ["id:\0", "data:", ""];
    assert Scanner.HasNoLineBreak(lines[0]) && Scanner.HasNoLineBreak(lines[1]);
    ParseOfLines(input, lines, "", S0);
    assert lines + [] == lines;
    NulInIdIgnoredLines(M0, lines);
  }

  lemma RetryLines(m: Machine, lines: seq<string>)
    requires m.pending == Fresh && lines == ["data", "retry:10", ""]
    ensures var s := m.session.(reconnectionTime := 10);
      Run(lines, m) == Machine(Fresh, s, m.events + [Event(DefaultMessageType, "", s.lastEventId)])
  {
    var s := m.session.(reconnectionTime := 10);
    var m1 := m.(pending := Pending(DefaultMessageType, [""]));
    var m2 := m1.(session := s);
    BareDataStep(m);
    RetryTenStep(m1);
    DispatchOne(m2, DefaultMessageType, "");
    RunThree("data", "retry:10", "", m, m1, m2, Machine(Fresh, s, m.events + [Event(DefaultMessageType, "", s.lastEventId)]));
  }

  /** A numeric `retry` sets the reconnection time. */
  lemma Retry(input: string)
    requires input == "data\nretry:10\n\n"
    ensures Parse(input, "", 0) == ParseResult([Message], Session("", 10))
  {
    var lines := ["data", "retry:10", ""];
    assert Scanner.HasNoLineBreak(lines[0]) && Scanner.HasNoLineBreak(lines[1]);
    ParseOfLines(input, lines, "", S0);
    assert lines + [] == lines;
    RetryLines(M0, lines);
  }

  lemma BadRetryLines(m: Machine, lines: seq<string>)
    requires m.pending == Fresh && lines == ["data", "retry:$", ""]
    ensures Run(lines, m) == m.(events := m.events + [Event(DefaultMessageType, "", m.session.lastEventId)])
  {
    var m1 := m.(pending := Pending(DefaultMessageType, [""]));
    BareDataStep(m);
    BadRetryStep(m1);
    DispatchOne(m1, DefaultMessageType, "");
    RunThree("data", "retry:$", "", m, m1, m1, m.(events := m.events + [Event(DefaultMessageType, "", m.session.lastEventId)]));
  }

  /** A non-numeric `retry` is ignored. */
  lemma BadRetry(input: string)
    requires input == "data\nretry:$\n\n"
    ensures Parse(input, "", 0) == ParseResult([Message], S0)
  {
    var lines := ["data", "retry:$", ""];
    assert Scanner.HasNoLineBreak(lines[0]) && Scanner.HasNoLineBreak(lines[1]);
    ParseOfLines(input, lines, "", S0);
    assert lines + [] == lines;
    BadRetryLines(M0, lines);
  }

  lemma MultilineDataLines(m: Machine, lines: seq<string>)
    requires m.pending == Fresh && lines == ["data:", "data:", ""]
    ensures Run(lines, m) == m.(events := m.events + [Event(DefaultMessageType, "\n", m.session.lastEventId)])
  {
    var m1 := m.(pending := Pending(DefaultMessageType, [""]));
    var m2 := m.(pending := Pending(DefaultMessageType, ["", ""]));
    EmptyDataStep(m);
    EmptyDataStep(m1);
    DispatchTwoEmpty(m2, DefaultMessageType);
    RunThree("data:", "data:", "", m, m1, m2, m.(events := m.events + [Event(DefaultMessageType, "\n", m.session.lastEventId)]));
  }

  /** Two data lines are joined with one LF. */
  lemma MultilineData(input: string)
    requires input == "data:\ndata:\n\n"
    ensures Parse(input, "", 0) == ParseResult([Event(DefaultMessageType, "\n", "")], S0)
  {
    var lines := ["data:", "data:", ""];
    assert Scanner.HasNoLineBreak(lines[0]);
    ParseOfLines(input, lines, "", S0);
    assert lines + [] == lines;
    MultilineDataLines(M0, lines);
  }

  /** Lemma: a `data:` line with a value not starting with a space appends that value as a data line. */
  lemma DataStep(m: Machine, v: string)
    requires v == "" || v[0] != ' '
    ensures Step(m, "data:" + v) == m.(pending := m.pending.(data := m.pending.data + [v]))
  {
    FieldStep(m, "data", ":", v);
    assert "data" + ":" + v == "data:" + v;
  }

  /**
    The second record of the standard's first example (`data:second event`,
    then `id`, then a blank line), for any data value: an `id` line without a
    colon clears the last event id, and the event dispatched carries the
    cleared id.
   */
  lemma WhatwgExampleOneSecond(m: Machine, d: string, lines: seq<string>)
    requires m.pending == Fresh && (d == "" || d[0] != ' ')
    requires lines == ["data:" + d, "id", ""]
    ensures var s := m.session.(lastEventId := "");
      Run(lines, m) == Machine(Fresh, s, m.events + [Event(DefaultMessageType, d, "")])
  {
    var s := m.session.(lastEventId := "");
    var m1 := m.(pending := Pending(DefaultMessageType, [d]));
    var m2 := m1.(session := s);
    DataStep(m, d);
    BareIdStep(m1);
    DispatchOne(m2, DefaultMessageType, d);
    RunThree("data:" + d, "id", "", m, m1, m2, Machine(Fresh, s, m.events + [Event(DefaultMessageType, d, "")]));
  }

  /** The first record of the standard's first example: a comment, a blank line, then an event with id "1". */
  lemma WhatwgExampleOneFirst(m: Machine, c: string, d: string, lines: seq<string>)
    requires m.pending == Fresh && c != "" && c[0] == ':'
    requires lines == [c, "", "data: " + d, "id: 1", ""]
    ensures var s := m.session.(lastEventId := "1");
      Run(lines, m) == Machine(Fresh, s, m.events + [Event(DefaultMessageType, d, "1")])
  {
    var s := m.session.(lastEventId := "1");
    var m3 := m.(pending := Pending(DefaultMessageType, [d]));
    var m4 := m3.(session := s);
    CommentIgnored(m.pending, m.session, c);
    TypeCarriesOverEmptyDispatch(m);
    DataSpaceStep(m, d);
    IdSpaceOneStep(m3);
    DispatchOne(m4, DefaultMessageType, d);
    RunFive(c, "", "data: " + d, "id: 1", "", m, m, m, m3, m4, Machine(Fresh, s, m.events + [Event(DefaultMessageType, d, "1")]));
  }

  /** The third record of the standard's first example: only the first space after the colon is dropped. */
  lemma WhatwgExampleOneThird(m: Machine, d: string, lines: seq<string>)
    requires m.pending == Fresh && lines == ["data: " + d, ""]
    ensures Run(lines, m) == m.(events := m.events + [Event(DefaultMessageType, d, m.session.lastEventId)])
  {
    var m1 := m.(pending := Pending(DefaultMessageType, [d]));
    DataSpaceStep(m, d);
    DispatchOne(m1, DefaultMessageType, d);
    RunTwo("data: " + d, "", m, m1, m.(events := m.events + [Event(DefaultMessageType, d, m.session.lastEventId)]));
  }

  lemma WhatwgExampleOneHead(m: Machine, c: string, d1: string, d2: string, lines: seq<string>)
    requires m.pending == Fresh && c != "" && c[0] == ':' && (d2 == "" || d2[0] != ' ')
    requires lines == [c, "", "data: " + d1, "id: 1", "", "data:" + d2, "id", ""]
    ensures var s := m.session.(lastEventId := "");
      Run(lines, m) == Machine(Fresh, s, m.events + [Event(DefaultMessageType, d1, "1"), Event(DefaultMessageType, d2, "")])
  {
    var e1 := Event(DefaultMessageType, d1, "1");
    var e2 := Event(DefaultMessageType, d2, "");
    var first: seq<string> := [c, "", "data: " + d1, "id: 1", ""];
    var second: seq<string> := ["data:" + d2, "id", ""];
    var ma := Machine(Fresh, m.session.(lastEventId := "1"), m.events + [e1]);
    WhatwgExampleOneFirst(m, c, d1, first);
    WhatwgExampleOneSecond(ma, d2, second);
    AppendTwo(m.events, e1, e2);
    RunThen(first, second, m, ma, Machine(Fresh, m.session.(lastEventId := ""), m.events + [e1, e2]));
    WhatwgExampleOneHeadRecords(c, d1, d2, first, second, lines);
  }

  lemma WhatwgExampleOneHeadRecords(c: string, d1: string, d2: string, first: seq<string>, second: seq<string>, lines: seq<string>)
    requires first == [c, "", "data: " + d1, "id: 1", ""] && second == ["data:" + d2, "id", ""]
    requires lines == [c, "", "data: " + d1, "id: 1", "", "data:" + d2, "id", ""]
    ensures first + second == lines
  {
  }

  lemma WhatwgExampleOneLines(m: Machine, c: string, d1: string, d2: string, d3: string, lines: seq<string>)
    requires m.pending == Fresh && c != "" && c[0] == ':' && (d2 == "" || d2[0] != ' ')
    requires lines == [c, "", "data: " + d1, "id: 1", "", "data:" + d2, "id", "", "data: " + d3, ""]
    ensures var s := m.session.(lastEventId := "");
      Run(lines, m) == Machine(Fresh, s, m.events +
        [Event(DefaultMessageType, d1, "1"), Event(DefaultMessageType, d2, ""), Event(DefaultMessageType, d3, "")])
  {
    var s := m.session.(lastEventId := "");
    var e1 := Event(DefaultMessageType, d1, "1");
    var e2 := Event(DefaultMessageType, d2, "");
    var e3 := Event(DefaultMessageType, d3, "");
    var head: seq<string> := [c, "", "data: " + d1, "id: 1", "", "data:" + d2, "id", ""];
    var third: seq<string> := ["data: " + d3, ""];
    var mb := Machine(Fresh, s, m.events + [e1, e2]);
    WhatwgExampleOneHead(m, c, d1, d2, head);
    WhatwgExampleOneThird(mb, d3, third);
    AppendThird(m.events, e1, e2, e3);
    RunThen(head, third, m, mb, Machine(Fresh, s, m.events + [e1, e2, e3]));
    WhatwgExampleOneLineRecords(c, d1, d2, d3, head, third, lines);
  }

  lemma WhatwgExampleOneLineRecords(c: string, d1: string, d2: string, d3: string, head: seq<string>, third: seq<string>, lines: seq<string>)
    requires head == [c, "", "data: " + d1, "id: 1", "", "data:" + d2, "id", ""] && third == ["data: " + d3, ""]
    requires lines == [c, "", "data: " + d1, "id: 1", "", "data:" + d2, "id", "", "data: " + d3, ""]
    ensures head + third == lines
  {
  }

  /** Lemma: appending a third element after two. */
  lemma AppendThird<T>(xs: seq<T>, a: T, b: T, c: T)
    ensures (xs + [a, b]) + [c] == xs + [a, b, c]
  {
  }

  /** Lemma: terminating a line and then the rest. */
  lemma TerminateCons(l: string, rest: seq<string>)
    ensures Scanner.TerminateEach([l] + rest) == l + "\n" + Scanner.TerminateEach(rest)
  {
    assert ([l] + rest)[1..] == rest;
  }

  /** Lemma: terminating two pieces of lines is terminating each. */
  lemma {:induction false} TerminateAppend(a: seq<string>, b: seq<string>)
    ensures Scanner.TerminateEach(a + b) == Scanner.TerminateEach(a) + Scanner.TerminateEach(b)
    decreases |a|
  {
    if |a| > 0 {
      assert (a + b)[1..] == a[1..] + b;
      TerminateAppend(a[1..], b);
      assert a[0] + "\n" + (Scanner.TerminateEach(a[1..]) + Scanner.TerminateEach(b)) ==
        (a[0] + "\n" + Scanner.TerminateEach(a[1..])) + Scanner.TerminateEach(b);
    } else {
      assert a + b == b;
    }
  }

  /** Lemma: the text of two lines, the second empty. */
  lemma TerminateTwo(l: string, x: seq<string>)
    requires x == [l, ""]
    ensures Scanner.TerminateEach(x) == l + "\n\n"
  {
    TerminateCons("", []);
    TerminateCons(l, [""]);
    assert l + "\n" + ("" + "\n" + []) == l + "\n\n";
  }

  /** Lemma: the text of three lines, the last empty. */
  lemma TerminateThree(l1: string, l2: string, x: seq<string>)
    requires x == [l1, l2, ""]
    ensures Scanner.TerminateEach(x) == l1 + "\n" + l2 + "\n\n"
  {
    TerminateTwo(l2, [l2, ""]);
    TerminateCons(l1, [l2, ""]);
    assert l1 + "\n" + (l2 + "\n\n") == l1 + "\n" + l2 + "\n\n";
  }

  lemma WhatwgExampleOneFirstRecords(r0: string, r1: string, a: seq<string>, b: seq<string>)
    requires a == [": test stream", ""] && b == ["data: first event", "id: 1", ""]
    requires r0 == ": test stream\n\n" && r1 == "data: first event\nid: 1\n\n"
    ensures Scanner.TerminateEach(a) == r0 && Scanner.TerminateEach(b) == r1
  {
    TerminateTwo(": test stream", a);
    TerminateThree("data: first event", "id: 1", b);
  }

  lemma WhatwgExampleOneLastRecords(r2: string, r3: string, c: seq<string>, d: seq<string>)
    requires c == ["data:second event", "id", ""] && d == ["data:  third event", ""]
    requires r2 == "data:second event\nid\n\n" && r3 == "data:  third event\n\n"
    ensures Scanner.TerminateEach(c) == r2 && Scanner.TerminateEach(d) == r3
  {
    TerminateThree("data:second event", "id", c);
    TerminateTwo("data:  third event", d);
  }

  lemma WhatwgExampleOneNoBreaks(lines: seq<string>)
    requires lines == [": test stream", "", "data: first event", "id: 1", "", "data:second event", "id", "", "data:  third event", ""]
    ensures forall k :: 0 <= k < |lines| ==> Scanner.HasNoLineBreak(lines[k])
  {
    assert Scanner.HasNoLineBreak(lines[0]) && Scanner.HasNoLineBreak(lines[2]) && Scanner.HasNoLineBreak(lines[3]);
    assert Scanner.HasNoLineBreak(lines[5]) && Scanner.HasNoLineBreak(lines[6]) && Scanner.HasNoLineBreak(lines[8]);
  }

  /** Lemma: the text of four pieces of lines is the four texts one after another. */
  lemma TerminateFour(a: seq<string>, b: seq<string>, c: seq<string>, d: seq<string>, r0: string, r1: string, r2: string, r3: string)
    requires Scanner.TerminateEach(a) == r0 && Scanner.TerminateEach(b) == r1
    requires Scanner.TerminateEach(c) == r2 && Scanner.TerminateEach(d) == r3
    ensures Scanner.TerminateEach(a + b + c + d) == r0 + r1 + r2 + r3
  {
    TerminateAppend(a, b);
    TerminateAppend(a + b, c);
    TerminateAppend(a + b + c, d);
  }

  lemma WhatwgExampleOneRecordLines(lines: seq<string>, a: seq<string>, b: seq<string>, c: seq<string>, d: seq<string>)
    requires a == [": test stream", ""] && b == ["data: first event", "id: 1", ""]
    requires c == ["data:second event", "id", ""] && d == ["data:  third event", ""]
    requires lines == [": test stream", "", "data: first event", "id: 1", "", "data:second event", "id", "", "data:  third event", ""]
    ensures lines == a + b + c + d
  {
    assert a + b == [": test stream", "", "data: first event", "id: 1", ""];
    assert a + b + c == [": test stream", "", "data: first event", "id: 1", "", "data:second event", "id", ""];
  }

  /** Lemma: the text of the standard's first example is its ten lines, each LF-terminated. */
  lemma WhatwgExampleOneText(input: string, lines: seq<string>)
    requires input == ": test stream\n\n" + "data: first event\nid: 1\n\n" + "data:second event\nid\n\n" + "data:  third event\n\n"
    requires lines == [": test stream", "", "data: first event", "id: 1", "", "data:second event", "id", "", "data:  third event", ""]
    ensures input == Scanner.TerminateEach(lines)
  {
    var a: seq<string> := [": test stream", ""];
    var b: seq<string> := ["data: first event", "id: 1", ""];
    var c: seq<string> := ["data:second event", "id", ""];
    var d: seq<string> := ["data:  third event", ""];
    WhatwgExampleOneFirstRecords(": test stream\n\n", "data: first event\nid: 1\n\n", a, b);
    WhatwgExampleOneLastRecords("data:second event\nid\n\n", "data:  third event\n\n", c, d);
    WhatwgExampleOneRecordLines(lines, a, b, c, d);
    TerminateFour(a, b, c, d, ": test stream\n\n", "data: first event\nid: 1\n\n", "data:second event\nid\n\n", "data:  third event\n\n");
  }

  /**
    The standard's first example: a comment, ids set and cleared, and a data
    value keeping its second space. The input is written one record per piece.
   */
  lemma WhatwgExampleOne(input: string)
    requires input == ": test stream\n\n" + "data: first event\nid: 1\n\n" + "data:second event\nid\n\n" + "data:  third event\n\n"
    ensures Parse(input, "", 0) == ParseResult(
      [Event(DefaultMessageType, "first event", "1"), Event(DefaultMessageType, "second event", ""),
       Event(DefaultMessageType, " third event", "")], S0)
  {
    var lines := [": test stream", "", "data: first event", "id: 1", "", "data:second event", "id", "", "data:  third event", ""];
    var events := [Event(DefaultMessageType, "first event", "1"), Event(DefaultMessageType, "second event", ""),
       Event(DefaultMessageType, " third event", "")];
    WhatwgExampleOneText(input, lines);
    WhatwgExampleOneNoBreaks(lines);
    WhatwgExampleOneSplit(lines);
    WhatwgExampleOneLines(M0, ": test stream", "first event", "second event", " third event", lines);
    assert [] + events == events;
    ParseOfRun(input, lines, S0, Machine(Fresh, S0, events));
  }

  /** Lemma: the example's data lines are `data:` or `data: ` followed by the values the events carry. */
  lemma WhatwgExampleOneSplit(lines: seq<string>)
    requires lines == [": test stream", "", "data: first event", "id: 1", "", "data:second event", "id", "", "data:  third event", ""]
    ensures lines == [": test stream", "", "data: " + "first event", "id: 1", "", "data:" + "second event", "id", "", "data: " + " third event", ""]
  {
    assert "data: " + "first event" == lines[2];
    assert "data:" + "second event" == lines[5];
    assert "data: " + " third event" == lines[8];
  }

  lemma WhatwgExampleTwoTail(m: Machine, lines: seq<string>)
    requires m.pending == Fresh && lines == ["data", "data", "", "data:"]
    ensures Run(lines, m) ==
      Machine(Pending(DefaultMessageType, [""]), m.session,
        m.events + [Event(DefaultMessageType, "\n", m.session.lastEventId)])
  {
    var m2 := m.(pending := Pending(DefaultMessageType, ["", ""]));
    var m4 := Machine(Pending(DefaultMessageType, [""]), m.session,
      m.events + [Event(DefaultMessageType, "\n", m.session.lastEventId)]);
    var head: seq<string> := ["data", "data"];
    var tail: seq<string> := ["", "data:"];
    WhatwgExampleTwoTailHalves(lines, head, tail);
    TwoBareDataLines(m, m2, head);
    DispatchThenEmptyData(m2, m4, tail);
    RunThen(head, tail, m, m2, m4);
  }

  lemma WhatwgExampleTwoTailHalves(lines: seq<string>, head: seq<string>, tail: seq<string>)
    requires lines == ["data", "data", "", "data:"] && head == ["data", "data"] && tail == ["", "data:"]
    ensures lines == head + tail
  {
  }

  /** Lemma: two bare `data` lines leave two empty data lines pending. */
  lemma TwoBareDataLines(m: Machine, m2: Machine, lines: seq<string>)
    requires m.pending == Fresh && lines == ["data", "data"]
    requires m2 == m.(pending := Pending(DefaultMessageType, ["", ""]))
    ensures Run(lines, m) == m2
  {
    var m1 := m.(pending := Pending(DefaultMessageType, [""]));
    BareDataStep(m);
    BareDataStep(m1);
    RunTwo("data", "data", m, m1, m2);
  }

  /** Lemma: a blank line dispatches two empty data lines as one LF, and `data:` starts the next event. */
  lemma DispatchThenEmptyData(m2: Machine, m4: Machine, lines: seq<string>)
    requires m2.pending == Pending(DefaultMessageType, ["", ""]) && lines == ["", "data:"]
    requires m4 == Machine(Pending(DefaultMessageType, [""]), m2.session,
      m2.events + [Event(DefaultMessageType, "\n", m2.session.lastEventId)])
    ensures Run(lines, m2) == m4
  {
    var m3 := Machine(Fresh, m2.session, m2.events + [Event(DefaultMessageType, "\n", m2.session.lastEventId)]);
    DispatchTwoEmpty(m2, DefaultMessageType);
    EmptyDataStep(m3);
    RunTwo("", "data:", m2, m3, m4);
  }

  lemma WhatwgExampleTwoLines(m: Machine, lines: seq<string>)
    requires m.pending == Fresh && lines == ["data", "", "data", "data", "", "data:"]
    ensures var id := m.session.lastEventId;
      Run(lines, m) ==
      Machine(Pending(DefaultMessageType, [""]), m.session,
        m.events + [Event(DefaultMessageType, "", id), Event(DefaultMessageType, "\n", id)])
  {
    var id := m.session.lastEventId;
    var head: seq<string> := ["data", ""];
    var tail: seq<string> := ["data", "data", "", "data:"];
    var e1 := Event(DefaultMessageType, "", id);
    var e2 := Event(DefaultMessageType, "\n", id);
    var m2 := m.(events := m.events + [e1]);
    WhatwgExampleTwoRecords(lines, head, tail);
    EventWithNoTypeLines(m, head);
    WhatwgExampleTwoTail(m2, tail);
    AppendTwo(m.events, e1, e2);
    RunThen(head, tail, m, m2, Run(tail, m2));
  }

  /** Lemma: the second example's lines are one dispatched record and then the rest. */
  lemma WhatwgExampleTwoRecords(lines: seq<string>, head: seq<string>, tail: seq<string>)
    requires lines == ["data", "", "data", "data", "", "data:"]
    requires head == ["data", ""] && tail == ["data", "data", "", "data:"]
    ensures lines == head + tail
  {
  }

  /** Lemma: appending two elements one at a time. */
  lemma AppendTwo<T>(xs: seq<T>, a: T, b: T)
    ensures (xs + [a]) + [b] == xs + [a, b]
  {
  }

  /** An unterminated last event is dropped. */
  lemma WhatwgExampleTwo(input: string)
    requires input == "data\n\n" + "data\ndata\n\n" + "data:"
    ensures Parse(input, "", 0) == ParseResult([Message, Event(DefaultMessageType, "\n", "")], S0)
  {
    var lines := ["data", "", "data", "data", ""];
    WhatwgExampleTwoText(input, lines);
    WhatwgExampleTwoNoBreaks(lines, "data:");
    ParseOfLines(input, lines, "data:", S0);
    WhatwgExampleTwoWithLast(lines, "data:");
    WhatwgExampleTwoLines(M0, lines + ["data:"]);
  }

  /** Lemma: the text of the second example is five LF-terminated lines and an unterminated `data:`. */
  lemma WhatwgExampleTwoText(input: string, lines: seq<string>)
    requires input == "data\n\n" + "data\ndata\n\n" + "data:"
    requires lines == ["data", "", "data", "data", ""]
    ensures input == Scanner.TerminateEach(lines) + "data:"
  {
    var a: seq<string> := ["data", ""];
    var b: seq<string> := ["data", "data", ""];
    TerminateTwo("data", a);
    TerminateThree("data", "data", b);
    TerminateAppend(a, b);
    assert lines == a + b;
  }

  lemma WhatwgExampleTwoNoBreaks(lines: seq<string>, last: string)
    requires lines == ["data", "", "data", "data", ""] && last == "data:"
    ensures forall k :: 0 <= k < |lines| ==> Scanner.HasNoLineBreak(lines[k])
    ensures Scanner.HasNoLineBreak(last)
  {
    assert Scanner.HasNoLineBreak(lines[0]);
  }

  lemma WhatwgExampleTwoWithLast(lines: seq<string>, last: string)
    requires lines == ["data", "", "data", "data", ""] && last == "data:"
    ensures lines + [last] == ["data", "", "data", "data", "", "data:"]
  {
  }

  lemma TypeSurvivesEmptyDispatchLines(m: Machine, lines: seq<string>)
    requires m.pending == Fresh && lines == ["event:x", "", "data:", ""]
    ensures Run(lines, m) == m.(events := m.events + [Event("x", "", m.session.lastEventId)])
  {
    var m1 := m.(pending := Pending("x", []));
    var m2 := m.(pending := Pending("x", [""]));
    FieldStep(m, "event", ":", "x");
    assert "event" + ":" + "x" == "event:x";
    TypeCarriesOverEmptyDispatch(m1);
    EmptyDataStep(m1);
    DispatchOne(m2, "x", "");
    RunFour("event:x", "", "data:", "", m, m1, m1, m2, m.(events := m.events + [Event("x", "", m.session.lastEventId)]));
  }

  /**
    Unlike the standard's algorithm, which resets the event type at every
    blank line, the type named before a blank line that finds no data is
    still the type of the next event.
   */
  lemma TypeSurvivesEmptyDispatch(input: string)
    requires input == "event:x\n\ndata:\n\n"
    ensures Parse(input, "", 0) == ParseResult([Event("x", "", "")], S0)
  {
    var lines := ["event:x", "", "data:", ""];
    assert Scanner.HasNoLineBreak(lines[0]) && Scanner.HasNoLineBreak(lines[2]);
    ParseOfLines(input, lines, "", S0);
    assert lines + [] == lines;
    TypeSurvivesEmptyDispatchLines(M0, lines);
  }
}
