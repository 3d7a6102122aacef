/**
  The line tokenizer of the event-stream reader: a split function with the
  shape `(buffer, atEOF) -> (advance, token)` that cuts a buffer at its first
  CR, LF or CRLF, and the tokenization of a complete input built from it.
 */
module Scanner {
  import opened Wrappers
  import Bytes

  predicate IsLineBreak(c: char) {
    c == '\r' || c == '\n'
  }

  predicate HasNoLineBreak(s: seq<char>) {
    forall k :: 0 <= k < |s| ==> !IsLineBreak(s[k])
  }

  /** Index of the first CR or LF in `data`, or -1 when there is none. */
  function IndexAnyLineBreak(data: seq<char>): (i: int)
    ensures -1 <= i < |data|
    ensures i == -1 <==> HasNoLineBreak(data)
    ensures 0 <= i ==> IsLineBreak(data[i]) && HasNoLineBreak(data[..i])
  {
    Bytes.IndexAny(data, "\r\n")
  }

  /**
    What a split function hands back: how many bytes it consumed, and the
    token, or `None` when it needs more data (advance 0).
   */
  datatype ScanResult = ScanResult(advance: nat, token: Option<seq<char>>)

  /**
    `tok` is the first line of `data` and `adv` bytes make up that line and
    its terminator: `tok` is a break-free prefix of `data`, and what follows
    it up to `adv` is CRLF, LF, a CR not followed by LF inside the buffer, or
    nothing at all when `tok` is the whole buffer.
   */
  predicate IsFirstLine(data: seq<char>, tok: seq<char>, adv: nat) {
    && |tok| <= adv <= |data|
    && data[..|tok|] == tok
    && HasNoLineBreak(tok)
    && var term := data[|tok|..adv];
       || term == "\r\n"
       || term == "\n"
       || (term == "\r" && (adv == |data| || data[adv] != '\n'))
       || (term == "" && adv == |data|)
  }

  /**
    The split function exactly as written: at a CR that ends the buffer it
    consumes the CR as a one-byte terminator even when more data may follow.
   */
  function ScanLine(data: seq<char>, atEOF: bool): (r: ScanResult)
    ensures r.advance <= |data|
    ensures r.token.None? <==> r.advance == 0
    ensures r.token.None? <==> |data| == 0 || (!atEOF && HasNoLineBreak(data))
    ensures r.token.Some? ==> IsFirstLine(data, r.token.value, r.advance)
  {
    if atEOF && |data| == 0 then ScanResult(0, None)
    else
      var eol := IndexAnyLineBreak(data);
      if eol == -1 then
        if atEOF then ScanResult(|data|, Some(data)) else ScanResult(0, None)
      else
        var crlf := if data[eol] == '\r' && eol + 1 < |data| && data[eol + 1] == '\n' then 2 else 1;
        BreakEndsFirstLine(data, eol, crlf);
        ScanResult(eol + crlf, Some(data[0..eol]))
  }

  /** Lemma: the text before the first break, with a CRLF or a one-byte break after it, is the first line. */
  lemma BreakEndsFirstLine(data: seq<char>, eol: nat, crlf: nat)
    requires eol < |data| && IsLineBreak(data[eol]) && HasNoLineBreak(data[..eol])
    requires crlf == if data[eol] == '\r' && eol + 1 < |data| && data[eol + 1] == '\n' then 2 else 1
    ensures IsFirstLine(data, data[0..eol], eol + crlf)
  {
    assert data[..eol] == data[0..eol];
    if crlf == 2 {
      assert data[eol..eol + 2] == "\r\n";
    } else {
      assert data[eol..eol + 1] == [data[eol]];
    }
  }

  /**
    The split function as the line-break rule intends it: a CR that ends the
    buffer is only taken as a terminator once end of input is confirmed;
    before that the function asks for more data.
   */
  function ScanLineWaitingForLf(data: seq<char>, atEOF: bool): (r: ScanResult)
    ensures r.advance <= |data|
    ensures r.token.None? <==> r.advance == 0
    ensures r.token.Some? ==> IsFirstLine(data, r.token.value, r.advance)
    ensures r.token.Some? && !atEOF ==> r.advance < |data| || data[|data| - 1] == '\n'
  {
    var r := ScanLine(data, atEOF);
    if !atEOF && r.advance == |data| && 0 < |data| && data[|data| - 1] == '\r' then ScanResult(0, None)
    else r
  }

  /**
    The corrected split function still returns a line before end of input
    whenever its terminator is known: it asks for more data only for an
    empty buffer, a buffer without CR or LF, or one whose only break is a
    CR at its very end; and any line it returns is the one the split
    function as written returns.
   */
  lemma WaitingForLfIsLive(data: seq<char>, atEOF: bool)
    ensures var r := ScanLineWaitingForLf(data, atEOF);
      && (r.token.None? <==>
            |data| == 0 ||
            (!atEOF && (HasNoLineBreak(data) || (IndexAnyLineBreak(data) == |data| - 1 && data[|data| - 1] == '\r'))))
      && (r.token.Some? ==> r == ScanLine(data, atEOF))
  {
  }

  /** The two split functions agree once end of input is known. */
  lemma AgreeAtEof(data: seq<char>)
    ensures ScanLineWaitingForLf(data, true) == ScanLine(data, true)
  {
  }

  /**
    The corrected split function never changes its mind: a token it returns
    before end of input is returned again, with the same advance, whatever
    bytes arrive afterwards.
   */
  lemma WaitingForLfIsStable(data: seq<char>, more: seq<char>, atEOF: bool)
    requires ScanLineWaitingForLf(data, false).advance > 0
    ensures ScanLineWaitingForLf(data + more, atEOF) == ScanLineWaitingForLf(data, false)
  {
    var r := ScanLineWaitingForLf(data, false);
    var d := data + more;
    var eol := IndexAnyLineBreak(data);
    assert d[..|data|] == data;
    assert eol >= 0;
    assert d[..eol] == data[..eol];
    assert IndexAnyLineBreak(d) == eol;
    assert d[0..eol] == data[0..eol];
  }

  /**
    The split function as written is not stable: the CR of a CRLF that a read
    boundary separates from its LF ends one line, and the LF then ends a
    second, empty line; with the whole CRLF in the buffer it is one terminator.
   */
  lemma ScanLineSplitsCrLf()
    ensures ScanLine("a\r", false) == ScanResult(2, Some("a"))
    ensures ScanLine("\n", false) == ScanResult(1, Some(""))
    ensures ScanLine("a\r\n", false) == ScanResult(3, Some("a"))
    ensures ScanLineWaitingForLf("a\r", false) == ScanResult(0, None)
  {
    assert IndexAnyLineBreak("a\r") == 1 by {
      assert "a\r"[1..] == "\r";
    }
    assert IndexAnyLineBreak("a\r\n") == 1 by {
      assert "a\r\n"[1..] == "\r\n";
    }
    assert IndexAnyLineBreak("\n") == 0;
    assert "a\r\n"[0..1] == "a";
    assert "a\r"[0..1] == "a";
  }

  /**
    The split function's table-driven vectors: an empty buffer asks for more
    data before end of input and yields nothing at it; a lone CR at end of
    input and a CRLF each end one empty line. (Those vectors compare tokens
    with `bytes.Equal`, under which a nil token and an empty one agree.)
   */
  lemma ScanLineVectors()
    ensures ScanLine("", false) == ScanResult(0, None)
    ensures ScanLine("\r", true) == ScanResult(1, Some(""))
    ensures ScanLine("\r\n", false) == ScanResult(2, Some(""))
    ensures ScanLine("", true) == ScanResult(0, None)
  {
    assert IndexAnyLineBreak("\r") == 0;
    assert IndexAnyLineBreak("\r\n") == 0;
  }

  /**
    The first-line characterisation pins the split function down: any
    non-empty first line and advance satisfying it are the ones returned at
    end of input.
   */
  lemma {:induction false} FirstLineUnique(data: seq<char>, tok: seq<char>, adv: nat)
    requires 0 < adv
    requires IsFirstLine(data, tok, adv)
    ensures ScanLineWaitingForLf(data, true) == ScanResult(adv, Some(tok))
  {
    var r := ScanLine(data, true);
    var t := r.token.value;
    var term := data[|tok|..adv];
    if |tok| < |data| {
      assert |term| > 0 && term[0] == data[|tok|];
      assert IsLineBreak(data[|tok|]);
    }
    BreakFreePrefixEnd(data, |tok|);
    BreakFreePrefixEnd(data, |t|);
    assert t == data[..|t|] == data[..|tok|] == tok;
  }

  /** A break-free prefix that ends at a break or at the end of the buffer reaches the first break. */
  lemma BreakFreePrefixEnd(data: seq<char>, n: nat)
    requires n <= |data| && HasNoLineBreak(data[..n])
    requires n == |data| || IsLineBreak(data[n])
    ensures n == if IndexAnyLineBreak(data) == -1 then |data| else IndexAnyLineBreak(data)
  {
    var i := IndexAnyLineBreak(data);
    if 0 <= i {
      assert forall k :: 0 <= k < i ==> data[..i][k] == data[k];
      assert forall k :: 0 <= k < n ==> data[..n][k] == data[k];
    }
  }

  /** A line of the input: its text and the terminator that ended it. */
  datatype Line = Line(text: seq<char>, terminator: seq<char>)

  /** The input that a sequence of lines was cut from. */
  function Flatten(ls: seq<Line>): seq<char> {
    if |ls| == 0 then [] else ls[0].text + ls[0].terminator + Flatten(ls[1..])
  }

  predicate BeginsWithLf(l: Line) {
    l.text == "" && |l.terminator| > 0 && l.terminator[0] == '\n'
  }

  /**
    A sequence of lines the tokenizer can produce: break-free texts; CRLF, LF
    or CR terminators, except for a last line ended only by end of input; and
    no CR terminator directly followed by an LF.
   */
  predicate WellFormed(ls: seq<Line>) {
    |ls| == 0 ||
    (&& HasNoLineBreak(ls[0].text)
     && (ls[0].terminator == "\r\n" || ls[0].terminator == "\n" || ls[0].terminator == "\r" || ls[0].terminator == "")
     && (ls[0].terminator == "" ==> |ls| == 1 && ls[0].text != "")
     && (ls[0].terminator == "\r" && 1 < |ls| ==> !BeginsWithLf(ls[1]))
     && WellFormed(ls[1..]))
  }

  /** Tokenization of a complete input, one line per call of the split function. */
  function Split(input: seq<char>): (ls: seq<Line>)
    decreases |input|
  {
    var r := ScanLineWaitingForLf(input, true);
    if r.advance == 0 then []
    else [Line(r.token.value, input[|r.token.value|..r.advance])] + Split(input[r.advance..])
  }

  /** The texts of the lines: the tokens the reader folds into events. */
  function Tokens(input: seq<char>): (toks: seq<seq<char>>) {
    Texts(Split(input))
  }

  function Texts(ls: seq<Line>): (toks: seq<seq<char>>)
    ensures |toks| == |ls|
    ensures forall i :: 0 <= i < |ls| ==> toks[i] == ls[i].text
  {
    if |ls| == 0 then [] else [ls[0].text] + Texts(ls[1..])
  }

  /** Lemma: a line ended by LF is the first line of the tokenization. */
  lemma SplitLfLine(text: seq<char>, rest: seq<char>)
    requires HasNoLineBreak(text)
    ensures Split(text + "\n" + rest) == [Line(text, "\n")] + Split(rest)
  {
    var input := text + "\n" + rest;
    assert input[..|text|] == text;
    assert input[|text|..|text| + 1] == "\n";
    assert input[|text| + 1..] == rest;
    FirstLineUnique(input, text, |text| + 1);
  }

  /** Lemma: a last line ended only by end of input. */
  lemma SplitLastLine(text: seq<char>)
    requires text != "" && HasNoLineBreak(text)
    ensures Split(text) == [Line(text, "")]
  {
    assert text[..|text|] == text;
    FirstLineUnique(text, text, |text|);
    assert text[|text|..] == [];
  }

  /** Lines each ended by LF. */
  function TerminateEach(lines: seq<seq<char>>): seq<char> {
    if |lines| == 0 then [] else lines[0] + "\n" + TerminateEach(lines[1..])
  }

  /**
    Lemma: the tokens of LF-terminated break-free lines, optionally followed
    by an unterminated last line, are those lines.
   */
  lemma {:induction false} TokensOfLines(lines: seq<seq<char>>, last: seq<char>)
    requires forall k :: 0 <= k < |lines| ==> HasNoLineBreak(lines[k])
    requires HasNoLineBreak(last)
    ensures Tokens(TerminateEach(lines) + last) == lines + (if last == [] then [] else [last])
    decreases |lines|
  {
    if |lines| == 0 {
      assert TerminateEach(lines) + last == last;
      if last != [] {
        SplitLastLine(last);
        TextsCons(Line(last, ""), []);
      } else {
        assert Split(last) == [];
      }
    } else {
      var rest := TerminateEach(lines[1..]) + last;
      TokensOfLines(lines[1..], last);
      assert TerminateEach(lines) + last == lines[0] + "\n" + rest;
      SplitLfLine(lines[0], rest);
      TextsCons(Line(lines[0], "\n"), Split(rest));
      ConsAppend(lines, if last == [] then [] else [last]);
    }
  }

  /** Lemma: the texts of a line followed by more lines. */
  lemma TextsCons(l: Line, ls: seq<Line>)
    ensures Texts([l] + ls) == [l.text] + Texts(ls)
  {
    assert ([l] + ls)[1..] == ls;
  }

  /** Lemma: splitting off the head of a non-empty sequence before an append. */
  lemma ConsAppend(xs: seq<seq<char>>, ys: seq<seq<char>>)
    requires 0 < |xs|
    ensures xs + ys == [xs[0]] + (xs[1..] + ys)
  {
  }

  /** Re-joining the lines with their original terminators gives back the input. */
  lemma {:induction false} FlattenSplit(input: seq<char>)
    ensures Flatten(Split(input)) == input
    decreases |input|
  {
    var r := ScanLineWaitingForLf(input, true);
    if r.advance > 0 {
      var t := r.token.value;
      var rest := input[r.advance..];
      SplitHead(input);
      FlattenSplit(rest);
      FlattenRejoin(input, t, r.advance, Split(rest));
    } else {
      assert Split(input) == [];
    }
  }

  /** Lemma: a first line and its terminator, followed by the rest re-joined, is the input. */
  lemma FlattenRejoin(input: seq<char>, t: seq<char>, adv: nat, ls: seq<Line>)
    requires |t| <= adv <= |input| && input[..|t|] == t
    requires Flatten(ls) == input[adv..]
    ensures Flatten([Line(t, input[|t|..adv])] + ls) == input
  {
    FlattenCons(Line(t, input[|t|..adv]), ls);
    assert input == input[..|t|] + input[|t|..adv] + input[adv..];
  }

  /** Lemma: the first line the split function finds heads the tokenization. */
  lemma SplitHead(input: seq<char>)
    requires ScanLineWaitingForLf(input, true).advance > 0
    ensures var r := ScanLineWaitingForLf(input, true);
      Split(input) == [Line(r.token.value, input[|r.token.value|..r.advance])] + Split(input[r.advance..])
  {
  }

  /** Lemma: flattening a line followed by more lines. */
  lemma FlattenCons(l: Line, ls: seq<Line>)
    ensures Flatten([l] + ls) == l.text + l.terminator + Flatten(ls)
  {
    assert ([l] + ls)[1..] == ls;
  }

  /** Every tokenization is well formed. */
  lemma {:induction false} SplitWellFormed(input: seq<char>)
    ensures WellFormed(Split(input))
    decreases |input|
  {
    var r := ScanLineWaitingForLf(input, true);
    if r.advance > 0 {
      var ls := Split(input);
      var rest := input[r.advance..];
      SplitWellFormed(rest);
      assert ls[1..] == Split(rest);
      if ls[0].terminator == "\r" && 1 < |ls| {
        var r2 := ScanLineWaitingForLf(rest, true);
        assert rest[0] != '\n';
      }
    }
  }

  /** Lemma: the first character of a flattened well-formed sequence. */
  lemma FlattenHead(ls: seq<Line>)
    requires 0 < |ls| && WellFormed(ls)
    ensures 0 < |Flatten(ls)|
    ensures Flatten(ls)[0] == '\n' <==> BeginsWithLf(ls[0])
  {
    var f := Flatten(ls);
    if ls[0].text != "" {
      assert f[0] == ls[0].text[0];
      assert !IsLineBreak(ls[0].text[0]);
    } else {
      assert f[0] == ls[0].terminator[0];
    }
  }

  /** Lemma: the first line of a flattened well-formed sequence is tokenized back to itself. */
  lemma SplitFlattenStep(ls: seq<Line>)
    requires 0 < |ls| && WellFormed(ls)
    ensures Split(Flatten(ls)) == [ls[0]] + Split(Flatten(ls[1..]))
  {
    var l, rest := ls[0], Flatten(ls[1..]);
    FlattenCons(l, ls[1..]);
    assert ls == [l] + ls[1..];
    if l.terminator == "\r" && 1 < |ls| {
      FlattenHead(ls[1..]);
    }
    if l.terminator == "" {
      assert ls[1..] == [];
    }
    SplitLineThen(l, rest);
  }

  /**
    Lemma: a break-free text with a terminator the tokenizer accepts, and
    then any rest that does not turn a lone CR into a CRLF, heads the
    tokenization.
   */
  lemma SplitLineThen(l: Line, rest: seq<char>)
    requires HasNoLineBreak(l.text)
    requires l.terminator == "\r\n" || l.terminator == "\n" || l.terminator == "\r" || l.terminator == ""
    requires l.terminator == "" ==> rest == [] && l.text != ""
    requires l.terminator == "\r" && rest != [] ==> rest[0] != '\n'
    ensures Split(l.text + l.terminator + rest) == [l] + Split(rest)
  {
    var input := l.text + l.terminator + rest;
    var adv := |l.text| + |l.terminator|;
    assert input[..|l.text|] == l.text;
    assert input[|l.text|..adv] == l.terminator;
    assert input[adv..] == rest;
    if l.terminator == "\r" && rest != [] {
      assert input[adv] == rest[0];
    }
    FirstLineUnique(input, l.text, adv);
    SplitCons(input, l, adv);
  }

  /** Lemma: a first line found by the split function heads the tokenization. */
  lemma SplitCons(input: seq<char>, l: Line, adv: nat)
    requires 0 < adv <= |input|
    requires ScanLineWaitingForLf(input, true) == ScanResult(adv, Some(l.text))
    requires input[|l.text|..adv] == l.terminator
    ensures Split(input) == [l] + Split(input[adv..])
  {
  }

  /** Lemma: a sequence's head followed by its tail is the sequence. */
  lemma ConsTail(ls: seq<Line>, r: seq<Line>, tail: seq<Line>)
    requires 0 < |ls| && r == [ls[0]] + tail && tail == ls[1..]
    ensures r == ls
  {
  }

  /** Tokenizing the flattening of well-formed lines gives back those lines. */
  lemma {:induction false} SplitFlatten(ls: seq<Line>)
    requires WellFormed(ls)
    ensures Split(Flatten(ls)) == ls
    decreases |ls|
  {
    if |ls| > 0 {
      SplitFlattenStep(ls);
      SplitFlatten(ls[1..]);
      ConsTail(ls, Split(Flatten(ls)), Split(Flatten(ls[1..])));
    } else {
      assert Flatten(ls) == [];
    }
  }

}
