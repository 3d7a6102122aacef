# go-sse reader and handler, modelled in Dafny

go-sse is a Go library for Server-Sent Events. This project models two parts of it and proves properties of the models.

**The client-side reader** (`reader.go`) turns a byte stream into events:
- `scanLines` is a `bufio` split function. It cuts the buffer at the first CR, LF or CRLF.
- `NextEvent` folds lines into one event:
  - comment lines are skipped;
  - the field is split from its value at the first colon;
  - the fields `event`, `data`, `id` and `retry` take effect;
  - a blank line dispatches the event when data is pending.
- The reader keeps `LastEventID` and `ReconnectionTime` from one event to the next.

**The server-side handler** (`handler.go`) fans events out to connected clients:
- every connection gets a buffered channel;
- `Send` puts the event into every channel with room, and closes and forgets every channel whose buffer is full;
- the last `NumEventsToKeep` events stay in a replay window;
- a connection that sends `Last-Event-ID` first gets the window entries after the last entry with that id, then the events of the init hook;
- the serve loop writes each received event that passes the filter, and ends when its channel is closed or the client goes away;
- `Close` closes every channel and refuses later connections with 503.

Modules, one per file:
- `Wrappers`: `Option`.
- `Bytes`: the first-occurrence search (`bytes.IndexAny`, `bytes.IndexRune`) that the split function and the field parser share.
- `Events`: the event record and the field-name constants of `event.go`.
- `Scanner`:
  - the split function, both as written and corrected (see Findings);
  - the tokenization of a complete input built from it;
  - the round trip between tokens and input.
- `Reader`:
  - field parsing and `strconv.Atoi`;
  - `NextEvent` as the function `Collect`;
  - the repeated calls to `NextEvent` (`ParseLines`, `Parse`);
  - a reference line-by-line state machine (`Step`, `Run`), proved equal to the repeated calls.
- `ReaderExamples`: the reader's table-driven test vectors, proved of the model.
- `Handler`:
  - the handler state: the channels with their buffers and closed flags, the registered set, the window and the closed flag;
  - its transitions, the replay selection, and one connection's serve-loop steps.
- `HandlerTraces`: properties of arbitrary interleavings of transitions while the handler is open.
  - Per-subscriber FIFO delivery.
  - The window is always the last events sent.
- `HandlerExamples`: the handler test scenarios, proved of the model.

Modelling choices:
- The tokenization (`Scanner.Split`) calls the corrected split function at end of input. At end of input it agrees with the function as written (`Scanner.AgreeAtEof`). So an input that `bufio.Scanner` holds in its first buffer (at most 4096 bytes) tokenizes as the source tokenizes it. A longer input is split by the source before end of input, where the two functions can differ (see Findings).
- Bytes are modelled as `char`. Go strings are byte strings, and nothing here depends on an encoding.
- Each channel of the handler has a `nat` id that stands for its identity.
- `chans` keeps every channel whose connection may still read it. An evicted channel leaves `registered`, which stands for the keys of `eventChans`. It stays in `chans` so its connection can still drain what was buffered, as Go lets a receiver take the buffered values of a closed channel.
- Sending on a closed channel and closing it twice both panic in Go. These become the preconditions `SendAllowed` and `CloseAllowed`; `Valid` implies them while the handler is open.
- `Close` closes the registered channels but does not remove them from `eventChans` (handler.go:177-185), and the model does the same. A reading that `Close` leaves no channel registered does not match the code.
- The tests in `handler_test.go` pass a one-argument `FilterFn` and set a `Retry` field on `Event`. Neither exists in `handler.go` or `event.go`. The examples follow `handler.go`: the filter takes the connection value and the event.

## Model

| member | source | states |
|---|---|---|
| Bytes.IndexAny | reader.go:18 | -1 exactly when no element of the string is one of the searched bytes; otherwise the index of a searched byte with none of them before it |
| Scanner.IndexAnyLineBreak | reader.go:18 | -1 exactly when the buffer holds no CR or LF; otherwise the index of a CR or LF with no break before it |
| Scanner.ScanLine | reader.go:13-35 | the split function as written: it never advances past the buffer; it returns no token exactly when it advances 0, which is exactly when the buffer is empty, or when it is not at end of input and holds no break; any token is the break-free first line, and the advance covers CRLF, LF, a lone CR, or nothing at end of input |
| Scanner.ScanLineWaitingForLf | reader.go:27-34 | the corrected split function: the same first-line guarantee, and before end of input it never returns a token whose terminator is a CR at the end of the buffer |
| Scanner.WaitingForLfIsLive | reader.go:13-35 | the corrected function asks for more data exactly when the buffer is empty, or when it is not at end of input and holds no break or only a CR as its last byte; whenever it returns a token, that token and advance are what the function as written returns |
| Scanner.AgreeAtEof | reader.go:13-35 | at end of input the split function as written and the corrected one give the same result |
| Scanner.WaitingForLfIsStable | reader.go:27-34 | a token the corrected function returns before end of input comes back, with the same advance, however many bytes are appended and whether or not the input has ended |
| Scanner.ScanLineSplitsCrLf | reader.go:27-34 | as written, the buffer `a\r` before end of input gives the line `a` with advance 2, and the `\n` that follows then gives an empty line; the whole `a\r\n` gives one line with advance 3; the corrected function waits on `a\r` |
| Scanner.ScanLineVectors | reader_test.go:16-64 | the split-function test vectors: empty buffer before and at end of input, a lone CR at end of input, a CRLF |
| Scanner.FirstLineUnique | reader.go:13-35 | any non-empty first line and advance that satisfy the first-line characterisation are exactly what the split function returns at end of input |
| Scanner.Split | reader.go:55-57 | the tokenization of a complete input by repeated calls of the split function at end of input, each line kept with its terminator; its properties are stated by `FlattenSplit`, `SplitWellFormed` and `SplitFlatten` below |
| Scanner.Tokens | reader.go:74-77 | the lines `NextEvent` scans, terminators dropped; `TokensOfLines` below states what they are for LF-terminated input |
| Scanner.TokensOfLines | reader.go:13-35 | the tokens of break-free lines, each ended by LF and optionally followed by one unterminated line, are exactly those lines |
| Scanner.FlattenSplit | reader.go:13-35 | joining the lines of a tokenization back together with their terminators gives back the input |
| Scanner.SplitWellFormed | reader.go:13-35 | every tokenization is well formed: the texts are break-free; every terminator is CRLF, LF or CR, except that a non-empty last line may have none; no CR terminator is followed by a line starting with LF |
| Scanner.SplitFlatten | reader.go:13-35 | tokenizing the text of well-formed lines gives back those lines, terminators included |
| Reader.IndexOfColon | reader.go:88 | -1 exactly when the line has no colon; otherwise the position of its first colon (the shared search, for a colon) |
| Reader.IndexOfLf | reader.go:116 | -1 exactly when the string has no LF; otherwise the position of its first LF (the shared search, for an LF) |
| Reader.ParseField | reader.go:84-94 | without a colon the whole line is the field and the value is empty; with one, the field holds no colon, and the line is the field, a colon and the value, or the field, a colon, one space and the value |
| Reader.ParseFieldUnique | reader.go:84-94 | whenever a line is a colon-free field, then `:` or `: `, then a value (not starting with a space after a bare `:`), that field and value are what the parser returns |
| Reader.Atoi | reader.go:106 | a result is only produced for a non-empty string; it is non-positive after a leading minus and non-negative otherwise |
| Reader.AtoiAccepts | reader.go:106-109 | Atoi accepts exactly the strings that are one or more digits, optionally after a single `+` or `-` |
| Reader.LeadingZeroValue | reader.go:106 | a leading zero before a digit string keeps it a digit string and leaves its value unchanged |
| Reader.AtoiSigned | reader.go:106 | a digit string parses as its value; after `+` it parses the same, and after `-` as the negated value |
| Reader.SignThenDigits | reader.go:106 | a sign followed by one or more digits parses as their value, negated for `-` |
| Reader.AtoiLeadingZero | reader.go:106 | a leading zero, after an optional sign, is accepted and leaves the parsed value unchanged; `0`, `+0` and `-0` all parse as zero |
| Reader.AtoiFormatInt | reader.go:105-110 | parsing the decimal form of any integer, with or without a `+` on a non-negative one, gives back that integer |
| Reader.ApplyField | reader.go:95-111 | each of the four fields touches only its own slot: `event` sets the type to exactly its value and is the only field that changes it, only `data` changes the data and then by appending exactly its value, only `id` changes the last event id, only `retry` changes the reconnection time; the exact effects of whole lines are stated by `EventField`, `IdField`, `RetryField` and `UnknownFieldIgnored` |
| Reader.ApplyLine | reader.go:81-111 | one non-empty line either leaves the data lines alone or appends exactly the parsed value; `CommentIgnored` states the comment case |
| Reader.CommentIgnored | reader.go:81-83 | a line starting with a colon changes neither the pending event nor the session |
| Reader.UnknownFieldIgnored | reader.go:95-111 | a line whose field is none of `event`, `data`, `id`, `retry` changes nothing |
| Reader.EventField | reader.go:96-97 | an `event` line sets the pending type to its value, empty included, and changes neither the data lines nor the session |
| Reader.IdField | reader.go:100-104 | an `id` line sets the last event id to its value, empty included, unless the value holds a NUL; then it changes nothing; it never touches the pending event or the reconnection time |
| Reader.RetryField | reader.go:105-110 | a `retry` line whose value Atoi accepts sets the reconnection time to that integer; otherwise nothing changes |
| Reader.Join | reader.go:116 | `strings.Join` with an LF separator; `SplitLfJoin` states that it loses nothing |
| Reader.SplitLfCons | reader.go:116 | an LF-free piece followed by an LF and anything else splits off as the first piece |
| Reader.SplitLfJoin | reader.go:116 | LF-free lines joined with LF split back into the same lines |
| Reader.Dispatch | reader.go:114-118 | the event a blank line returns: pending type, joined data, current last event id; `DispatchKeepsDataLines` states what its data holds |
| Reader.DispatchKeepsDataLines | reader.go:114-118 | a dispatched event's data, split at LFs, gives back its data lines in order |
| Reader.Collect | reader.go:72-113 | one `NextEvent` call consumes a prefix of the lines; an event is returned only right after a blank line, and carries the last event id the call ends with; with no event, every line has been consumed |
| Reader.NextEvent | reader.go:66-119 | no event means the lines are exhausted; an event means the call stopped just after a blank line, and the lines it leaves are exactly those after that line, possibly none; the event carries the reader's last event id; `CollectRun` relates it to the line machine |
| Reader.ParseLines | reader.go:66-119 | calling `NextEvent` until it returns nothing yields at most one event per line; `ParseLinesIsRun` states which events |
| Reader.Parse | reader.go:55-61 | reading a complete input: tokenize it, then call `NextEvent` until nothing is left, starting from the given last event id and reconnection time |
| Reader.ParseIsRun | reader.go:55-119 | the events and the final session of reading a complete input are those of the line machine run over its tokens |
| Reader.Step | reader.go:78-111 | one line appends an event exactly when it is blank and data is pending; the event appended is the pending type, the joined data and the current last event id; earlier events are untouched |
| Reader.CollectRun | reader.go:72-113 | a `NextEvent` call is the line machine run up to and including the dispatching blank line; with no event, the whole run adds no event and ends in the same session |
| Reader.ParseLinesIsRun | reader.go:66-119 | calling `NextEvent` until it returns nothing yields the same events and the same final last event id and reconnection time as the line machine over all lines |
| Reader.RunAppend | reader.go:72-80 | running the line machine over two pieces of input is running it over the first and then, from where it ended, over the second |
| Reader.RunNoBlankLine | reader.go:72-80 | without a blank line the machine appends no event, and pending data stays pending |
| Reader.NoBlankLineNoEvent | reader.go:72-80 | lines followed by any tail without a blank line yield exactly the events of the lines alone: a trailing event without its blank line is dropped |
| Reader.StickySession | reader.go:100-110 | the last event id changes only on an `id` line whose value holds no NUL, and becomes that value; the reconnection time changes only on a `retry` line whose value Atoi accepts, and becomes that integer |
| Reader.TypeCarriesOverEmptyDispatch | reader.go:72-80 | a blank line with no data pending changes nothing, so the event type set before it survives |
| Reader.TypeResetAfterDispatch | reader.go:67-71 | after a dispatch the next event starts with the default type and no data |
| ReaderExamples.EmptyInput | reader_test.go:88-95 | empty input: no events, session untouched |
| ReaderExamples.CommentOnly | reader_test.go:96-103 | a comment and a blank line: no events |
| ReaderExamples.FieldWithoutLineBreak | reader_test.go:104-111 | a field with no line break at all: no events |
| ReaderExamples.FieldWithNoValue | reader_test.go:112-119 | an `event` field and a blank line: no events |
| ReaderExamples.EventWithNoType | reader_test.go:120-127 | `data` then a blank line: one event of the default type with empty data |
| ReaderExamples.EventWithType | reader_test.go:128-135 | the event carries the type set by `event:1` |
| ReaderExamples.EventWithId | reader_test.go:136-143 | the event carries id 1 and the reader keeps it |
| ReaderExamples.EventRetainingPreviousId | reader_test.go:144-154 | a later event without an `id` line still carries id 1 |
| ReaderExamples.NulInIdIgnored | reader_test.go:155-162 | an id holding NUL is ignored |
| ReaderExamples.Retry | reader_test.go:163-170 | `retry:10` sets the reconnection time to 10 |
| ReaderExamples.BadRetry | reader_test.go:171-178 | `retry:$` leaves the reconnection time at 0 |
| ReaderExamples.MultilineData | reader_test.go:179-186 | two empty data lines make the data one LF |
| ReaderExamples.WhatwgExampleOne | reader_test.go:187-198 | the standard's first example: three events; the first has id 1; the second comes after a bare `id` line that clears it; the third keeps the second of its two leading spaces |
| ReaderExamples.WhatwgExampleTwo | reader_test.go:199-209 | the standard's second example: two events; the last record has no blank line and is dropped |
| ReaderExamples.TypeSurvivesEmptyDispatch | reader.go:72-80 | for `event:x`, a blank line, `data:` and a blank line, the one event has type x |
| Handler.NewHandler | handler.go:37-63 | a new handler satisfies the invariant, has no registered channel, an empty window and is open; with no configuration it uses the defaults 10 and 4 |
| Handler.Register | handler.go:79-94 | refused with 503 exactly when the handler is closed; otherwise one new, open, empty channel joins the registered set with a fresh id; window and configuration unchanged; the invariant is kept |
| Handler.Offer | handler.go:162-169 | a channel with room gets the event at the back of its buffer; a full one is closed with its buffer kept |
| Handler.PushWindow | handler.go:170-173 | the new window is a suffix of the old window plus the event, at most one longer than before, and ends with the event; when the old window fits the limit, it is the last `NumEventsToKeep` entries of the old window plus the event |
| Handler.Send | handler.go:159-174 | a registered channel stays registered exactly when its buffer is not full; those that stay get the event appended; those dropped are closed with their buffers intact; unregistered channels are untouched; the window takes the event; configuration, closed flag and ids unchanged |
| Handler.SendChannel | handler.go:162-169 | for one channel, Send offers the event to it exactly when it is registered and leaves it alone otherwise; it stays registered exactly when it was registered and not full |
| Handler.SendValid | handler.go:159-174 | on an open handler, Send is allowed (no registered channel is closed) and keeps the invariant |
| Handler.Dequeue | handler.go:135-140 | a receive gives the oldest buffered event, also from a closed channel; it reports closed exactly when the channel is closed and drained, and would block exactly when it is open and empty; only that channel's buffer changes |
| Handler.DequeueValid | handler.go:135-140 | a receive keeps the invariant |
| Handler.Disconnect | handler.go:145-152 | the channel leaves the registered set and nothing else changes |
| Handler.Close | handler.go:177-185 | the handler is closed; every registered channel is closed with its buffer kept and stays registered; other channels, the window and the configuration are unchanged; registration is then refused |
| Handler.CloseValid | handler.go:177-185 | on an open handler, Close is allowed and keeps the invariant |
| Handler.Drain | handler.go:133-140 | a connection on a closed channel receives exactly the buffered events, in order, before its loop ends |
| Handler.LastIndexOfId | handler.go:108-113 | -1 exactly when no window entry has the id; otherwise an entry with that id, with no later entry having it |
| Handler.Replay | handler.go:102-115 | empty for an empty id; otherwise a suffix of the window in which no event has the id; when the window holds the id, the entry just before the suffix has it; when it does not, the whole window |
| Handler.SelectReplay | handler.go:103-115 | the loop that scans the window for the last entry with the id computes exactly the replay selection |
| Handler.Filtered | handler.go:116-120 | keeps only events of the input that pass the filter, and every input event that passes it; never more events than the input; with no filter, all of them |
| Handler.FilteredOne | handler.go:116-120 | one event is kept exactly when it passes the filter |
| Handler.FilteredAppend | handler.go:116-120 | filtering two runs of events one after the other is filtering each and concatenating, so the order of kept events is the input order |
| Handler.AcceptConnection | handler.go:65-130 | refused with 503 exactly when closed; otherwise the handler is exactly the one registration leaves, under the id it hands out; the connection's first output is the filtered replay followed by the init events unfiltered, and its channel is registered, open and empty |
| Handler.ServeReceive | handler.go:133-144 | the loop ends exactly when its channel is closed and drained; with nothing buffered it writes nothing and changes nothing, ending or waiting; otherwise the oldest buffered event leaves the channel, nothing else in the handler changes, and the event is written exactly when it passes the filter; the registered set is unchanged |
| Handler.ServeDisconnect | handler.go:145-152 | the client's channel leaves the registered set, nothing else in the handler changes, the output is unchanged and the loop ends |
| HandlerTraces.Apply | handler.go:79-174 | every transition of an open handler keeps the invariant, keeps it open and loses no channel |
| HandlerTraces.RunOps | handler.go:79-174 | any sequence of transitions of an open handler keeps the invariant, keeps it open and loses no channel |
| HandlerTraces.StaysDeregistered | handler.go:92-93 | a channel out of the registered set is not registered again by any transition |
| HandlerTraces.StaysDeregisteredAll | handler.go:92-93 | nor by any sequence of transitions |
| HandlerTraces.FifoStep | handler.go:159-174 | for one transition and one channel, the event handed out and then what stays buffered form a prefix of the old buffer followed by the event sent; they form all of it while the channel stays registered |
| HandlerTraces.SendKeepsOrder | handler.go:162-169 | after a send, a channel's buffer is a prefix of its old buffer followed by the event, and all of it while the channel stays registered |
| HandlerTraces.DeregisteredShrinks | handler.go:162-169 | a channel out of the registered set gains nothing: what it hands out and what it keeps is what it had |
| HandlerTraces.Fifo | handler.go:159-174 | per-subscriber delivery order over any interleaving: the events handed out and then the events still buffered form a prefix of the starting buffer followed by every event sent, and all of it while the channel stays registered; no event is reordered or duplicated, and events are lost only by eviction |
| HandlerTraces.ServeOne | handler.go:133-144 | the connection's loop over one transition: it receives only when the transition is its own receive and it has not ended; output only grows |
| HandlerTraces.ServeAll | handler.go:133-144 | the connection's loop over a sequence of transitions keeps its identity, and its output only grows |
| HandlerTraces.DrainedStays | handler.go:135-140 | a closed, drained channel stays closed and drained under every transition and hands nothing out |
| HandlerTraces.ServeStep | handler.go:133-144 | over one transition the loop writes exactly the filtered events the channel handed out, and if it has ended its channel is closed and drained |
| HandlerTraces.ServeOutput | handler.go:133-144 | over any interleaving the loop writes exactly the filtered sequence of the events its channel handed out, in order |
| HandlerTraces.ServeDeliversSent | handler.go:133-174 | while the connection stays registered, what it wrote followed by the filtered events still buffered is what it had written followed by the filtered starting buffer and every event sent, in order |
| HandlerTraces.WindowIsLastSent | handler.go:170-173 | after any interleaving the window is the last `NumEventsToKeep` events of the starting window followed by everything sent |
| HandlerExamples.BasicPropagation | handler_test.go:63-72 | an event sent to a handler with one connection is the next event that connection receives |
| HandlerExamples.ClientDisconnect | handler_test.go:73-87 | after a client goes away, no channel is registered and its loop has ended |
| HandlerExamples.ServerDisconnect | handler_test.go:88-94 | after Close, the waiting connection's loop ends and a new connection is refused with 503 |
| HandlerExamples.WindowAfterTwoSends | handler.go:170-173 | two sends into an empty window that holds at least two events leave both in it, in order |
| HandlerExamples.ReplayAfterFirst | handler.go:108-114 | resuming after the first of two events replays the second |
| HandlerExamples.SendLastEvents | handler_test.go:95-121 | a client that reconnects with Last-Event-ID 1 is sent exactly the event it missed |
| HandlerExamples.SentThenReceived | handler.go:135-140 | an event sent while a registered channel is open and empty is the next thing a receive on that channel gives, leaving it empty |
| HandlerExamples.ReceiveOnly | handler.go:135-140 | a receive on an open channel holding one event gives that event and leaves the channel empty |
| HandlerExamples.ResumeAfterFirst | handler.go:102-130 | without hooks, a connection resuming after id "1" from a window holding that event and then a blank one is sent the blank one alone |
| HandlerExamples.CallbackHooks | handler_test.go:122-134 | the test's hooks: one blank init event, and a filter that admits the connection value "1" and not "2" |
| HandlerExamples.CallbackInit | handler_test.go:122-139 | a connection with value "1" is first sent the init event |
| HandlerExamples.CallbackReceive | handler_test.go:135-139 | on a buffered channel (capacity at least 1, unlike the test's unbuffered one), a sent event then reaches the connection after the init event: two events in all |

## Left out

- Scanner.Split: calls the split function only at end of input, over the whole input held in one buffer. `bufio.Scanner` starts with a 4096-byte buffer and calls the split function before end of input while the stream has not reported EOF. So a complete input longer than that can have a CR as the last byte of a buffer and meet the behaviour recorded under Findings, which `Split` does not reproduce.
- Stream reading. The model tokenizes a complete input held in one buffer at end of input. Chunked reads appear only through the split function's own lemmas (`WaitingForLfIsStable`, `ScanLineSplitsCrLf`).
- `bufio.Scanner`'s token-size limit and read errors: the `scanner.Err()` that `NextEvent` returns (reader.go:74-75) is always nil here.
- A byte-order mark at the start of the stream. The source does not handle one either (reader.go:11).
- Reader.Atoi: does not model `strconv.Atoi`'s range error. A digit string too large for a 64-bit `int` parses here, where Go reports an error and the `retry` line is ignored.
- Locks, goroutines and the wait group, including `Close` waiting for the serve loops (handler.go:184). Each transition is modelled as atomic, and interleavings are sequences of them.
- `AcceptConnection` takes the replay window as a parameter, because `ServeHTTP` reads it under a second lock acquisition after registering.
- HTTP: the request, the response headers (handler.go:97-99), the panic when the writer cannot flush (handler.go:74-77), and the bytes written. Output is the sequence of events written. `ConnectedFn` is replaced by the connection value `v` it would return. Event serialization (`e.Bytes()`) is outside the core.
- HandlerExamples.CallbackReceive: assumes a buffered channel, because `Valid` requires a capacity of at least 1. The test's configuration (handler_test.go:124-134) leaves `ChannelBufferSize` at 0, so in Go its send succeeds only because the serve loop is already waiting in its receive. The model does not say what that test's unbuffered channel does.
- Unbuffered or negative channel capacities: `Valid` and `NewHandler` require a capacity of at least 1. With capacity 0, the outcome of a non-blocking send depends on whether a receiver is waiting at that instant.
- `Send` after `Close` and a second `Close`: both panic in Go and are excluded by their preconditions, not modelled as outcomes.
- The SSE client (client.go) is not part of this model.

## Findings

| source | as written | input that shows it | evidently intended | confidence | as-written member | corrected member |
|---|---|---|---|---|---|---|
| reader.go:27-34 | a CR that is the last byte of the buffer is consumed as a complete terminator even when `atEOF` is false | buffer `a\r` before end of input yields line `a` with advance 2; the next read starts with `\n`, which yields an extra empty line, so a CRLF split by a read boundary counts as two line breaks and the blank line can dispatch an event early; this happens even on a complete in-memory input, once it is longer than the scanner's first 4096-byte buffer and byte 4096 is the CR of a CRLF | ask for more data (advance 0) until the byte after the CR is known, so a CRLF is one terminator whatever the read boundaries | not executed | Scanner.ScanLine, Scanner.ScanLineSplitsCrLf | Scanner.ScanLineWaitingForLf, Scanner.WaitingForLfIsStable, Scanner.WaitingForLfIsLive |
