# A verified model of the Lightstreamer client

This project models the parts of lightstreamer-rs, a client for TLCP 2.5.0, whose correctness is an argument over
several functions or over a whole run, and proves the arguments. `dafny verify dfyconfig.toml` checks all of it.

- **Inbound octets to notifications.** `Framing` (the in-place line buffer), `Escaping` (percent coding), `Response`
  (one line to one typed notification), over `Utf8` (RFC 3629 section 4, with its own decoder and encoder), `Numbers`
  and `Sequences`. `Printer` is a server's printer, with TLCP's texts of its own, free to decide anew for each character
  whether to escape it where the grammar lets it, and in which case; `Pipeline` proves that the client inverts it under
  every division of the octets. `Grammar` says which lines are accepted and how the others are refused.
- **TLCP-diff.** `Diff` is the client's parser and interpreter; `DiffTheorems` proves that the integer coding and the
  parser are bijections; `AppendixD` is the standard's algorithm on UTF-16 code units and proves the two agree;
  `DiffRefusals` says what is refused and how it is reported.
- **Requests.** `Request` (validated values, parameter lines, batches) and `Encoders` (`add` and `msg`), each proved
  against a server that splits, decodes and validates.
- **The fan-out.** `RouterCore` says what each command and event does. `Router` is the task as a class that updates its
  fields. `History` says, from the turns alone, what every stream is owed. `Protocol` is the client as a step relation
  of four parties over bounded and unbounded queues; `Invariants`, `Fanout` and `Runs` prove safety in every reachable
  state, `Conservation` that its queues lose and reorder nothing, `Progress` that no tasks wait in a circle, `Stall`
  that a caller can hold them all. `Startup` is `connect`, with its stream as a class; `Connecting` puts its loop into
  the runs of the client and says what it returns and keeps.
- **Timers.** `Config`, `Backoff` and `Liveness`: the configuration checks as the precondition, the jittered schedule,
  and the two clocks, and what a driver keeps that wakes at its deadlines whenever nothing holds it. Durations and
  instants are whole nanoseconds with the platform's ranges.

Octets are `Byte`, an integer below 256; text on the wire is a sequence of octets whose UTF-8 validity is stated where
the source has a `str`. Diffs work on Unicode scalars, as the source does. Rust's `usize` is 64 bits wide. A method is
proved against a function of its inputs or of the old state, and the theorems are about that function.

## What is false of the source, and exactly when it holds

- The comment at `src/client/router.rs:195-198` says that no notification outruns its registration. A `select!` polls
  its branches one after the other, and on several threads the caller may register and request, and the driver report,
  after the command branch was polled and before the event branch is. `Runs.SelectCanOutrunRegistration` is such a run:
  it discards an update of a subscription that was requested and is held. `Runs.DiscardsExactly` is the condition in
  general, and `Runs.NothingOutrunsItsRegistration` the promise, in both directions, when one poll runs in one piece.
- A `U` value list that ends in CR, or holds LF, does not arrive as it was sent, although
  `src/protocol/response.rs:860-866` says that every byte is kept: the buffer strips one CR and the parser one more.
  `Pipeline.RawSurvivesExactly` is the exact condition.
- A positive inactivity commitment below one millisecond is accepted, and makes the heartbeat interval zero.
  `Config.SubMillisecondCommitmentIsAccepted` is one; `Config.HeartbeatPositiveExactly` says when. A driver with that
  interval spins: `Liveness.HeartbeatSpins`.
- Half the committed interval keeps the commitment, says `src/session/options.rs:229-232`. But the driver awaits room
  for each event it reports (`src/session/mod.rs:3781-3797`) and cannot wake for a heartbeat meanwhile, as
  `src/client/updates.rs:335-356` admits of its timers. Under every deployment a caller that holds the session's stream
  and does not read comes to hold the driver there, for as long as it likes: `Stall.CallerCanStallTheDriver`. On every
  accepted configuration with a positive interval, a stream opened and a hold longer than the commitment is a run
  without a request for that long: `Liveness.HoldBreaksCommitment`. The driver is silent too long if and only if some
  hold spans its deadline, `Liveness.LateExactlyWhenSpanned`; and between two requests there is no more than the
  interval and the holds, `Liveness.ConsecutiveRequests`.

The guard on the base at `src/protocol/diff.rs:219-229` is needed on every base with a character beyond the BMP, and for
every COPY that reaches one: `AppendixD.GuardIsNeeded`.

## Model

| member | source | states |
|---|---|---|
| `Framing.LineBuffer.PushBytes` | src/transport/framing.rs:119-155 | the one-pass, single-compaction loop leaves exactly the pure splitter's ready lines and tail; refused exactly when the leftover tail is over the ceiling, reporting its length and leaving the buffer empty; the tail has no LF and is wholly scanned |
| `Framing.LineBuffer.PushMessage` | src/transport/framing.rs:166-168 | the same for a text message |
| `Framing.LineBuffer.PopLine` | src/transport/framing.rs:177-184 | the oldest ready line: as it is if and only if some scalars encode to it, else a malformed frame whose position is the length of the longest prefix that some scalars encode to; the fragment is untouched |
| `Framing.LineBuffer.FlushPartial` | src/transport/framing.rs:200-216 | the line, if any, that one more terminator would have completed, handed out or reported by the same condition |
| `Framing.LineBuffer.DiscardPartial` | src/transport/framing.rs:229-233 | the fragment is dropped, its length reported exactly when it was not empty, ready lines stay |
| `Framing.LineBuffer.Clear` | src/transport/framing.rs:237-241 | nothing is left, ready or partial |
| `Framing.LinesConcat` | src/transport/framing.rs:119-155 | the lines of two runs together are the first run's lines and those of its tail followed by the second: why cuts do not matter |
| `Framing.RunRefinesSplitter` | src/transport/framing.rs:119-184 | after any pushes and pops, popped and ready lines together are the whole input split at LF, one CR stripped, empties dropped, and the fragment is its LF-free tail |
| `Framing.RefusedExactlyWhenTailTooLong` | src/transport/framing.rs:148-155 | a run is refused if and only if after some prefix of it the unterminated tail exceeds 8 MiB, with the length of the first tail that does; a long line that arrives whole passes |
| `Framing.LinesAreContents` | src/transport/framing.rs:119-155 | whatever contents a sender ends with LF or CR-LF: the lines are exactly the contents that are not empty, in order, with any CR of their own, and the rest is held |
| `Framing.EveryStreamIsSent` | src/transport/framing.rs:119-155 | and every octet stream is one that was sent so |
| `Framing.LinesOfValidStreamDecode` | src/transport/framing.rs:119-184 | if the pushed octets begin a valid UTF-8 stream, every popped line decodes, however the pushes cut characters |
| `Utf8.CharsOfEncoding` | src/transport/framing.rs:177-184 | encoding any scalars is valid UTF-8 and decodes back to them |
| `Utf8.EncodingOfChars` | src/transport/framing.rs:177-184 | valid octets are the encoding of the scalars they decode to, so validity is exactly being an encoding |
| `Utf8.TextExactly` | src/transport/framing.rs:177-184 | the octets accepted are exactly those that some scalars encode to |
| `Utf8.ValidUpToExactly` | src/protocol/escaping.rs:121-130 | how far octets are valid is exactly the length of the longest prefix that some scalars encode to |
| `Utf8.LongestValidPrefix` | src/protocol/escaping.rs:121-130 | `valid_up_to` marks a valid prefix, and no longer prefix is valid |
| `Utf8.ValidConcat` | src/transport/framing.rs:119-155 | validity of a concatenation, given a valid first part, is validity of the second |
| `Utf8.ValidAroundAscii` | src/transport/framing.rs:119-155 | octets around an ASCII one are valid if and only if both sides are |
| `Escaping.DecodeText` | src/protocol/escaping.rs:79-131 | the loop and its borrowing fast path both give the recursive decoder's text or error, and borrow exactly when there is no `%`; `DecodesExactly` says what that text is |
| `Escaping.InputOffsetOfDecodedByte` | src/protocol/escaping.rs:251-263 | the walk finds where the token of a decoded octet starts |
| `Escaping.OffsetDecodesPrefix` | src/protocol/escaping.rs:251-263 | decoding up to that place gives exactly the decoded octets before it |
| `Escaping.MalformedEscapePosition` | src/protocol/escaping.rs:93-119 | an escape error is reported at a position if and only if everything before decodes and the `%` there lacks two hex digits |
| `Escaping.MalformedEscapeReason` | src/protocol/escaping.rs:100-114 | truncated exactly when fewer than two octets follow, else not hexadecimal |
| `Escaping.Utf8FailurePosition` | src/protocol/escaping.rs:121-131 | the reported position cuts text whose decoding is the longest valid UTF-8 prefix of the decoded octets |
| `Escaping.EncodeFormValue` | src/protocol/escaping.rs:151-169 | the loop and its fast path give the same encoding; it borrows exactly when all octets are unreserved |
| `Escaping.HexExactly` | src/protocol/escaping.rs:218-225 | an octet has a hex value if and only if it is that number's digit in the alphabet of either case |
| `Escaping.UnescapeExactly` | src/protocol/escaping.rs:85-119 | a run decodes to some octets if and only if it is one of the ways to write them: each as itself, but for `%`, or as `%` and its two digits, each in either case |
| `Escaping.DecodesExactly` | src/protocol/escaping.rs:79-131 | an argument decodes to a text if and only if it is one of the ways to write it and some scalars encode to it; a malformed escape is reported before octets that are no text |
| `Escaping.UnreservedExactly` | src/protocol/escaping.rs:195-213 | the octets kept as they are are exactly the letters, the digits and `-._~` |
| `Escaping.EncodedExactly` | src/protocol/escaping.rs:151-239 | the encoder writes each of those as itself and every other octet as `%` and its two uppercase digits |
| `Escaping.FormRoundTrip` | src/protocol/escaping.rs:79-169 | decoding inverts encoding on every text |
| `Escaping.EncodeFormInjective` | src/protocol/escaping.rs:151-169 | no two octet runs have the same encoding |
| `Escaping.EncodedIsFormText` | src/protocol/escaping.rs:151-239 | encoded text holds only the unreserved octets of section 2.3 of RFC 3986 and escapes with two uppercase digits |
| `Escaping.FormTextIsSafe` | src/protocol/escaping.rs:151-213 | such text is ASCII without CR, LF, `&`, `+`, `=` |
| `Response.SplitFixed` | src/protocol/response.rs:892-921 | the filling loop gives the arguments of a split that stops at the fixed count, or the count error with the number found |
| `Grammar.AcceptedExactly` | src/protocol/response.rs:524-949 | a line parses if and only if it is a bare `REQOK`, or its tag is known, the pieces between its commas suffice, and every argument fits its kind; an unknown tag is reported with the whole line, a wrong count with the pieces found, anything else with the first argument read that does not fit, a number by its name |
| `Grammar.FitsExactly` | src/protocol/response.rs:940-1047 | a numeric argument fits if and only if it spells a number below 2^32 or 2^64, or a signed 64-bit one; an encoded argument if and only if it is one of the ways to write some text |
| `Grammar.SplitNAbsorbs` | src/protocol/response.rs:877-921 | a split that stops at a count is the full split with everything from the last argument on joined again |
| `Grammar.ArgumentsCounted` | src/protocol/response.rs:892-921 | the arguments are there exactly when the count of pieces is admitted, the last absorbing the rest; else the error names the count found |
| `Printer.JoinedArguments` | src/protocol/response.rs:877-921 | arguments of which only the last may hold commas come back from their joined form, commas and all |
| `Printer.TagRoundTrip` | src/protocol/response.rs:524-858 | each tag's wire name is recognised as that tag, is not empty and holds no comma or terminator |
| `Printer.TagsExactly` | src/protocol/response.rs:524-858 | by a table of TLCP's own texts for the notifications: a tag is recognised as that of a notification if and only if it is that text, and is unknown if and only if no notification has it |
| `Printer.TerminatorStripped` | src/protocol/response.rs:860-875 | one terminator goes from the end of a line, CR-LF, LF or CR, and no more |
| `Printer.ParseTerminated` | src/protocol/response.rs:524-858 | a printed notification parses as itself with any of these terminators still on it |
| `Printer.FrequencyRoundTrip` | src/protocol/response.rs:958-972 | a frequency limit whose unrecognised literal is not the text of another alternative is classified back from its text |
| `Printer.BandwidthRoundTrip` | src/protocol/response.rs:979-990 | the same for a bandwidth limit |
| `Printer.ParsePrinted` | src/protocol/response.rs:524-1047 | every printable notification of every tag, under TLCP's own tag texts and literals and any choice, character by character, of what to escape and, digit by digit, of the case of the escapes, parses back as itself |
| `Printer.ParsedIsUnambiguous` | src/protocol/response.rs:524-1047 | conversely whatever parses is one of those, so `ParsePrinted` leaves out nothing the parser can produce but raw value lists that framing breaks |
| `Printer.PrintedIsClean` | src/protocol/response.rs:524-858 | a printed line is valid UTF-8 without LF and does not end in CR |
| `Pipeline.LinesOfStream` | src/transport/framing.rs:119-155 | a printed stream, whose lines may differ in what is escaped and in their terminator, splits into exactly the printed lines with nothing left over |
| `Pipeline.InboundPipeline` | src/protocol/response.rs:524-858 | for every list of printable notifications, each sent in any lawful way, and every division into unrefused pushes and pops, the lines popped or ready so far decode and parse to exactly the first notifications, in order |
| `Pipeline.PipelineIsComplete` | src/transport/framing.rs:119-184 | once the whole stream is in, there are as many lines as notifications and no fragment |
| `Pipeline.RawSurvivesExactly` | src/protocol/response.rs:860-875 | an update reaches the client as itself if and only if its raw value list holds no LF and does not end in CR |
| `Pipeline.TrailingCrIsLost` | src/protocol/response.rs:867-875 | a value list ending in CR arrives changed |
| `Numbers.UnsignedRoundTrip` | src/protocol/response.rs:945-949 | a natural number's decimal text parses to it if the type holds it, and is refused if not |
| `Numbers.SignedRoundTrip` | src/protocol/response.rs:945-949 | the same for signed 64-bit numbers |
| `Numbers.UnsignedExactly` | src/protocol/response.rs:945-949 | a text parses to an unsigned number if and only if the number is in range and the text is its decimal form behind any zeros and perhaps a plus |
| `Numbers.SignedExactly` | src/protocol/response.rs:945-949 | and to a signed 64-bit number if and only if the same holds, with a minus for those that are not positive |
| `Numbers.DecimalExactly` | src/protocol/request.rs:465-482 | a decimal number is a run of digits, or two with a dot between them, and nothing else |
| `Diff.DecodeEncodedInteger` | src/protocol/diff.rs:292-347 | the loop reads what the recursive reader reads and leaves the position just behind it, or the same error |
| `Diff.ParseTlcpDiff` | src/protocol/diff.rs:244-283 | the section loop gives the recursive parser's instructions or error |
| `Diff.ApplyInstructions` | src/protocol/diff.rs:373-432 | the loop over a result and a base position gives what carrying the instructions out one by one gives, or its error |
| `Diff.ReadTakes` | src/protocol/diff.rs:292-347 | an integer takes at least one and at most all of the characters left |
| `DiffTheorems.NumerationIsBijective` | src/protocol/diff.rs:286-365 | a number and a capitals-then-lowercase spelling determine each other: value and spelling are inverse |
| `DiffTheorems.ReadSpelling` | src/protocol/diff.rs:292-347 | reading a spelling gives its true value and stops behind it, or is out of range exactly when that exceeds `usize::MAX`, even when only an intermediate step overflows |
| `DiffTheorems.ReadExactlySpellings` | src/protocol/diff.rs:292-347 | a number is read, with a given length, if and only if its spelling is at the front and it is representable |
| `DiffTheorems.ParseOfPrint` | src/protocol/diff.rs:244-283 | printing then parsing is the identity on cycled instruction lists, from every section |
| `DiffTheorems.PrintOfParse` | src/protocol/diff.rs:244-283 | parsing then printing is the identity on accepted payloads |
| `DiffTheorems.ParseIsBijective` | src/protocol/diff.rs:244-283 | a payload parses to a list if and only if the list is non-empty, cycled COPY/ADD/DEL with representable counts, and the payload is its print |
| `AppendixD.DecoderIsAppendixD` | src/protocol/diff.rs:180-208 | the client's decoder succeeds if and only if both texts are in the BMP, the standard defines a result on their UTF-16 forms and no DEL overflows the position; the result is then the standard's, and in the BMP again |
| `AppendixD.RemainingIsStandard` | src/protocol/diff.rs:373-432 | the same agreement from any base position and section on |
| `AppendixD.ReadIsNumber` | src/protocol/diff.rs:292-365 | on the BMP the client's integer is the standard's unbounded one, or an error exactly when there is none or it does not fit |
| `AppendixD.GuardIsNeeded` | src/protocol/diff.rs:219-229 | without the guard, copying any number of characters off any base is the standard's result on the UTF-16 forms if and only if all of them are in the BMP |
| `AppendixD.EveryChangeHasADiff` | src/protocol/diff.rs:180-208 | for every base and target of the BMP, the common-ends encoder's payload turns the one into the other |
| `DiffRefusals.DiffRefusedExactly` | src/protocol/diff.rs:180-240 | the order of refusals: a character beyond the BMP in either text, an empty payload, a malformed section, an instruction that does not fit |
| `DiffRefusals.ParseRefused` | src/protocol/diff.rs:244-283 | what is reported of a payload is its first malformed section: what is in front of it is the print of well-formed ones |
| `DiffRefusals.IntegerRefusedExactly` | src/protocol/diff.rs:292-347 | a number out of range, capitals that nothing follows, and capitals that no letter follows are told apart exactly, by the capitals in front |
| `DiffRefusals.PerformRefusedExactly` | src/protocol/diff.rs:373-432 | instructions are refused if and only if one copies beyond the base or deletes to 2^64 or beyond, and the first that does says which |
| `Request.ParameterLine.Verbatim` | src/protocol/request.rs:214-221 | for any name without a framing octet, the line so far, split at `&` and `=` and decoded, reads as the earlier fields and this one; no CR or LF |
| `Request.ParameterLine.Text` | src/protocol/request.rs:227-230 | the same for any text value |
| `Request.ParameterLine.Boolean` | src/protocol/request.rs:233-235 | the same for a boolean |
| `Request.ParameterLine.Number` | src/protocol/request.rs:238-240 | the same for a number in decimal |
| `Request.ParameterLine.Finish` | src/protocol/request.rs:244-246 | the line itself |
| `Request.FieldAppended` | src/protocol/request.rs:214-221 | on the line itself: a separator, a name, `=` and a value add exactly one field, and no terminator |
| `Request.LineReads` | src/protocol/request.rs:214-221 | appending a separator and a piece appends exactly one field to what the line reads as |
| `Request.BatchSplits` | src/protocol/request.rs:350-358 | a non-empty batch of unbroken lines splits on CR-LF back into the same lines |
| `Request.WsBatchSplits` | src/protocol/request.rs:368-374 | a WS batch splits back into its request name and its lines |
| `Request.WsMessageSplits` | src/protocol/request.rs:323-326 | a WS message splits back into its name and its parameter line |
| `Request.EmptyBatchWouldCollide` | src/protocol/request.rs:350-358 | an empty batch is what is refused, and joined it would be the batch of one empty line |
| `Request.RequestIdExactly` | src/protocol/request.rs:401-413 | a request id is one or more letters and digits; an empty one and one with anything else are told apart |
| `Request.SequenceNameExactly` | src/protocol/request.rs:530-551 | a sequence name is one or more letters, digits and underscores, but not the reserved one, and each refusal has its exact condition |
| `Encoders.NameRoundTrip` | src/protocol/request.rs:1431-1488 | under the name the client gives each parameter of `add` and `msg`, a server with its own table of TLCP's names finds that parameter |
| `Encoders.SubscribeRefusedExactly` | src/protocol/request.rs:1350-1424 | a subscription is refused with exactly the first of five rules it breaks, each stated on its own |
| `Encoders.MessageRefusedExactly` | src/protocol/request.rs:1829-1857 | a message is refused exactly when it needs a progressive and has none, or else has a maximum wait and no sequence |
| `Encoders.EncodeControlHeader` | src/protocol/request.rs:1244-1271 | an error exactly when HTTP outside a batch has no session; else exactly the header's parameters were added, in their order |
| `Encoders.EncodeAck` | src/protocol/request.rs:1278-1285 | the acknowledgement parameter is added exactly on WS and when given |
| `Encoders.EncodeSubscribe` | src/protocol/request.rs:1431-1488 | refused exactly when it breaks one of these rules, with the first, or else when HTTP outside a batch has no session; otherwise a server that knows TLCP's own names and literals recovers the whole request, without `LS_ack` off WS, from one unbroken line |
| `Encoders.EncodeMessage` | src/protocol/request.rs:1864-1912 | the same for `msg` |
| `Encoders.SubscribeReads` | src/protocol/request.rs:1431-1488 | any line with those parameters, in whatever order, reads back as the request |
| `Encoders.MessageReads` | src/protocol/request.rs:1864-1912 | the same for `msg` |
| `Router.Router.constructor` | src/client/router.rs:163-182 | no registration, an open session stream, readiness still to fire, no effect yet |
| `Router.Router.Run` | src/client/router.rs:192-229 | over any turns the loop ends at the first that ends it, with the state and the effects that folding the turns gives, and fires readiness for whoever still waits |
| `Router.Router.HandleCommand` | src/client/router.rs:231-258 | the registrations, and an unsubscription for every dropped stream whether or not it was registered |
| `Router.Router.HandleEvent` | src/client/router.rs:261-338 | the registrations, readiness, and the one send with its outcome that the decision table prescribes; done exactly on the session's close |
| `Router.Router.HandleControlResponse` | src/client/router.rs:352-437 | the same for a control response |
| `Router.Router.Notify` | src/client/router.rs:440-446 | one send to a registered stream, nothing otherwise, and no registration changes |
| `Router.Router.Route` | src/client/router.rs:449-490 | one send to a registered stream; the registration goes exactly with a terminal event, whatever the send's outcome |
| `Router.Router.Emit` | src/client/router.rs:497-505 | one send while the session's stream is open, closed for good when its receiver is gone |
| `Router.Router.SignalReady` | src/client/router.rs:508-512 | fires with the bind only if nothing fired before |
| `Router.Router.FailReady` | src/client/router.rs:515-519 | fires with the error only if nothing fired before |
| `History.SendsWhatIsOwed` | src/client/router.rs:261-490 | the decision table sends a key's news, by a table of its own from each report to its event, to its stream exactly when registered, and the session's news, including orphaned refusals, exactly while that stream is open |
| `History.SendsExactlyOwed` | src/client/router.rs:261-490 | after any turns, what the router sent to a subscription's stream is exactly what that stream is owed, in order |
| `History.SendsSessionItsNews` | src/client/router.rs:497-505 | what it sent to the session's stream is all of the session's news while that stream is open, and a prefix of it once it was found closed |
| `History.RegisteredExactlyLive` | src/client/router.rs:231-490 | after any turns the table holds exactly the keys registered and not ended by a terminal event, an undone registration or a dropped stream |
| `History.OwedEndsOnce` | src/client/updates.rs:265-300 | a key registered once is owed at most one terminal event, as the last, and nothing before it is registered |
| `History.SignalsFirstNews` | src/client/router.rs:508-519 | until the router ends, readiness has fired exactly with the first bind or close |
| `History.UnsubscribesDrops` | src/client/router.rs:252-256 | the unsubscriptions asked for are the dropped streams, in order, whatever removed their registrations |
| `History.RegisteredThenEnded` | src/client/router.rs:449-464 | a registered key that is not live was ended by some turn while it was live |
| `History.EndsExactly` | src/client/router.rs:199-221 | by constructor: a stop, the end of the events and the session's close end the router, and no other turn |
| `History.OnlyTheLastEnds` | src/client/router.rs:192-229 | turns without one of these leave the router as it goes on, whatever follows; behind one nothing counts but the end |
| `Runs.AlwaysSane` | src/client/router.rs:192-612 | every run keeps the wiring, the command log, the refinement of the turns, the delivery and the forwarding invariants, and hands out no client before readiness |
| `Runs.RouterFollowsItsTurns` | src/client/router.rs:192-229 | in every reachable state between events, the router is where its turns lead by the loop's own function, and it has ended if and only if the last turn is a stop, the end of the events or the session's close; no turn before is one |
| `Runs.DiscardsExactly` | src/client/router.rs:449-464 | in every reachable state, an event about to be taken is discarded if and only if its key was ended while live, or its registration still waits in the command queue |
| `Runs.NothingOutrunsItsRegistration` | src/client/mod.rs:466-493 | when one poll runs in one piece: if and only if its key was ended while live |
| `Runs.SelectCanOutrunRegistration` | src/client/router.rs:194-203 | otherwise a run exists, with a bind and a client handed out before it, that discards an update of a key that was never ended and whose stream is held |
| `Runs.StreamsGetWhatTheyAreOwed` | src/client/router.rs:449-557 | in every reachable state each stream was given a prefix of its key's news from registration on, all of it unless its receiver is gone or a stop was ordered, with at most one terminal event, the last |
| `Runs.SessionGetsWhatItIsOwed` | src/client/router.rs:497-557 | the same for the session's stream |
| `Runs.ReadinessFiresOnce` | src/client/router.rs:218-228 | in every reachable state readiness has fired with the first bind or close heard, or once the router ended without either as disconnected, or not yet |
| `Runs.DroppedStreamsAreUnsubscribedInOrder` | src/client/router.rs:579-612 | unsubscriptions issued, in hand, queued and still unread as commands are together exactly the drops, in order |
| `Runs.NoneIsUnsubscribedTwice` | src/client/updates.rs:436-455 | no key is dropped, or unsubscribed, twice |
| `Conservation.EventsArriveInOrder` | src/session/mod.rs:3781-3797 | in every reachable state the events handled, the one in hand and those queued are together what the driver put into its channel, in order |
| `Conservation.RequestsArriveInOrder` | src/client/mod.rs:481-489 | the requests the driver took and those queued are together what was asked of it, in order, with an `add` for exactly the requested keys |
| `Conservation.QueuesAreBounded` | src/client/mod.rs:301-304 | no bounded queue ever holds more than its capacity |
| `Fanout.StepServes` | src/client/router.rs:538-557 | every step keeps what each stream was given equal to what it is owed, but for gone receivers and a stop |
| `Invariants.StepKeepsLogged` | src/client/mod.rs:466-493 | every step keeps the commands handled and waiting equal to those sent, one registration and at most one drop for each stream |
| `Invariants.StepKeepsRefines` | src/client/router.rs:192-229 | every step keeps the router's state, mid-send included, the one its turns lead to |
| `Invariants.StepKeepsForwarded` | src/client/router.rs:579-612 | every step keeps the unsubscriptions that were asked for, in order, between the router, the queue, the task and the driver |
| `Progress.SomeTaskCanGoOn` | src/client/router.rs:8-24 | in every state with work pending and no send held up by the caller, a task can take a productive step: the tasks never wait in a circle |
| `Progress.SubscribeIsNeverStuck` | src/client/mod.rs:481-489 | a `subscribe` call cannot wait while no task has work |
| `Progress.StepReducesWork` | src/client/router.rs:192-223 | every productive step strictly reduces the work left |
| `Progress.TasksAreBounded` | src/client/router.rs:192-223 | so any schedule of the tasks takes at most that many steps: none spins |
| `Progress.TasksSettle` | src/client/router.rs:192-223 | however the tasks are scheduled, they take no more steps than there is work, and when none can go on, nothing is pending or the caller holds up a send |
| `Progress.ScheduleSettles` | src/client/router.rs:192-223 | from every state there is a schedule that gets there |
| `Progress.StopEndsTheTasks` | src/client/router.rs:52-58 | once a stop is ordered, full streams or not: however the tasks are scheduled they run out of steps, and when none can go on the router and the unsubscription task have ended |
| `Startup.Stage` | src/client/mod.rs:132-141 | an event is kept exactly while there is room |
| `Startup.Await` | src/client/mod.rs:337-355 | the loop keeps the first events drained, up to the capacity, and ends with the first answer |
| `Startup.SessionEvents.WithStaged` | src/client/events.rs:912-917 | the stream starts with what was staged |
| `Startup.SessionEvents.PollNext` | src/client/events.rs:923-931 | polling delivers the next of staged then channel events, and changes nothing about the whole |
| `Startup.Connect` | src/client/mod.rs:337-387 | a stream exactly when the answer is a bind, holding the first events drained up to the capacity and what the channel holds; else the error the answer brought |
| `Startup.Consume` | src/client/events.rs:920-931 | for every interleaving of later polls and arrivals the stream delivers and holds what it held, then all later events, in order |
| `Startup.StartupLosesOnlyTheExcess` | src/client/events.rs:875-891 | in every reachable state, for any number of received events drained at startup, what the caller sees is the session's news without those drained beyond the capacity; `Connecting` ties the number to the loop |
| `Connecting.ConnectReturnsWhatFired` | src/client/mod.rs:337-361 | however the tasks run beside the startup loop and between its two polls, the loop's answer is the readiness that fired first, even when it finds the channel closed; never a lost bind or close |
| `Connecting.ConnectHoldsWhatIsSeen` | src/client/mod.rs:337-389 | in every run of the loop, what it staged and what the channel holds are together what the session's stream was given without the events drained beyond the capacity |
| `Connecting.ConnectLosesOnlyTheExcess` | src/client/events.rs:875-891 | so with the events the loop in fact drained: all of the session's news so far when they are within the capacity, else all but the drained ones beyond it |
| `Connecting.LoopStaysSane` | src/client/mod.rs:337-355 | every move of the loop or the tasks keeps the run one of the protocol, the drained events those received, and a fired bind or close in the channel or at the door of it until the loop polls |
| `Startup.ConnectIsAnswered` | src/client/mod.rs:337-342 | at any capacity, once a bind, close or stop is on its way: however the tasks and the startup loop are scheduled they come to rest within the work there is, and at rest readiness has fired |
| `Config.BuildAcceptsExactlySound` | src/config/mod.rs:450-518 | accepted, unchanged, are exactly the configurations that satisfy what the timers need; any other is refused with the first of eleven faults, by field |
| `Config.HeartbeatWithinHalf` | src/session/options.rs:237-246 | the interval is at most half of the commitment, as configured and as sent |
| `Config.HeartbeatIsHalf` | src/session/options.rs:237-246 | and no longer interval is: it is half of the whole milliseconds in the commitment, and there is none without a commitment |
| `Config.HeartbeatPositiveExactly` | src/session/options.rs:237-246 | the interval is positive if and only if the commitment is at least one millisecond |
| `Config.SubMillisecondCommitmentIsAccepted` | src/config/mod.rs:460-464 | an accepted configuration with interval zero |
| `Backoff.XorShiftNonZero` | src/session/backoff.rs:126-133 | the generator's state never becomes zero |
| `Backoff.Jitter.FromSeed` | src/session/backoff.rs:111-117 | the seed, or the fixed constant for a zero seed, so never zero |
| `Backoff.Jitter.Below` | src/session/backoff.rs:136-142 | a draw within the bound, and a state that stays non-zero |
| `Backoff.Draw` | src/session/backoff.rs:136-142 | never above the bound |
| `Backoff.EveryDelayIsDrawn` | src/session/backoff.rs:126-142 | every 64-bit number but zero comes next from some state, so every delay within a bound below the range of draws is drawn, zero included |
| `Backoff.Backoff.NextDelay` | src/session/backoff.rs:196-213 | the saturating doubling keeps the base at the closed form min(initial * 2^k, max), and the answer is the schedule's |
| `Backoff.Backoff.Reset` | src/session/backoff.rs:216-219 | the schedule starts again, the jitter does not |
| `Backoff.DoublingStep` | src/session/backoff.rs:207-212 | doubling with saturation and a ceiling is the closed form |
| `Backoff.OutageSchedule` | src/session/backoff.rs:196-213 | of any number of failures since a reset exactly the first `max_attempts`, or 2^32 - 1 when unlimited, get a delay, each within its base, all later ones none; the total wait is within the sum of the bases |
| `Backoff.TotalBaseBounded` | src/session/backoff.rs:196-213 | and that sum within the attempts times the ceiling |
| `Liveness.ClocksRemember` | src/session/liveness.rs:127-169 | after any trace the clocks hold the budget of the last open, bind or close and the times last heard and sent |
| `Liveness.DueExactly` | src/session/liveness.rs:174-206 | a stall is reported if and only if the stream is armed and silent for its budget, the open timeout or keep-alive plus slack, a heartbeat if and only if there is no stall and nothing was sent for the interval, and something is due if and only if the next deadline is reached |
| `Liveness.StallAfterBind` | src/session/liveness.rs:138-141 | bound at an instant and nothing heard since: a stall is reported if and only if keep-alive plus slack have passed, or the keep-alive alone when no `Duration` holds the sum, or when that instant is beyond the clock's range |
| `Liveness.StallAfterOpening` | src/session/liveness.rs:127-132 | opened at an instant, not yet bound, and nothing heard since: if and only if the open timeout has passed |
| `Liveness.TwoWakesSettle` | src/session/liveness.rs:174-206 | two wake-ups at one instant leave nothing due and a strictly later deadline if and only if no heartbeat was due, or the interval is positive and within the clock's range |
| `Liveness.HeartbeatSpins` | src/session/liveness.rs:45-49 | else, as with interval zero, a heartbeat is due again at that instant after any number of wake-ups |
| `Liveness.RestedIsPaced` | src/session/mod.rs:2290-2359 | a driver at rest that wakes at each deadline, asks what is due and does it: no instant of the rest after its start finds it silent too long, whatever held it before, and it reaches the rest's end |
| `Liveness.RestEndsInTime` | src/session/mod.rs:2290-2359 | in every run, with holds of any number and length before, a driver that rested at all, or was let wake, is not late when the rest ends |
| `Liveness.LateExactlyWhenSpanned` | src/session/mod.rs:3781-3810 | whatever the environment does, whenever and however long it holds the driver: on an open stream some instant finds the last request longer ago than the interval if and only if some hold began by the deadline and ended after it |
| `Liveness.ConsecutiveRequests` | src/session/liveness.rs:162-169 | on an open stream two requests in a row are no more than the interval and the time held between them apart |
| `Liveness.GapWithinHalfCommitment` | src/session/options.rs:237-246 | with the positive interval of an accepted configuration, twice that gap is within the commitment and twice the time held |
| `Liveness.HoldBreaksCommitment` | src/client/updates.rs:335-356 | on every accepted configuration with a positive interval, a stream opened and any hold longer than the commitment is a run with no request for that long |
| `Progress.StallLasts` | src/session/mod.rs:3781-3810 | while the driver waits for the router and the router for a full stream without a stop, no steps but the caller's move the driver |
| `Stall.CallerCanStallTheDriver` | src/client/updates.rs:335-356 | under every deployment there is a reachable state, with readiness fired, the session's stream held and no stop ordered, in which the driver is blocked at a send and stays so through every run without the caller |

## Left out

- The session state machine, the subscription manager and the value-list decoder: the driver is an environment that
  reports on keys whose request was queued, consumes requests when it is not blocked on a send, and may end.
- Entropy, tokio and threads: one poll of `select!` is either one piece or a step for each branch with anything in
  between; wake-ups and scheduling fairness are not modelled, only which steps are possible and how many there can be.
- `Router.Router.Run`: what each `select!` yields and the outcome of each awaited send come in as parameters; which
  of them are possible is said by `Protocol`, where the same functions take the steps.
- A stream's sender is named by its key, which is fresh, and a stop covers the loss of every handle that could order
  one.
- `Startup.ConnectIsAnswered`: it does not say that the server binds.
- Error texts: an error is its kind and its positions, counts and values.
- `Encoders.EncodeSubscribe`: the other requests' encoders, which have fewer rules and use the same parameter line, are
  not modelled.
- `Request.ParameterLine.Verbatim`: it demands of its caller a value that needs no escaping, which the source states in
  its comment and does not check.
- `Liveness.ConsecutiveRequests`: the driver wakes exactly at its deadlines, without the timer's own granularity; a
  heartbeat counts as sent when the driver sends it, also when that fails (`src/session/mod.rs:3740-3742`), its own
  sending takes no time, and giving a connection up after failed ones is the environment's event. Interval zero is left
  to `HeartbeatSpins`.
- `Stall.CallerCanStallTheDriver`: in the steps of `Protocol` the driver's own waiting is for room in its event queue;
  waiting for a connection is a hold in `Liveness` only.
- `Config.BuildAcceptsExactlySound`: server address, adapter set, credentials and transport are not part of the
  configuration modelled.
- Any server code: `AppendixD.EncodeDiff`, `Printer.Print` and the readers in `Request` and `Encoders` are reference
  definitions.
- JSON Patch, the transports' adapters and TLS, `Debug` redaction, `Client::disconnect` and its timeouts, and the
  accessors.
