# A verified model of bare-dgram

bare-dgram gives JavaScript UDP sockets: an event-driven socket object (`index.js`), an address recogniser
(`lib/ip.js`) and a native layer over libuv (`binding.c`). This project models the three of them in Dafny and proves
what they are for. `dafny verify dfyconfig.toml` checks everything.

## What is modelled

**Addresses.** `Regex` gives regular expressions a declarative meaning, `Ip` writes out the patterns of `lib/ip.js`
alternative by alternative, and `Rfc3986` transcribes the `IPv6address` rule of section 3.2.2 of RFC 3986 production by
production. Between them stands `IpForm`, a parser that knows nothing of either: it cuts a text at `%`, `::` and `:`.
`IpRegex` and `Rfc3986` prove both notations equal to it, for all strings; `IpValue` gives addresses their 128-bit and
32-bit values and proves that every value can be written and read back; `IpAddress` bounds lengths and characters.

**The socket.** `Protocol` is the socket as a state machine on values: flags, the queue of deferred closures, the map
of sends in flight, unanswered lookups, microtasks, flush loops in progress, `close` listeners, the native handle, and
a record of what was called, settled and emitted. One `Step` is one atomic step: an API call, one turn of a flush,
a lookup's answer, a microtask, a native completion, a datagram or the environment's teardown. Every native call may
fail. A callback that calls the socket back is a step that happens while flush loops are still in progress, so
re-entrancy is part of every run. Such calls may come between any two steps, also where the source runs no user code,
so the statements cover more interleavings than can occur. `Native` is the handle of `binding.c`.

`Socket.DgramSocket` and `Native.NativeHandle` are the same things as mutable objects that follow the source statement
by statement (the flags are bits of one byte, as in `lib/constants.js`). Each handler of the socket is a method that is
proved to take exactly the step that `Protocol` gives it; `Call` and `React` put them together, and `Perform` carries
the invariant over, so that the properties below hold for every history of calls on the object.

The invariants are layered: `Control` (flags, gating, queued work), `Ledger` (ids and requests in flight), `Boundary`
(what reaches the native layer), `Conservation` (every obligation is held exactly once, counted by `Obligations`).
`Invariant` puts them together and carries them over runs. On top of it stand `Runs` (sends move forward), `Drain`
(termination and rest), `Closing`, `Gating`, `Reentrancy`, `Containment` (failed binds), `Refusal` (flushes with an
error, whatever their callbacks do), `Order`, `Provenance` and `Handed` (nothing is sent twice). `Witnesses` holds runs
and inputs for what is false.

`Effects` says what each step does by its effects alone: which native call it makes with which text, port and family,
what it settles, queues and emits. It uses none of the functions of `Protocol`; hosts are judged by the patterns of
`isIP` and by their UTF-8 encoding, requests by the call that made them. `Accounts` and `Reported` draw the balance over
runs: every error is emitted as often as it was brought about with nobody else to tell, CONNECTED and `connect` follow
the native connects that succeed, and only a native completion reports a send as sent.

**The data path.** `SendArgs` is the argument handling of `send`, proved against the overload table of `index.d.ts`;
`SendMemory` the allocations of one native send; `Receive` the shared read buffer and the copies taken from it;
`AddressBuffer` the C buffer for addresses.

## Assumptions

- A lookup answers at most once; where something is said about a socket at rest, every lookup has answered.
- libuv completes every queued send before it runs the close callback, and runs that callback once per `uv_close`.
- Callbacks do not throw. Events run to completion: a microtask or a native callback starts only when no flush is in
  progress. A lookup may answer at any time, also before the call that started it has returned.
- Starting and stopping to receive, the buffer sizes set in `_onbind` and the address read there do not fail.
- No JavaScript runs once the teardown of the environment has begun; `Native.CloseKeepsProtocol` says exactly what
  breaks otherwise.
- `js_get_value_string_utf8` writes a text that fits in whole, and of an ASCII text that does not as much as fits. Of
  other texts it may leave up to three bytes unwritten rather than split a character; no such text is an address.
- No send stays in flight while 2^32 further ids are drawn; `Ledger.FreshIff` is the exact condition for a collision.

## Where the code and its documentation part

- "Pending sends are settled before the socket closes" (README.md:220) holds for queued sends and sends in flight,
  but a send that waits for a lookup is settled by the answer, which may come after `close`
  (`Closing.AfterClose`, `Closing.LateAnswerSettles`; `Witnesses.SettledAfterClose` is such a run).
- "An address reported by the socket can always be passed back to it" (README.md:102) holds exactly when the name of
  the interface is made of the characters a zone may have (`AddressBuffer.ReportedAddressIff`); br_lan is not
  (`Witnesses.UnusableZone`).
- A queued `resume()` that is called after a callback has closed the socket turns READING on again and starts to
  receive on a closing handle (`Gating.ReadingIff` says exactly when, `Reentrancy.LateResume` gives a run).
- An unconnected `send(msg, offset, length)` without a port is refused, except that an offset that could be a port,
  with a length of 0, is taken for one: the whole message goes to the loopback address (`SendArgs.Misread`, with
  `Witnesses.MisreadCall`).
- The overloads with `offset` and `length` in index.d.ts admit an array of buffers; the code rejects it, as README.md:144
  says (`Witnesses.SlicedArray`).

No document promises an order of sends. Those to literals keep the order of the calls as long as callbacks do not call
the socket during a flush; `Order.OvertakesIff` says exactly when a send made from a callback overtakes others, and
`Witnesses.Overtaking` is a run in which one does.

## Model

| member | source | states |
|---|---|---|
| IpRegex.OctetIff | lib/ip.js:22 | v4Seg matches exactly the decimal numbers up to 255 without a leading zero |
| IpRegex.IPv4Iff | lib/ip.js:23-24 | the IPv4 pattern matches exactly four such numbers between dots, for all strings |
| IpRegex.AlternativeIff | lib/ip.js:28-36 | each of the eight alternatives matches exactly the texts of the valid forms of its own shape |
| IpRegex.AlternativesDisjoint | lib/ip.js:28-36 | no string is matched by two alternatives |
| IpRegex.CoreIff | lib/ip.js:28-36 | the alternation matches exactly the texts of eight 16-bit groups with at most one `::` |
| IpForm.CutOfText | lib/ip.js:26-38 | a valid form is recovered from its text, so that every text has at most one decomposition |
| IpForm.DecomposeIff | lib/ip.js:26-38 | the independent parser returns a form exactly when it is valid and has this text |
| IpAddress.ZoneIff | lib/ip.js:37 | the zone part is absent, or `%` and at least one character of the class |
| AddressBuffer.ZoneNameIff | lib/ip.js:37 | behind any valid address, `%` and a name make a literal exactly when the name is not empty and each character is one of the 65, spelt out |
| IpForm.HexIff | lib/ip.js:26 | the class of v6Seg is the alphabet of hexadecimal digits in both cases |
| Rfc3986.H16Iff | lib/ip.js:26 | h16, over the HEXDIG of the RFC, derives exactly the groups of the pattern |
| IpAddress.IPv6Iff | lib/ip.js:27-38 | the whole pattern accepts exactly a decomposable address with an optional zone behind the first `%` |
| IpAddress.WholeIPv6 | lib/ip.js:26-52 | every valid form with every well-formed zone is accepted with family 6 and splits back into the two |
| IpAddress.FamiliesDisjoint | lib/ip.js:40-52 | no string is an IPv4 and an IPv6 address, so the order of the tests does not matter |
| IpAddress.FamilyIsIP | lib/ip.js:48-52 | `isIP`, defined by patterns, equals the pattern-free recogniser that the socket model computes with |
| IpAddress.LiteralBounds | lib/ip.js:22-38 | every accepted string is ASCII, and at most 45 characters long without a zone |
| IpAddress.LongestAddress | lib/ip.js:26-38 | the bound of 45 is attained |
| Rfc3986.IPv4addressIff | lib/ip.js:22-24 | IPv4address of RFC 3986 derives exactly the dotted quads that the pattern matches |
| Rfc3986.RuleIff | lib/ip.js:28-36 | each of the nine rules of IPv6address derives exactly the addresses with its number of groups right of `::` |
| Rfc3986.RulesIff | lib/ip.js:28-36 | the nine rules together derive exactly the texts of eight groups with at most one `::` |
| Rfc3986.CoreIsIPv6address | lib/ip.js:28-36 | the alternation by groups on the left and the grammar by groups on the right accept the same strings |
| Rfc3986.RfcIff | lib/ip.js:27-46 | `isIPv6` accepts exactly an IPv6address of section 3.2.2 of RFC 3986 with an optional zone |
| IpValue.ParseIPv6Iff | lib/ip.js:44-46 | every accepted text names exactly one 128-bit value, every other text none |
| IpValue.DigitMeans | lib/ip.js:26 | a digit means its position in the alphabet, in either case |
| IpValue.IPv6RoundTrip | lib/ip.js:26-38 | every value, with any zero run elided or none, in either notation and with any zone, is accepted and reads back |
| IpValue.IPv4RoundTrip | lib/ip.js:22-24 | every four bytes written with dots are accepted and read back |
| Native.NativeHandle.SendRequest | binding.c:681-705 | the request block is queued with libuv or freed at once, and nothing else changes |
| Native.NativeHandle.RequestDone | binding.c:234-245 | the block is freed whatever happens next; JavaScript is told its id unless the environment is exiting |
| Native.NativeHandle.CloseHandle | binding.c:726-730 | uv_close is called by the first close only, and receiving stops |
| Native.NativeHandle.Teardown | binding.c:332-340 | uv_close is called unless a close has called it |
| Native.NativeHandle.HandleClosed | binding.c:289-329 | references are deleted and the teardown finished once; JavaScript is told unless the environment is exiting |
| Native.NativeHandle.Receive | binding.c:576-624 | receiving is started or stopped and nothing else changes |
| Native.SendOwnership | binding.c:681-705 | every block ever allocated is queued or freed, exactly one of the two and once, after a send that fails or not |
| Native.OnSendOwnership | binding.c:234-245 | the same after a completion, in whatever order requests complete |
| Native.CloseKeepsProtocol | binding.c:726-730 | a close keeps uv_close at one call if and only if it is not a first close after the teardown has begun |
| Native.CloseAfterTeardownClosesTwice | binding.c:332-340 | the input on which uv_close is called twice |
| SendMemory.Buffers | binding.c:109-149 | the buffers are those of the list in order; whichever allocation fails, only a successful result stays allocated |
| SendMemory.SendCall | binding.c:678-705 | only the request block libuv keeps stays allocated, nothing is freed twice, and it throws exactly on the listed faults |
| StateBits.FlagsAreTheState | lib/constants.js:4-13 | the eight flags and the state byte determine each other |
| StateBits.Sets | lib/constants.js:4-13 | setting a bit sets its flag and no other |
| StateBits.ClearsActivity | index.js:494-500 | the mask of `close()` clears the five activity flags and no other |
| Socket.DgramSocket.SendMessage | index.js:269-353 | arguments in order are read as the overload table says, the buffers passed on make exactly the bytes asked for, and then only a closing or closed socket throws |
| Socket.DgramSocket.RunFlush | index.js:594-599 | when its callbacks make no call of their own, the loop calls every closure taken, once and in order, and then does what follows it |
| Socket.DgramSocket.Call | index.js:117-525 | every API call is the step of that name |
| Socket.DgramSocket.React | index.js:572-712 | and so is every reaction to the engine and the native layer |
| Socket.DgramSocket.Perform | index.js:117-712 | every step of every history moves the object as the protocol does and keeps the invariant |
| Socket.Size | index.js:335-336 | the loop sums the lengths of the buffers |
| Protocol.SendCases | index.js:301-352 | a send changes nothing, or the socket is live and the send is counted and handed over; what the request holds is Effects.SendMeans |
| Control.ApiKeeps | index.js:117-525 | no API call, from a callback or not, breaks the flag rules, the gating rule or strands queued work |
| Control.EnvironmentKeeps | index.js:572-712 | nor does any step of the environment |
| Ledger.FreshIff | index.js:609-613 | the id about to be drawn is live exactly when some live request is a multiple of 2^32 draws old |
| Ledger.WindowMeansFresh | index.js:609-613 | so no entry of `_sends` is overwritten while none is outstanding for 2^32 draws |
| Ledger.ClearDiscardsNothing | index.js:707 | `_sends.clear()` finds the map empty |
| Ledger.ApiLedger | index.js:609-622 | `_sends` and the native queue hold the same ids after every API call |
| Ledger.EnvironmentLedger | index.js:686-712 | and after every step of the environment |
| Boundary.DefaultsAreLiterals | index.js:564-570 | the addresses filled in by the socket are literals that fit, so an implicit bind never waits |
| Boundary.DefaultsMean | index.js:564-570 | they read as the all-zero address and as 127.0.0.1 or one, by the socket's family |
| Boundary.ApiBoundary | index.js:773-819 | after every API call, whatever the host, only literals of the family given with them have gone to libuv |
| Boundary.EnvironmentBoundary | index.js:572-584 | and after every step of the environment, whatever a lookup answered |
| Conservation.ApiOwed | index.js:117-505 | after an API call every obligation is held exactly as often as it is owed |
| Conservation.EnvironmentOwed | index.js:572-712 | and after every step of the environment |
| Invariant.StepInv | index.js:117-712 | every step keeps the whole invariant |
| Invariant.RunInv | index.js:117-712 | every state of every run satisfies it |
| Runs.OnePlace | index.js:338-352 | an accepted send is in exactly one place, once: queued, looked up, in flight or settled |
| Runs.StepForward | index.js:338-352 | a send never moves back |
| Runs.RunForward | index.js:572-622 | nor over any stretch of any run |
| Runs.CompletionSettles | index.js:686-693 | a completion settles its own send, with the length of the datagram on success and 0 on failure |
| Handed.StepHanded | index.js:609-622 | every native send is matched by a request in flight or a settled send, whatever the step |
| Handed.RunHanded | index.js:609-622 | in every run, whatever callbacks do, no accepted send is handed to the native layer twice |
| Runs.BindingMeans | index.js:161-188 | live: BINDING holds exactly while one bind lookup is unanswered or one bind error unreported |
| Runs.ConnectingMeans | index.js:221-252 | live: CONNECTING holds exactly while one connect is queued or one connect lookup unanswered |
| Runs.RunBoundary | binding.c:38-54 | in every run, native addresses are literals of their family within MAX_LENGTH and callbacks report the size or 0 |
| Effects.AnswerMeans | index.js:577-583 | for every answer: a literal of at most 64 bytes makes the waiting bind, connect or send call the native layer with that text, its `isIP` and its own port; anything else makes no native call and ends it with the lookup's error or an invalid host |
| Effects.BindMeans | index.js:117-188 | when and why bind throws; otherwise the native bind of its literal or the lookup of its name in the family of the socket |
| Effects.OpenMeans | index.js:143-173 | when and why `bind({ fd })` throws; otherwise bound with the adopted family, or a failure to report |
| Effects.ConnectMeans | index.js:191-255 | when and why connect throws; otherwise its work runs, waits or starts a bind to the wildcard address |
| Effects.SendMeans | index.js:301-352 | when and why send throws; otherwise a request with exactly its buffers, their length, its port, address and callback |
| Effects.ResumeMeans | index.js:471-481 | a live socket starts to receive, waits for its bind or starts one |
| Effects.DisconnectMeans | index.js:257-267 | CONNECTED is cleared exactly if it was set and the native call succeeds; otherwise it throws |
| Effects.FlushMeans | index.js:338-351 | a turn of a flush without an error hands its send over, resolves its host or starts to receive |
| Effects.ConnectOutcome | index.js:229-251 | a connect to a literal on a bound socket: CONNECTED and one `connect` to emit if the native call succeeds, else its error |
| Effects.ConnectAnswered | index.js:229-251 | the same for the answer to its lookup, with the lookup's error if it fails |
| Effects.TaskMeans | index.js:242-250 | each microtask emits exactly what it was queued for; `listening` and `connect` only on a live socket |
| Effects.CompletionMeans | index.js:686-699 | a failed send without a callback emits its error exactly if the socket is live |
| Effects.MessageMeans | binding.c:151-163 | a datagram is a message, a truncated one EMSGSIZE, a failing read its error, and a closing handle reports nothing |
| Effects.UsableIff | index.js:773-790 | what the model takes as a fitting literal is `isIP` and the UTF-8 length |
| Effects.SizeIsLength | index.js:335-336 | the summed size is the length of the datagram |
| Reported.SendFailsOpenly | index.js:609-628 | a send that fails by its native call is settled with that error, which is emitted exactly if it has no callback |
| Reported.SendAnswered | index.js:343-350 | the answer to a send's lookup: an error goes to the callback or is emitted, never both and never neither |
| Reported.StepBooks | index.js:117-712 | every step keeps the accounts of errors, connects, sends, UNREFED and the family |
| Reported.RunErrors | index.js:609-664 | in every run, an error has been emitted, is on its way or was dropped by a closed socket as often as it was brought about |
| Reported.ErrorsReported | index.js:609-664 | at rest before the close, it was emitted exactly that often |
| Reported.RunConnected | index.js:229-267 | in every run, a live socket is CONNECTED iff its last successful native connect was not followed by a successful disconnect |
| Reported.ConnectReported | index.js:244-250 | at rest, `connect` was emitted once for each native connect that succeeded |
| Reported.SuccessIsCompletion | index.js:686-693 | in every run, a send reported as sent was completed by the native layer without an error |
| Reported.RunKind | index.js:507-525 | in every run, UNREFED follows the last ref or unref, and a family given at creation stays |
| Drain.DrainDecreases | index.js:572-712 | every step of the environment decreases a measure, whatever lookups and native calls answer |
| Drain.DrainTerminates | index.js:572-712 | a stretch without API calls and datagrams is no longer than the measure at its start |
| Drain.AtRest | index.js:586-712 | at rest nothing is queued, in flight, binding or connecting, every send is settled once, every request block is freed once, and no close is pending |
| Drain.AtRestAfterTeardown | binding.c:288-340 | at rest after a teardown, uv_close was called and completed once, references and teardown were released once, and every request block was freed once |
| Drain.ListeningEmitted | index.js:643-649 | at rest, `listening` was emitted exactly once by a bound live socket and never by an unbound one |
| Closing.StepEnds | index.js:483-505 | CLOSED is absorbing and a closing socket never becomes live again |
| Closing.RunEnds | index.js:483-505 | the same between any two states of any run |
| Closing.NoMessageAfterClose | binding.c:151-159 | no step delivers a datagram once `close()` was called |
| Closing.RunClosed | index.js:701-712 | in every run, a closed socket is in the flush of its close or has run all its close callbacks |
| Closing.CloseOnce | index.js:701-712 | `close` is emitted at most once, by a closed socket whose flush is over |
| Closing.AfterClose | index.js:701-712 | after `close`, the unsettled sends are exactly those with an unanswered lookup |
| Closing.LateAnswerSettles | index.js:343-348 | and each is settled, with an error, by that answer |
| Closing.EveryCallbackRan | index.js:483-490 | at rest after a close, `close` was emitted once and every `onclose` ran exactly once |
| Closing.ClosedAtRest | index.js:483-505 | in every run with a `close()`, the socket comes to rest CLOSED with everything emitted and called once |
| Gating.GatingSpec | index.js:457-481 | for every history, a live bound socket reads natively iff the last pause or resume was not pause, and an unbound one does not |
| Gating.PausedFollows | index.js:457-474 | `_paused` is whether the last pause-or-resume call of the history was `pause()` |
| Gating.StaysLive | index.js:483-505 | only `close()` ends a live socket |
| Gating.ReadingIff | index.js:476-478 | READING keeps implying BOUND except at exactly one step: a queued resume called after a close |
| Reentrancy.ReadingSafe | index.js:594-607 | if no callback closes the socket during a flush, READING implies BOUND in every state |
| Reentrancy.LateResume | index.js:476-478 | a run in which a callback does, and the socket is READING while CLOSING |
| Containment.OnlyQueues | index.js:586-592 | between a bind's failure and its report, deferred work only queues and starts no bind |
| Containment.StaysContained | index.js:652-664 | whatever happens in between, the socket stays unbound with the failure to report, and no native bind is attempted |
| Containment.FlushRefuses | index.js:594-599 | without steps in between, a flush with an error settles every queued send with it and nothing else, in order, and abandons a queued connect |
| Containment.RefuseWork | index.js:223-227 | a closure called with an error settles its send, abandons its connect or does nothing |
| Containment.BindSucceeds | index.js:117-188 | a bind that the native layer accepts binds a live socket that is neither bound nor binding |
| Containment.ReportSettles | index.js:652-664 | if callbacks make no call of their own, the report leaves nothing queued or in progress, settles nothing else, and a later bind succeeds |
| Containment.CloseSettles | index.js:701-712 | if callbacks make no call of their own, the end of a close settles what is queued and nothing else before it emits `close` |
| Refusal.RefusingStep | index.js:594-599 | whatever the step, re-entrant calls included, a flush with an error stays as it is, calls its next closure with that error, or ends with all its sends settled by it in order |
| Refusal.RunRefuses | index.js:594-599 | the same from any point of such a flush to the point at which no flush is in progress, in every run |
| Refusal.ReportRefuses | index.js:652-664 | in every run, whatever callbacks do, the sends queued behind a failed bind are settled with its error, in call order, before the error is emitted |
| Refusal.CloseRefuses | index.js:701-712 | in every run, whatever callbacks do, the sends queued at the end of a close are settled with SOCKET_IS_CLOSED, in call order, before `close` is emitted |
| Order.StepOrder | index.js:586-616 | every step keeps direct sends in line: handed over, then waiting, in call order |
| Order.RunOrder | index.js:586-643 | the line is in order in every state of every run without such calls |
| Order.SendsKeepCallOrder | index.js:630-643 | without calls from callbacks during a flush, sends to literals reach the native layer in call order |
| Order.OvertakesIff | index.js:586-599 | a send on a bound socket keeps that order if and only if no direct send still waits in a flush |
| Witnesses.Overtaking | index.js:586-599 | a run in which a send made from a callback reaches the native layer before an earlier one |
| Witnesses.SettledAfterClose | index.js:343-348 | a run in which `close` has been emitted while an accepted send waits for its lookup |
| Witnesses.MisreadCall | index.js:291-299 | `send('x', 9, 0)` is one of the calls without a port that are not refused |
| Witnesses.UnusableZone | lib/ip.js:37 | a printed link local address on interface br_lan is not a literal |
| Witnesses.SlicedArray | index.js:734-739 | a documented overload with an array of buffers that can only be refused |
| Provenance.RunFrom | index.js:269-353 | everything queued, in flight, settled or logged stems from a call of the run |
| Provenance.SentAsAsked | index.js:341-350 | every native send is that of one accepted call, to its port and its literal, an earlier answer to the lookup of its name, the loopback address or the peer |
| Provenance.SettledAsAsked | index.js:686-693 | every settled send was accepted, and is settled as the call it was |
| Provenance.SentBytes | index.js:335-350 | in every run, the bytes, port and callback of a native send are those one `send()` was called with, and its size their number |
| Provenance.ToldBytes | index.js:686-693 | in every run, a callback is told the number of bytes of its own `send()`, or 0 if it failed |
| Provenance.BoundAsAsked | index.js:175-180 | every native bind has the port of one bind, or of the bind that send, connect or resume start, and its literal or an earlier answer to the lookup of its name |
| Provenance.ConnectedAsAsked | index.js:229-236 | every native connect has the port of one connect, and its literal or an earlier answer to the lookup of its name |
| Provenance.SameCall | index.js:338-352 | two accepted sends with the same number are the same call |
| SendArgs.SmallNumbers | index.js:741-742 | the unsigned conversion keeps exactly the numbers below 2^32; a negative one ends up out of every bound |
| SendArgs.Utf8Length | index.js:811-819 | the byte length by which a host is judged is that of its UTF-8 encoding |
| SendArgs.Utf8RoundTrip | index.js:311-314 | the bytes of a string are its UTF-8 encoding: read by RFC 3629 they are its code points |
| SendArgs.UnsignedIff | index.js:741-742 | the conversion of offset and length, for fractions and negative numbers too |
| SendArgs.PortIff | index.js:821-830 | a port is an integer from 1 to 65535 |
| SendArgs.SliceBuffer | index.js:734-753 | a slice is the exact subrange of the view, not of its ArrayBuffer; the error cases are exact |
| SendArgs.CoerceBufferList | index.js:755-771 | every item in order, or a refusal exactly when one item is neither a string nor a view |
| SendArgs.BufferList | index.js:301-317 | the list concatenates to the bytes of the message and is never empty |
| SendArgs.Validate | index.js:319-329 | which of the three errors is thrown, or the request |
| SendArgs.ConnectedReads | index.js:272-290 | the shuffle of a connected socket: documented overloads as meant, a port or an address refused |
| SendArgs.UnconnectedReads | index.js:291-299 | the shuffle of an unconnected socket |
| SendArgs.Arguments | index.js:269-329 | every documented overload yields the bytes, port, address and callback that it means; a call without a port is refused but for one exact family |
| SendArgs.SendsItsBytes | index.js:269-317 | the buffers of an accepted documented call make exactly the bytes it asks to send, by content |
| SendArgs.SizeOfDatagram | index.js:335-336 | the size a callback reports is the length of the datagram |
| AddressBuffer.GetAddress | binding.c:38-54 | an ASCII text fails exactly above MAX_LENGTH; any text within it becomes the C string |
| AddressBuffer.NativeAddressFits | binding.c:38-54 | every address that reaches bind, connect or send is ASCII, without NUL and within MAX_LENGTH, so it is copied in whole |
| AddressBuffer.AppendZone | binding.c:83-96 | the printed address with its zone, or alone if the lookup fails, always within MAX_LENGTH and terminated |
| AddressBuffer.ReportedAddressIff | binding.c:83-96 | an address reported with a zone is a literal again, of family 6, exactly when the zone has only zone characters, and then fits |
| Receive.FaithfulIff | binding.c:161-163 | nothing is lost if and only if every datagram fits the read buffer |
| Receive.DefaultLosesNothing | index.js:8 | with the default buffer no UDP datagram is truncated, by the 16-bit Length of RFC 768 |
| Receive.Receiver.Deliver | index.js:672-683 | the message is a fresh copy of the bytes read, and earlier messages keep theirs |
| Receive.Receiver.Fetch | binding.c:342-347 | a read touches the shared buffer only: no message delivered before it changes |
| Receive.Receiver.OnMessage | binding.c:151-231 | what each read is reported as, and nothing on a closing or exiting handle |
| Receive.Receiver.Read | index.js:666-684 | what listeners hold is always what the arrivals of the whole history call for, byte for byte and in order |

## Left out

- N-API plumbing: argument unpacking, handle scopes and the exports table carry no algorithm.
- libuv, the kernel, DNS and the event emitter are nondeterministic steps under the assumptions above. What
  `uv_inet_ntop` prints is opaque except for its length; `bare_dgram__to_sockaddr` only calls libuv.
- Socket options (TTL, broadcast, multicast, operating system buffer sizes), `address()` and `remoteAddress()`, and the
  send queue counters: a guard and one native call each.
- `ref()` and `unref()` beyond the UNREFED bit, passing handles between processes (`ipcAccept`) and adopting file
  descriptors beyond the bind steps of `bind({ fd })`.
- Which listeners `once` has for `listening` and `connect`, and in which order an emitter calls its listeners.
- Error classes and message texts; errors are told apart only as far as the code does.
- Arguments of `bind` and `connect` of the wrong JavaScript type, their option objects and their trailing callbacks;
  those of `send` are modelled in full.
- Strings are sequences of Unicode scalar values: lone surrogates are not modelled. All accepted addresses are ASCII.
- The bytes of a view that a caller changes while its send is in flight: a view is modelled by its contents.
- Native.NativeHandle.SendRequest: the temporary arrays of the call are in SendMemory, not in this class.
- Native.NativeHandle.Receive: starting and stopping to receive are assumed to succeed.
- SendMemory.SendCall: begins once the address has been converted; a call that fails before allocates nothing.
- Socket.DgramSocket.RunFlush: covers a flush without calls from its callbacks; with them, a flush is the sequence of
  its turns in `FlushTurn` and `FlushDone`, and the invariants hold between any two.
- Containment.FlushRefuses: covers a flush with no step in between; `Refusal.RefusingStep` has no such hypothesis.
- Containment.ReportSettles: covers a report with no step in between, for which it also says that nothing else happens
  and that a later bind succeeds; `Refusal.ReportRefuses` covers every run.
- Containment.CloseSettles: covers a close flush with no step in between; `Refusal.CloseRefuses` covers every run.
- Order.SendsKeepCallOrder: says nothing about sends that wait for a lookup, which are handed over when it answers.
