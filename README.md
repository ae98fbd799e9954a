# KAT500 remote tuner: a Dafny model

This project models the core of the W1MX remote antenna-tuner server. It has three parts.

- **The KAT500 serial driver, in both of its versions.** The current driver is `server/kat500.py`. The older one is `kat500.py` at the top of the repository. The model covers:
  - `;`-terminated command framing;
  - the blocking response reader;
  - baud-rate discovery;
  - one method per tuner command, each with its response decoder.
- **`update_tuner_status`.** It queries the tuner in the fixed order RV, PS, VSWR, MD, FLT, TP. It publishes a new snapshot only when every query succeeded.
- **The client-message dispatch of `receive_from_websocket`.**
  - `tune` true sends FT and `tune` false sends CT.
  - A known `mode` name is mapped to its mode code and sent through `set_mode`.
  - Each command is followed by a refresh.
  - The loop ends at the first exception.

How the serial port is modelled:

- The port is a class, `Serial.Port`.
- It logs every write in order (`sent`).
- It delivers a scripted queue of incoming chunks (`incoming`). Each chunk is what one `read(in_waiting)` finds waiting.
- A blocking read that would wait forever comes back as `Err(Stalled)`.

Each driver method is proved against a specification function on that queue. `Framing.ReadFrame` models `_read_response`, and `Framing.Ask` is one response read and decoded. Each method's `ensures` states both:

- what it wrote;
- what it returned, together with what it left unread.

The server is a class holding:

- the driver;
- the last published snapshot;
- the session map, from each session to its `closed` flag.

Its methods are proved against these pure definitions of one refresh, one message and one session: `RemoteTuner.Refresh`, `RemoteTuner.Handle` and `RemoteTuner.Converse`.

Files (one module each):

| file | module | contents |
|---|---|---|
| `results.dfy` | `Results` | `Option`, `Result` and the error kinds |
| `text.dfy` | `Text` | the string operations the driver uses: substring tests, `str.replace(p, '')`, `int()` and `str()` |
| `framing.dfy` | `Framing` | frames, blocking reads, the response reader |
| `protocol.dfy` | `Protocol` | baud rates, mode codes, the fault table, the response decoders, discovery |
| `serial_port.dfy` | `Serial` | the serial port |
| `kat500.dfy` | `Kat500` | the current driver |
| `legacy_kat500.dfy` | `LegacyKat500` | the older driver |
| `remote_tuner.dfy` | `RemoteTuner` | the refresh, the message dispatch, the sessions and the server state |

### Behaviour of the code worth knowing

- **A client payload that does not decode.** `json.loads` raises inside the `try` (`server/remoteTuner.py:57`), and the bare `except: break` (`server/remoteTuner.py:71-72`) ends that session's receive loop. It is not skipped. `RemoteTuner.Converse` stops there, and `RemoteTuner.MalformedEndsConversation` proves that nothing after the payload reaches the tuner. A refresh that fails after a client command ends the loop in the same way.
- **Baud discovery.** The code does not close the probe port that answered (`server/kat500.py:40-42`). That port stays open while a second port is opened at the chosen rate (`server/kat500.py:51`) and used for I, RV and SN. `Kat500.DiscoverBaudRate` ensures that exactly the answering probe port is still open when it returns. `Kat500.Connect` then opens a fresh port.
- **VSWR.** A VSWR is physically at least 1.0, but the code parses whatever float the device sends and checks no bound.
- **Fault reports.** The fault name and description are functions of the code: `Protocol.Fault.Name` and `Protocol.Fault.Description`. They reproduce the table at `server/kat500.py:177-188`. Any integer outside 0..4 is reported as an unknown fault rather than refused.

## Model

| member | source | states |
|---|---|---|
| Text.Contains | server/kat500.py:111-113 | the substring test `p in s` holds exactly when `p` occurs at some index of `s` |
| Text.RemoveAll | server/kat500.py:89 | `replace(p, '')` never lengthens the string, and leaves a string without `p` unchanged |
| Text.StripPrefix | server/kat500.py:89 | removing a prefix `p` from `p + t` yields `t` when `t` does not contain `p` |
| Text.NotContainsWithoutFirstChar | server/kat500.py:96 | a string lacking the first character of a pattern does not contain the pattern |
| Text.NatToDigits | server/kat500.py:147 | the decimal rendering of a number is a non-empty string of digits |
| Text.IntToString | server/kat500.py:147 | a non-negative integer renders as a non-empty run of digits, a negative one as `-` followed by digits |
| Text.DigitsRoundTrip | server/kat500.py:147 | the value of a number's decimal digits is that number |
| Text.ParseIntRoundTrip | server/kat500.py:147 | `int(str(i)) == i` for every integer |
| Framing.FrameAppendsTerminator | server/kat500.py:73 | a frame starts with the command text, and for a command free of `;` its only `;` is its last byte |
| Framing.Take | server/kat500.py:63-65 | a blocking `read(n)` succeeds exactly when `n` bytes will arrive, returns exactly `n` bytes, and loses or reorders none; a read that never completes drains the queue |
| Framing.TakeWaiting | server/kat500.py:65 | `read(in_waiting)` returns exactly the chunk that is waiting |
| Framing.AccumulateConserves | server/kat500.py:64-66 | the read loop consumes the response, its terminator and nothing more; when it never finishes, it has drained the queue |
| Framing.ReadFrameConserves | server/kat500.py:59-67 | the bytes received are the response, the `;`, then exactly what stays queued; a failed read has drained the queue |
| Framing.NoTerminatorStalls | server/kat500.py:64-66 | without a `;` still to come, the read never returns |
| Framing.TerminatorInsideChunkIgnored | server/kat500.py:64 | only the last byte of the buffer is tested: a `;` inside a chunk that does not end in one does not finish the read |
| Framing.OnlyTerminatorIsLast | server/kat500.py:64 | a buffer that ends in `;` and is a prefix of a `;`-free response plus `;` is that whole frame |
| Framing.UnterminatedNeedsMore | server/kat500.py:64-66 | while the buffer does not end in `;`, bytes of the frame are still to come |
| Framing.AccumulateSplit | server/kat500.py:64-67 | once the chunks that complete the frame are in, the loop returns the response and leaves later chunks queued |
| Framing.ReadFrameSplit | server/kat500.py:59-67 | however a `;`-free response is split into chunks, the reader returns it and leaves the later chunks untouched |
| Framing.FrameRoundTrip | server/kat500.py:63-73 | what `_write_command` frames is what `_read_response` reads back |
| Protocol.HandshakeAccepts | server/kat500.py:53-57 | a device that answers `I;` with `KAT500`, `RV;` with any version and `SN;` with a number completes the handshake |
| Protocol.FirstAnswering | server/kat500.py:35-42 | discovery picks the first rate with bytes waiting: every earlier rate was silent, and the result is in range |
| Protocol.DiscoversOnlyAnsweringRate | server/kat500.py:35-42 | a device answering at exactly one rate is found at that rate |
| Protocol.DiscoveryFailsIffSilent | server/kat500.py:45-46 | discovery fails with no response exactly when every candidate rate stayed silent |
| Protocol.Powered | server/kat500.py:109-116 | `PS0` anywhere means off (even beside `PS1`); otherwise `PS1` anywhere means on; otherwise the no-power-status error, in both directions |
| Protocol.PowerCommandReadsBack | server/kat500.py:111-128 | the response worded like `PS1`/`PS0` decodes to the state that command sets |
| Protocol.ModeOf | server/kat500.py:134-139 | the mode response is accepted exactly when it is one of the three codes, returned unchanged; otherwise the no-mode error |
| Protocol.ModeCodesReadBack | server/kat500.py:134-154 | `get_mode` accepts exactly the codes `set_mode` may write |
| Protocol.TuneEcho | kat500.py:154-156 | the older full-search tune succeeds exactly when the device echoes `FT` |
| Protocol.Fault.Name | server/kat500.py:177-188 | the fault name is the unknown-fault name exactly when the code is outside 0..4 |
| Protocol.Fault.Description | server/kat500.py:177-188 | the fault description is the unknown-fault text exactly when the code is outside 0..4 |
| Protocol.NumberHasNoLetters | server/kat500.py:176 | a printed integer contains no letter-led pattern such as `FLT` or `SN ` |
| Protocol.FaultRoundTrip | server/kat500.py:175-176 | `FLT` followed by any integer decodes to that fault code |
| Protocol.UnknownCodeReported | server/kat500.py:187-188 | an undocumented code is reported with its own number and the unknown-fault name, not refused |
| Protocol.SerialNumberRoundTrip | server/kat500.py:95-96 | `SN ` followed by any integer decodes to that serial number |
| Protocol.FrequencyCounterRoundTrip | server/kat500.py:145-147 | the frequency counter reads back any integer the device prints |
| Protocol.RevisionStripsPrefix | server/kat500.py:88-89 | `RV` followed by a version that does not contain `RV` decodes to that version |
| Serial.Port.Open | server/kat500.py:36 | a newly opened port is open at the given rate, has sent nothing, and will deliver the device's script |
| Serial.Port.InWaiting | server/kat500.py:40 | bytes are waiting exactly when a chunk has arrived |
| Serial.Port.Write | server/kat500.py:38 | a write is appended to the log; nothing else changes |
| Serial.Port.Read | server/kat500.py:63-65 | a read is the blocking `Take` of `n` bytes on the incoming queue |
| Serial.Port.Close | server/kat500.py:43 | the port is closed; its log and queue are kept |
| Kat500.DiscoverBaudRate | server/kat500.py:32-46 | the result is the discovered rate (or no response); one fresh port per rate tried, in order, each sent five bare terminators; only the port that answered is left open |
| Kat500.Connect | server/kat500.py:26-57 | without a rate, a silent device is refused with no response; once a rate is given or found, the driver connects exactly when the handshake on the new port succeeds, and otherwise fails with the handshake's error, so an explicit rate never depends on probing; on success the port is open at that rate and has been sent I, RV, SN |
| Kat500.Tuner.constructor | server/kat500.py:51 | the driver talks over the port it was given |
| Kat500.Tuner.WriteCommand | server/kat500.py:69-73 | one write of the command and its terminator |
| Kat500.Tuner.ReadResponse | server/kat500.py:59-67 | the result and the unread chunks are those of `ReadFrame` on the queue; nothing is written |
| Kat500.Tuner.Identify | server/kat500.py:75-82 | writes `I;`; true exactly when the response is `KAT500` |
| Kat500.Tuner.GetFirmwareRevision | server/kat500.py:84-89 | writes `RV;`; the response with every `RV` removed |
| Kat500.Tuner.GetSerialNumber | server/kat500.py:91-96 | writes `SN;`; the response without `SN ` parsed as an integer, or an error |
| Kat500.Tuner.GetVswr | server/kat500.py:98-103 | writes `VSWR;`; the response without `VSWR ` parsed as a float, or an error |
| Kat500.Tuner.GetPowered | server/kat500.py:105-116 | writes `PS;`; decodes the response by `Powered` |
| Kat500.Tuner.SetPowerOn | server/kat500.py:118-122 | writes `PS1;` and reads nothing |
| Kat500.Tuner.SetPowerOff | server/kat500.py:124-128 | writes `PS0;` and reads nothing |
| Kat500.Tuner.GetMode | server/kat500.py:130-139 | writes `MD;`; a mode code or the no-mode error |
| Kat500.Tuner.GetFrequencyCounter | server/kat500.py:141-147 | writes `FC;`; the response parsed as an integer, or an error |
| Kat500.Tuner.SetMode | server/kat500.py:149-156 | succeeds exactly for the three mode codes and then writes the code; any other mode is refused with nothing written |
| Kat500.Tuner.SetFullSearchTune | server/kat500.py:158-162 | writes `FT;` and reads nothing |
| Kat500.Tuner.CancelFullSearchTune | server/kat500.py:164-169 | writes `CT;`, then reads one response and discards it |
| Kat500.Tuner.GetFault | server/kat500.py:171-188 | writes `FLT;`; the response without `FLT` parsed as a fault code, or an error |
| Kat500.Tuner.ClearFault | server/kat500.py:190-195 | writes `FLTC;`, then reads one response and discards it |
| Kat500.Tuner.GetTuning | server/kat500.py:197-204 | writes `TP;`; true exactly when the response is `TP1` |
| LegacyKat500.DiscoverBaudRate | kat500.py:32-46 | as in the current driver |
| LegacyKat500.Connect | kat500.py:26-57 | as in the current driver: connects exactly when the rate is given or found and the handshake succeeds |
| LegacyKat500.Tuner.constructor | kat500.py:51 | the driver talks over the port it was given |
| LegacyKat500.Tuner.WriteCommand | kat500.py:69-73 | one write of the command and its terminator |
| LegacyKat500.Tuner.ReadResponse | kat500.py:59-67 | the result and the unread chunks are those of `ReadFrame`; nothing is written |
| LegacyKat500.Tuner.Identify | kat500.py:75-82 | writes `I;`; true exactly when the response is `KAT500` |
| LegacyKat500.Tuner.GetFirmwareRevision | kat500.py:84-89 | writes `RV;`; the response with every `RV` removed |
| LegacyKat500.Tuner.GetSerialNumber | kat500.py:91-96 | writes `SN;`; the response without `SN ` parsed as an integer, or an error |
| LegacyKat500.Tuner.GetVswr | kat500.py:98-103 | writes `VSWR;`; the response without `VSWR ` parsed as a float, or an error |
| LegacyKat500.Tuner.GetPowered | kat500.py:105-116 | writes `PS;`; decodes the response by `Powered` |
| LegacyKat500.Tuner.SetPowerOn | kat500.py:118-122 | writes `PS1;` and reads nothing |
| LegacyKat500.Tuner.SetPowerOff | kat500.py:124-128 | writes `PS0;` and reads nothing |
| LegacyKat500.Tuner.GetMode | kat500.py:130-139 | writes `MD;`; a mode code or the no-mode error |
| LegacyKat500.Tuner.SetMode | kat500.py:141-148 | succeeds exactly for the three mode codes and then writes the code; any other mode is refused with nothing written |
| LegacyKat500.Tuner.SetFullSearchTune | kat500.py:150-156 | writes `FT;`, then reads one response, which must be the echo `FT` |
| RemoteTuner.ModeMapsAreInverse | server/remoteTuner.py:30-53 | the code-to-name map of `update_tuner_status` and the name-to-code map of `receive_from_websocket` are mutual inverses over exactly the driver's three modes |
| RemoteTuner.CountLive | server/remoteTuner.py:42 | `usersConnected` is the number of sessions whose channel is not closed |
| RemoteTuner.ClosingDropsCount | server/remoteTuner.py:42 | a session whose channel closes stops being counted |
| RemoteTuner.LiveCountBounded | server/remoteTuner.py:42 | no more users are counted than sessions are connected |
| RemoteTuner.DecodeReading | server/remoteTuner.py:34-43 | each query's decoded value has the kind its status field needs; the mode is one of the three codes |
| RemoteTuner.Collect | server/remoteTuner.py:34-43 | a run from the k-th query writes at least one more query and never more than six in all; a completed run wrote all six and extends the earlier readings to six, each of the kind its field needs |
| RemoteTuner.Snapshot | server/remoteTuner.py:32-43 | the published mode is a client-visible mode name |
| RemoteTuner.Refresh | server/remoteTuner.py:26-45 | a refresh writes one to six queries; a snapshot is produced only after all six succeeded, and it carries the given time and user count |
| RemoteTuner.CollectStep | server/remoteTuner.py:34-43 | a query answered by a frame that decodes adds that reading and moves on to the next query |
| RemoteTuner.CollectTwoSteps | server/remoteTuner.py:34-43 | two consecutive queries answered by frames that decode add both readings |
| RemoteTuner.CollectFails | server/remoteTuner.py:34-43 | a query whose answer does not decode stops the run with the decoder's error |
| RemoteTuner.CollectSucceeds | server/remoteTuner.py:34-43 | six whole replies that all decode complete the run with exactly their six readings |
| RemoteTuner.RefreshSucceeds | server/remoteTuner.py:26-45 | six replies that all decode give the snapshot of exactly their decoded values (revision, power, VSWR, client mode name, fault, tuning), with the given time and user count, and leave later chunks unread; with FaultRoundTrip, a good `FLT` reply after a failed cycle publishes the correct fault entry |
| RemoteTuner.MalformedFaultAborts | server/remoteTuner.py:34-38 | a non-integer fault reply aborts the refresh after five queries, with no snapshot, and leaves the later chunks unread |
| RemoteTuner.AfterCommand | server/remoteTuner.py:65-70 | when a command's refresh raises, the published status is unchanged |
| RemoteTuner.AfterCommandComplete | server/remoteTuner.py:68-69 | a command whose refresh succeeds is followed by all six queries |
| RemoteTuner.TuneComplete | server/remoteTuner.py:58-65 | a successful `tune` request writes FT (true) or CT (false), then the six queries |
| RemoteTuner.UnknownModeSendsNothing | server/remoteTuner.py:58-67 | a message with no `tune` field and no known mode writes nothing and changes nothing |
| RemoteTuner.TuneBeforeMode | server/remoteTuner.py:58-70 | with both fields and no exception, the tune command and its refresh precede the mode command and its refresh |
| RemoteTuner.TuneCommandFirst | server/remoteTuner.py:58-64 | any message with a `tune` field writes FT or CT before anything else |
| RemoteTuner.MalformedEndsConversation | server/remoteTuner.py:54-72 | a payload that does not decode ends the receive loop; nothing after it reaches the tuner |
| RemoteTuner.Poll | server/remoteTuner.py:33-43 | the queries on the driver give exactly `Refresh`'s outcome and write the queries it issued |
| RemoteTuner.PollMiddle | server/remoteTuner.py:36-37 | the VSWR and mode queries continue the refresh as `Collect` does |
| RemoteTuner.PollLast | server/remoteTuner.py:38-43 | the fault and tune-poll queries, with the user count taken between them, complete the refresh as `Collect` does |
| RemoteTuner.Server.constructor | server/remoteTuner.py:22-24 | the server starts with no published status and no sessions |
| RemoteTuner.Server.Register | server/remoteTuner.py:77 | a new session is added as not closed; adding one already present changes nothing |
| RemoteTuner.Server.Unregister | server/remoteTuner.py:86 | the session is removed; the status is unchanged |
| RemoteTuner.Server.UpdateTunerStatus | server/remoteTuner.py:26-45 | the result is `Refresh`'s; the status is replaced only when every query succeeded, and otherwise keeps the previous snapshot; the sessions are unchanged |
| RemoteTuner.Server.Tune | server/remoteTuner.py:58-66 | FT or CT then a refresh, with the effect `TuneEffect` defines; a failed CT read skips the refresh |
| RemoteTuner.Server.SwitchMode | server/remoteTuner.py:67-70 | `set_mode` with the name's code, then a refresh, with the effect `AfterCommand` defines |
| RemoteTuner.Server.HandleMessage | server/remoteTuner.py:58-70 | one message has the effect `Handle` defines: the tune part, then the mode part unless the tune part raised |
| RemoteTuner.Server.ReceiveFromWebsocket | server/remoteTuner.py:52-72 | messages are handled in order until one raises or does not decode, with the effect `Converse` defines |

## Left out

- The Flask web server, the static page, the websocket server setup and the outbound `websocket.send` calls: they are I/O. The published snapshot is the `status` field, and a send is the act of reading it.
- Threads, `asyncio` and the interleaving of the poll thread with the receive loops: concurrency is not modelled. Each operation runs to completion on its own.
- `time.sleep` between probes and between polls, and the endless `while True` of the poll thread: timing only.
- `time.time()`: it is the parameter `now` (an integer).
- Python's `float()`: it is the parameter `parseFloat`. The model states what the driver does with its answer, not how a float is parsed.
- The JSON encoding of the status (`json.dumps`) and decoding of messages (`json.loads`): a message arrives either as `Malformed` or already decoded into its `tune` and `mode` fields. A `tune` or `mode` field of another JSON type is not modelled.
- `int()`: only an optional sign followed by ASCII digits is modelled. Surrounding whitespace, underscores and non-ASCII digits, which Python also accepts, are not.
- Byte decoding: responses are sequences of characters, one per byte. UTF-8 decoding and its errors are not modelled.
- pyserial internals (timeouts, port errors, buffer limits): the port is an abstract log of writes plus a scripted queue of arriving chunks.
- The read loop's busy wait when nothing more arrives is modelled as the error `Stalled`. The source would spin forever.
- The device path argument of the constructor, and `__del__`, which closes the port when the driver is collected: the model has no garbage collection.
- The frequency-counter query that `update_tuner_status` leaves commented out.
- The poll thread dying on an exception in `update_tuner_status`: the model returns the error and leaves the status as it was.
- RemoteTuner.Server.constructor: takes an already connected driver. The fixed rate of 38400 baud at `server/remoteTuner.py:22` corresponds to `Kat500.Connect` with an explicit rate.
- Kat500.Connect: does not state the firmware revision and serial number it reads, which the source only prints, nor what is left unread on the new port.
- LegacyKat500.Connect: same as `Kat500.Connect`.
- Kat500.Tuner.GetVswr: no lower bound of 1.0 on VSWR is stated, because the source does not check one.
- LegacyKat500.Tuner.GetVswr: same as `Kat500.Tuner.GetVswr`.
- RemoteTuner.Server.ReceiveFromWebsocket: the inbox is a finite sequence, so the end of the inbox stands for `websocket.recv` raising when the connection closes.
- RemoteTuner.Converse: one clock reading `now` stands for every refresh of a session. The source reads `time.time()` afresh for each refresh (`server/remoteTuner.py:33`), so two snapshots of one session differ in time there but not in the model. The same holds for `RemoteTuner.Handle`, `RemoteTuner.Server.HandleMessage` and `RemoteTuner.Server.ReceiveFromWebsocket`.
