# PrivCount data collector, modelled in Dafny

A PrivCount data collector (DC) sits beside a Tor relay. It counts what the relay reports, and it keeps the counts blinded so that only the tally server and share keepers together can recover the aggregate. This project models the core of `privcount/data_collector.py`:

- **The `Aggregator`.** It is a class with the source's own fields: the secure counters, the circuit/stream correlation maps `circ_info` and `strm_bytes`, the two client-IP windows, and the relay identity values. Its control-port event handlers change these fields.
  - The handlers are `handle_event` and the bytes, stream, circuit and connection handlers.
  - Each handler method is proved against a pure transition function (module `Events`) on an `AggState` value. What an event does to the counters, to the correlation maps and to the client windows is proved about that function.
  - The counters are a log of the increments they receive (`SinkOp`). `Tally` sums the log for one counter name. The counters' internal arithmetic and noise are not part of this model.
- **The pure helpers.** These are `_classify_port`, `_encode_ratio` and `_compute_interstream_creation_times` (module `Classifier`), plus the identity validators and the sorted, duplicate-free port lists (module `Identity`).
- **The round's life cycle.** This covers `_do_rotate` (the client-window swap and its unique-client totals), `generate_noise`, `stop`, `_stop_secure_counters` and `get_shares`.
- **The `DataCollector`'s part in a round** (module `Collector`): `do_start`, `_start_aggregator_deferred` and `do_stop`.

Event fields arrive as `Token`s. A `Token` carries the field's text and what Python's `int()` and `float()` would make of it (`None` when they raise `ValueError`). Python's exceptions are modelled as an `Outcome` value: `Returned(v)` or `Raised(error)`. Where an exception escapes part-way through a handler, the increments made before it are kept, as in the source. A timer firing (`task.LoopingCall` or `task.deferLater`) is modelled as a call of the method the timer would run. The current time is a parameter.

Module layout:

| module | file |
|---|---|
| `Types` | types.dfy |
| `Classifier` | classifier.dfy |
| `Correlation` | correlation.dfy |
| `ClientWindow` | client_window.dfy |
| `Increments` | increments.dfy |
| `Events` | events.dfy |
| `Identity` | identity.dfy |
| `AggregatorModel` | aggregator.dfy |
| `Collector` | data_collector.dfy |

## Model

| member | source | states |
|---|---|---|
| Classifier.PortClassesPartition | privcount/data_collector.py:1003-1020 | Every port gets exactly one class. A port is web iff it is 80 or 443. It is interactive iff it is in the interactive list. It is p2p iff it is in the p2p ranges. Otherwise it is other. |
| Classifier.ClassifyPort | privcount/data_collector.py:1003-1020 | Builds the p2p port list with the source's loops and classifies the port. The result is web, interactive or p2p exactly when the port is in that set. |
| Classifier.EncodeRatio | privcount/data_collector.py:1023-1042 | The result is 0 iff both values are 0. It is max_exp (1024) iff only inval is 0, and min_exp (-1021) iff only outval is 0. Otherwise it is log2 of a positive quotient with quotient·inval = outval. It raises (None) iff the signs differ, because math.log is given a negative number. For non-negative values the sign is positive iff outval > inval and negative iff outval < inval. |
| Classifier.QuotientSign | privcount/data_collector.py:1041-1042 | For non-zero values, the quotient outval/inval is positive iff the signs agree and satisfies quotient·inval = outval; for positive values it exceeds 1 iff outval > inval and is below 1 iff outval < inval. |
| Classifier.EncodeRatioSwap | privcount/data_collector.py:1023-1042 | For positive counts, swapping inbound and outbound inverts the quotient and negates the sign of the encoded ratio. |
| Classifier.SortTimesSorts | privcount/data_collector.py:1050 | The sort of start_times is ascending, is a permutation of its input, and keeps its length. |
| Classifier.SortedGaps | privcount/data_collector.py:1045-1055 | The gaps of the sorted start times number n−1 (or 0 when n ≤ 1), and each is ≥ 0. |
| Classifier.InterStreamCreationTimes | privcount/data_collector.py:1045-1055 | The loop computes the gaps of the sorted times: n−1 of them, each ≥ 0, and equal to the specification `Gaps(SortTimes(…))`. |
| Correlation.AllStartTimesCount | privcount/data_collector.py:1147-1154 | When a record's per-class start-time lists match its per-class counts, the concatenation of the four lists has as many times as the record has streams. |
| Correlation.AddStream | privcount/data_collector.py:908-983 | A stream of class c adds one to c's count and appends its start time to c's list. The other classes are unchanged. The total rises by one, and a consistent record stays consistent. |
| Correlation.RecordStream | privcount/data_collector.py:878-882 | The circuit becomes known, and its record is the previous record (an empty one if the circuit is new) with the stream added. No other channel or circuit changes, and well-formedness is kept. |
| Correlation.PurgeCircuit | privcount/data_collector.py:1216-1221 | The circuit is no longer known, and every other circuit and channel is untouched. The channel is dropped iff this was its last circuit. An unknown circuit leaves the map as it was. |
| Correlation.AppendSample | privcount/data_collector.py:841-857 | The (stream, circuit) list gains the sample at its end. The other entries are unchanged and well-formedness is kept. |
| Correlation.PurgeStream | privcount/data_collector.py:996-999 | The (stream, circuit) entry is gone and the other streams are untouched. The stream's map is dropped exactly when it becomes empty, so no empty entry is left. |
| ClientWindow.MarkSeen | privcount/data_collector.py:1106-1108 | setdefault on the previous window: the ip is present, and it is active iff it was already active or this circuit is active. The other clients are unchanged and no active client becomes inactive. |
| ClientWindow.RecordCurrent | privcount/data_collector.py:1101-1103 | As MarkSeen, and the ip's active or inactive completed-circuit count (whichever matches the circuit) rises by one. |
| ClientWindow.ClientsPartition | privcount/data_collector.py:1261-1267 | The active and inactive clients of a window number exactly the window's size. |
| ClientWindow.EnumerationLength | privcount/data_collector.py:1261 | A loop over the window's keys visits as many clients as the window has. |
| ClientWindow.ClientIncrementsShape | privcount/data_collector.py:1269-1276 | The loop makes two increments per client, and none to any counter other than the two per-client circuit counts. |
| ClientWindow.TallyTotals | privcount/data_collector.py:1278-1286 | EntryClientIPCount gets the window size, and the active and inactive unique-client counts add up to it. |
| ClientWindow.RotationCounts | privcount/data_collector.py:1256-1286 | Whatever the visiting order, a rotation adds the window size to EntryClientIPCount. The active and inactive counts add up to the window size, and a rotation makes 2·size + 3 increments. |
| ClientWindow.RotationTally | privcount/data_collector.py:1278-1280 | Appending a rotation's increments to any earlier log raises EntryClientIPCount by the evicted window's size. |
| ClientWindow.TallyWindow | privcount/data_collector.py:1256-1276 | The loop visits every client once, counts exactly the active and inactive clients, and makes the per-client increments in its visiting order. |
| Increments.StreamGroupTally | privcount/data_collector.py:886-906 | One stream group adds 1 to its stream count, readbw+writebw to its byte count, and nothing to any other counter. |
| Increments.StreamIncrementsTally | privcount/data_collector.py:886-983 | A counted stream adds to the overall group and to its own class's group only. |
| Increments.StreamTallies | privcount/data_collector.py:886-983 | ExitStreamCount +1. ExitStreamByteCount +readbw+writebw. A class's counts change iff it is the stream's class. Twelve increments in all. |
| Increments.EntryCircuitTally | privcount/data_collector.py:1077-1098 | The per-counter effect of an entry circuit. |
| Increments.EntryActiveTally | privcount/data_collector.py:1084-1093 | The per-counter effect of an active entry circuit. |
| Increments.EntryCircuitTallies | privcount/data_collector.py:1077-1098 | EntryCircuitCount +1. Exactly one of the active and inactive counts +1, active iff cells ≥ 8. The cell ratio is counted iff the circuit is active and the ratio encodes. For non-negative cell counts the ratio always encodes. |
| Increments.GapIncrementsTally | privcount/data_collector.py:1154-1156 | One increment per gap, all to the given counter. |
| Increments.StartTimeGapsCount | privcount/data_collector.py:1045-1055 | n start times give n−1 gaps. |
| Increments.ClassCircuitTally | privcount/data_collector.py:1160-1203 | A class with no streams adds nothing. A class with streams adds one circuit, its stream count, and one inter-stream time per consecutive pair. |
| Increments.ClassCircuitTallyOther | privcount/data_collector.py:1160-1203 | A class's block touches only that class's three counters. |
| Increments.AllClassesTallyOthers | privcount/data_collector.py:1160-1203 | The four class blocks touch only the per-class counters. |
| Increments.AllClassesCircuitCount | privcount/data_collector.py:1160-1203 | A class's circuit count rises iff the circuit carried a stream of that class. |
| Increments.AllClassesTally | privcount/data_collector.py:1160-1203 | The tally of the four class blocks is the sum of each block's tally. |
| Increments.ActiveExitSplit | privcount/data_collector.py:1139-1203 | The tally of an active exit circuit's increments is the sum of the tallies of its overall part and its per-class part. |
| Increments.ActiveExitTally | privcount/data_collector.py:1139-1203 | An active exit circuit: ExitActiveCircuitCount +1. It adds no inactive or overall count. It adds streams−1 overall inter-stream times, and one class circuit per class that carried streams. |
| Increments.ExitCircuitTally | privcount/data_collector.py:1123-1210 | The per-counter effect of an exit circuit. |
| Increments.ExitCircuitTallies | privcount/data_collector.py:1123-1210 | ExitCircuitCount +1. Active iff the circuit is known and carried a stream, else inactive. Inter-stream times and class circuits only for active circuits. |
| Increments.ConnectionTally | privcount/data_collector.py:1238-1244 | The entry connection counts rise by one iff the connection is from a client. |
| Events.BytesEvent | privcount/data_collector.py:841-857 | Changes only strm_bytes. Raises iff a traffic model exists and a field does not parse. Without a traffic model nothing changes. It never returns False. Well-formedness is kept. |
| Events.BytesEventAppends | privcount/data_collector.py:848-857 | With a traffic model and parsable fields, the sample is appended to its (stream, circuit) list. |
| Events.StreamEvent | privcount/data_collector.py:862-1000 | An unparsable event raises ValueError and changes nothing. A parsed one returns True. A stream with no bytes (readbw+writebw == 0) changes nothing. The windows are never touched. Counters only grow, and the maps stay well-formed. |
| Events.StreamEventEffects | privcount/data_collector.py:878-999 | A counted stream: its circuit becomes known with +1 stream of its class and the start time appended. Its strm_bytes entry is purged. ExitStreamCount and its class's stream count rise by one. |
| Events.CountedStreamTallies | privcount/data_collector.py:886-992 | The traffic-model update does not change the stream counts that the counted stream raises. |
| Events.EntryCircuit | privcount/data_collector.py:1075-1118 | Makes the entry increments. Raises ValueError iff the cell ratio cannot be encoded, and then leaves both windows unchanged. |
| Events.EntryCircuitEffects | privcount/data_collector.py:1075-1118 | Active iff cells ≥ 8. Exactly one completed count +1. is_active only goes from False to True in both windows. The previous window changes only if start < cli_ips_rotated. The circuit counts move as stated. |
| Events.EntryCircuitCounts | privcount/data_collector.py:1077-1098 | On any earlier log, EntryCircuitCount +1 and exactly one of the active and inactive counts +1. |
| Events.ExitCircuit | privcount/data_collector.py:1120-1222 | Returns True. Touches only the counters and circ_info, and keeps circ_info well-formed. |
| Events.ExitCircuitEffects | privcount/data_collector.py:1123-1210 | The counter effects on top of any earlier log: ExitCircuitCount +1; the active count +1 iff the circuit is known and its stream sum > 0, the inactive count +1 otherwise; an active circuit adds streams−1 inter-stream times. |
| Events.ExitCircuitPurges | privcount/data_collector.py:1216-1221 | Afterwards the circuit is not known, and other circuits and channels are untouched. |
| Events.CircuitEvent | privcount/data_collector.py:1060-1222 | An unparsable event raises ValueError and changes nothing. A circuit that is neither entry nor exit changes nothing and returns True. It never returns False. Counters only grow. |
| Events.ConnectionEvent | privcount/data_collector.py:1227-1245 | An unparsable event raises ValueError and changes nothing. Otherwise it returns True, and only a client connection adds its two increments. |
| Events.EventOutcome | privcount/data_collector.py:804-836 | An event with fewer than two fields returns False and changes nothing. Returning False never changes anything. Only ValueError can escape. Counters only grow, the rotation time is kept, and the maps stay well-formed. |
| Identity.StripSlice | privcount/data_collector.py:536-538 | `strip()` returns a contiguous slice of the input with only whitespace outside it. |
| Identity.StripEnds | privcount/data_collector.py:536-538 | A non-empty stripped value starts and ends with a non-space. |
| Identity.StripIdempotent | privcount/data_collector.py:536-538 | Stripping twice is stripping once. |
| Identity.ValidateVersion | privcount/data_collector.py:643-680 | Accepted iff the stripped version is non-empty and printable. The accepted value is the stripped version. |
| Identity.StrictlySortedDistinct | privcount/data_collector.py:580-591 | A sorted port list has no duplicates. |
| Identity.SortedUnique | privcount/data_collector.py:580-591 | Two sorted, duplicate-free lists with the same members are equal, so the port list is determined by its set. |
| Identity.AddTorPort | privcount/data_collector.py:580-591 | Inserting a port keeps the list sorted and duplicate-free, and the list's members are the old ones plus the port. A port already present leaves the list unchanged. |
| Identity.JoinPorts | privcount/data_collector.py:592-601 | None iff no port is known. Otherwise the string is `", ".join(ports)`: its length is the ports' lengths plus two per separator, every port appears in list order at its offset, and each port after the first is preceded by ", ". |
| Identity.JoinLength | privcount/data_collector.py:600 | The joined string is as long as all the ports plus two characters for each separator. |
| Identity.JoinPortAt | privcount/data_collector.py:600 | Every port appears, in list order, at its offset in the joined string. |
| Identity.JoinSeparatorAt | privcount/data_collector.py:600 | Exactly ", " lies between each port and the next, and the next port begins right after it. |
| Identity.JoinLayout | privcount/data_collector.py:600 | The length, every port at its offset, and the ", " before each port after the first, for all indices at once. |
| AggregatorModel.Aggregator.constructor | privcount/data_collector.py:364-401 | The fresh aggregator: empty counter log with one blinding share per share keeper, no noise weight, not collecting, empty maps and windows, and no identity. |
| AggregatorModel.Aggregator.Start | privcount/data_collector.py:427-440 | The aggregator is collecting. |
| AggregatorModel.Aggregator.StopProtocol | privcount/data_collector.py:442-460 | The aggregator is no longer collecting. |
| AggregatorModel.Aggregator.StopSecureCounters | privcount/data_collector.py:462-480 | The counters are gone. The counts come back iff they are valid and the counters existed, and they are the counter log. |
| AggregatorModel.Aggregator.GenerateNoise | privcount/data_collector.py:503-524 | Once a noise weight is fixed, a further call changes nothing, so a weight is fixed at most once. Without a weight, it looks the fingerprint up: a weight found is kept, with collecting and the counters unchanged; no weight found stops collecting, drops the counters and leaves the weight unset, so a later stop() looks it up again. |
| AggregatorModel.Aggregator.Stop | privcount/data_collector.py:482-498 | Not collecting and no counters afterwards. Counts come back iff they are wanted, the counters existed, and a noise weight was or now is found. |
| AggregatorModel.Aggregator.GetShares | privcount/data_collector.py:500-501 | Returns the blinding shares and detaches them. Raises AttributeError once the counters are gone. |
| AggregatorModel.Aggregator.SetNickname | privcount/data_collector.py:534-554 | Accepted iff the stripped nickname is 1-19 ASCII alphanumerics. Only an accepted one is stored. |
| AggregatorModel.Aggregator.SetOrport | privcount/data_collector.py:560-615 | Accepted iff the stripped entry is 1-200 characters of string.printable. An accepted entry joins the sorted, duplicate-free list, which keeps every earlier entry. |
| AggregatorModel.Aggregator.SetDirport | privcount/data_collector.py:623-634 | Same as SetOrport, for the DirPort list. |
| AggregatorModel.Aggregator.SetTorVersion | privcount/data_collector.py:643-690 | Accepted iff validate_version accepts the value. Only an accepted value is stored. |
| AggregatorModel.Aggregator.SetTorPrivcountVersion | privcount/data_collector.py:643-706 | Same as SetTorVersion, for the PrivCount version. |
| AggregatorModel.Aggregator.SetAddress | privcount/data_collector.py:711-733 | Accepted iff the stripped address is 7-15 characters, each a digit or a dot. Only an accepted one is stored. |
| AggregatorModel.Aggregator.SetFingerprint | privcount/data_collector.py:738-766 | Accepted iff the stripped value is 40 hex digits. Only the first accepted fingerprint is stored, and only it runs generate_noise. If a weight was already fixed, nothing else changes. If a weight is found for it, that weight is kept and collecting and the counters are unchanged. If none is found, collecting stops and the counters are dropped. A rejected or later fingerprint changes nothing. |
| AggregatorModel.Aggregator.HandleEvent | privcount/data_collector.py:799-836 | Without counters it returns False and changes nothing. Otherwise it records the event time (for events of at least two fields) and acts as EventOutcome. |
| AggregatorModel.Aggregator.Dispatch | privcount/data_collector.py:811-836 | Dispatches on the event code to the matching handler. A known code with the wrong field count returns False, and an unknown code returns True without changes; the result and state are those of EventOutcome. |
| AggregatorModel.Aggregator.HandleBytesEvent | privcount/data_collector.py:841-857 | The new state and result are those of BytesEvent. |
| AggregatorModel.Aggregator.HandleStreamEvent | privcount/data_collector.py:862-1000 | The new state and result are those of StreamEvent. |
| AggregatorModel.Aggregator.CountStream | privcount/data_collector.py:878-999 | The new state is that of a counted stream (CountedStream). |
| AggregatorModel.Aggregator.IncrementStream | privcount/data_collector.py:886-992 | The counter log grows by the stream's twelve increments, then the traffic-model update. |
| AggregatorModel.Aggregator.HandleCircuitEvent | privcount/data_collector.py:1060-1222 | The new state and result are those of CircuitEvent. |
| AggregatorModel.Aggregator.HandleEntryCircuit | privcount/data_collector.py:1075-1118 | The new state and result are those of EntryCircuit. |
| AggregatorModel.Aggregator.IncrementEntryActive | privcount/data_collector.py:1084-1093 | Makes the active-circuit increments, and reports whether the ratio raises. |
| AggregatorModel.Aggregator.HandleExitCircuit | privcount/data_collector.py:1120-1222 | The new state and result are those of ExitCircuit. |
| AggregatorModel.Aggregator.IncrementExitCircuit | privcount/data_collector.py:1123-1210 | Makes the exit increments, and reports whether the circuit is known. |
| AggregatorModel.Aggregator.IncrementActiveExit | privcount/data_collector.py:1139-1203 | Makes the active exit circuit's increments, including each class block. |
| AggregatorModel.Aggregator.IncrementClassCircuit | privcount/data_collector.py:1160-1203 | Makes one class's block of increments. |
| AggregatorModel.Aggregator.HandleConnectionEvent | privcount/data_collector.py:1227-1245 | The new state and result are those of ConnectionEvent. |
| AggregatorModel.Aggregator.DoRotate | privcount/data_collector.py:1247-1294 | Without counters it raises AttributeError before changing anything. Otherwise it appends the rotation increments in the loop's order, so EntryClientIPCount grows by the evicted window's size. The current window becomes the previous one, the current window empties, the rotation time is now, and num_rotations rises by one. |
| AggregatorModel.Aggregator.IncrementClientTotals | privcount/data_collector.py:1278-1286 | Makes the three unique-client totals of a rotation. |
| AggregatorModel.RelayOptsOut | privcount/data_collector.py:503-524 | A relay whose fingerprint has no noise weight has its next event refused (False), and stopping returns no counts. |
| Collector.ShareKeeperCheckAsWritten | privcount/data_collector.py:185-203 | As written, the only exception the check raises is the KeyError of set.remove. |
| Collector.CheckShareKeepersAsWritten | privcount/data_collector.py:185-203 | The loop with `remove` as written computes ShareKeeperCheckAsWritten. |
| Collector.UnexpectedDigestRaises | privcount/data_collector.py:195-199 | One unexpected digest raises KeyError as written, and the corrected check refuses it. |
| Collector.CheckShareKeepers | privcount/data_collector.py:185-203 | The corrected loop accepts iff the requested digests are distinct and are exactly the expected ones. |
| Collector.ShareKeeperChecksAgree | privcount/data_collector.py:185-203 | The as-written check raises exactly when some requested digest is not expected or is requested twice, and then the corrected check refuses. Where it returns, its answer is the corrected check's. |
| Collector.ShareKeeperCount | privcount/data_collector.py:185-203 | An accepted start names exactly as many share keepers as are configured. |
| Collector.DataCollector.constructor | privcount/data_collector.py:40-45 | No aggregator, nothing pending, no expected start time. |
| Collector.DataCollector.DoStart | privcount/data_collector.py:158-244 | Corrected (share keeper check of Findings row 2): shares come back iff share keepers are named, the counters are accepted, no aggregator exists, and the share keepers are exactly the configured ones. A refused start changes nothing but start_config. An accepted one returns one share per share keeper and leaves a fresh, pending, idle aggregator due at now + defer_time. |
| Collector.DataCollector.LaunchAggregator | privcount/data_collector.py:207-230 | Creates the aggregator, marks it pending, sets the expected start time, and detaches its shares. |
| Collector.DataCollector.StartAggregatorDeferred | privcount/data_collector.py:246-253 | A pending aggregator is started and no longer pending. Otherwise nothing changes. |
| Collector.DataCollector.DoStop | privcount/data_collector.py:261-287 | Corrected: a pending aggregator is discarded without counts. A running one is stopped and its counts returned. Afterwards there is no aggregator and no expected start time. |
| Collector.DataCollector.DoStopAsWritten | privcount/data_collector.py:261-287 | As written: stopping while pending raises AssertionError and leaves the aggregator in place. Otherwise it behaves as DoStop. |
| Collector.StopWhilePendingAsWritten | privcount/data_collector.py:180-181 | do_start, do_stop while pending, then do_start again: the stop raises AssertionError and the second start is refused. |
| Collector.StopWhilePending | privcount/data_collector.py:261-287 | With the corrected do_stop, the same sequence stops cleanly and the second start succeeds. |
| Collector.OneKeeperFits | privcount/data_collector.py:185-203 | A one-share-keeper command whose digest is the configured one passes the check. |
| Collector.OptOutRound | privcount/data_collector.py:158-287 | A full round for a relay without a noise weight: the start returns its share, the first event is refused, and the stop returns no counts. |

## Left out

- The Twisted plumbing is not modelled: the reactor, SSL connections to the tally server, the control-port protocol, LoopingCall and deferLater, and errorCallback. A timer firing is a method call, and `time()` is a parameter. `check_aggregator`, `get_context`, `get_status` and `refresh_config` are not modelled.
- The counter internals are not modelled (SecureCounters' modular arithmetic, blinding-share generation, noise). The counters are a log of increments, and blinding shares are a set of share-keeper ids.
- The encryption and encoding of shares is left out (b64decode, public-key digests, encrypt, the `dc_name` field). A share keeper's public key is given directly as its digest.
- `check_start_config` and `check_stop_config` are left out. The first becomes a boolean in the start command. For the second, do_stop returns the counts themselves.
- The TrafficModel is left out. Its update is an opaque increment carrying the stream's start time and byte samples.
- The noise weight lookups `has_noise_weight` and `get_noise_weight` are a map from an optional fingerprint to a weight.
- Logging and the getters are not modelled, except get_tor_port (Identity.JoinPorts and the Join lemmas).
- Classifier.EncodeRatio: the floating-point log2 value is also kept symbolically, as the quotient whose log it is, not computed.
- Classifier.InterStreamCreationTimes: Python sorts `start_times` in place. The model sorts a value (`SortTimes`). The caller's list is a fresh concatenation except in the per-class calls, where the sort reorders a stored list that is purged right afterwards.
- AggregatorModel.Aggregator.DoRotate: the order in which Python iterates over a dict is abstracted as a ghost enumeration of the window's keys. Every property is proved for every order.
- AggregatorModel.Aggregator.IncrementClassCircuit: it computes a class's gaps before making the class's two counts. The emitted increments are the same sequence.
- Floating point is not modelled. Event times and lifetimes are exact reals: Python's `float()` rounding, and the `nan` and `inf` it accepts, are left out, as is the rounding of `end - start` and of the inter-stream gaps.
- Classifier.EncodeRatio: it works on the exact quotient of the integer counts, not on the doubles that `float()` makes of them (1033-1034). Counts above 2^53 can round to equal doubles, so for inval = 2^53 and outval = 2^53 + 1 the source bins 0.0 where the model's sign is positive. Counts beyond the double range, where `float()` raises OverflowError, are not modelled.
- The pickled-state code paths and the unused control-password lookup are left out.

## Findings

| source | as written | input that shows it | evidently intended | confidence | as-written member | corrected member |
|---|---|---|---|---|---|---|
| privcount/data_collector.py:273-275 | do_stop asserts that no aggregator exists while a start is pending. do_start always creates the aggregator (212) before marking it pending (225), so the assertion fails. The pending flag is already cleared and the aggregator is left behind, so do_start is refused (180-181) until another do_stop, now taking the `elif` branch (277-281), stops and clears the leftover aggregator. | do_start with valid share keepers, then do_stop before the defer time passes | a pending aggregator is discarded without counts, and a new round can start | not executed | Collector.DataCollector.DoStopAsWritten, Collector.StopWhilePendingAsWritten | Collector.DataCollector.DoStop, Collector.StopWhilePending |
| privcount/data_collector.py:195-203 | When a requested digest is not expected, digest_error is set, but `expected_sk_digests.remove` then raises KeyError. The same happens for a digest requested twice. The `return None` for digest_error is never reached for these inputs. | configured digests {d1}; start command naming one share keeper whose key digest is d2 | the start is refused (None) | not executed | Collector.ShareKeeperCheckAsWritten, Collector.CheckShareKeepersAsWritten, Collector.UnexpectedDigestRaises | Collector.ShareKeeperCheck, Collector.CheckShareKeepers, Collector.ShareKeeperChecksAgree, Collector.DataCollector.DoStart |
