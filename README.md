# ThermalDAQ core in Dafny

ThermalDAQ logs thermal measurements from several instruments at once:
- a TCM multi-drop bus of temperature controllers, driven over a serial port;
- a FluxDAQ heat-flux logger, which reports comma-separated lines;
- a TCHAT thermocouple board, driven through the `smtc` command-line tool.

Each instrument runs a reader thread that pushes timestamped readings onto its own queue. Once per cycle a collector drains every queue up to the cycle's timestamp and averages what it drained, ignoring NaN. It keeps the latest values in three views: per queue, as one row across all headers, and by header name. It can also log that row.

This project models the part of that system that is logic rather than I/O:
- the instrument drivers' configuration checks;
- the header and channel tables those drivers build;
- the command framing and reply decoding of one read or write cycle;
- the queues and the collector.

It proves what those operations promise.

Modules, one per source file, plus two helper modules:
- `Wrappers`: `Option`, `Result` and `Outcome` (pass, or fail with an error).
- `Text`: the parts of Python's `str.split`, `str.join`, `strip`, `int()`, `float()` and `str(int)` that the drivers use, with their round trips. It also holds the sequence helpers the drivers share: `Distinct`, `DistinctKeys` (a dict's keys) and `Map`.
- `Base` (devices/Base.py): the `Device` constructor contract, the reading type `Value` (a number or NaN) and the exceptions (`Fault`).
- `Tcm` (devices/TCM.py): slot keys `attr@addr`, the deduplicated header and its index map, the timing floor, the read/write command framing, reply decoding, error codes, and write-key resolution. The driver is class `Tcm.TCM`.
- `Data` (utils/data.py): the sample queue, enqueue and drain, the NaN-ignoring column mean, and class `Data.DataCollector` with its three stores and its CSV log.
- `FluxDaq` (devices/FluxDAQ.py): the header, the active-port mask and the s-value list built from the sensor map. Also the decoding of one report line and the 80 % precheck rule. The driver is class `FluxDaq.FluxDAQ`.
- `Smtc` (devices/SMTC.py): the stack and sensor checks, the thermocouple type codes, the header and the per-channel read table. Also one reading round, scaled by the channel coefficients. The driver is class `Smtc.TCHAT`.

Modelling choices:
- Serial ports and the `smtc` tool are replaced by values:
  - what a cycle transmits is returned (`sent`), as command strings or tool argument lists;
  - what the device or tool answered is an input string.
- Times are integer milliseconds.
- Readings are `real`; NaN is the `NaN` constructor of `Value`.
- A constructor that can raise is split in two:
  - a `Configure` method (or a `Create` method for the collector) returns `Result<Setup, Fault>` and reports the first exception in source order;
  - the class constructor stores an accepted setup.
- Sensor maps are sequences of `(id, record)` pairs in configuration order. JSON keys that may be missing or null are `Field` values.

## Model

| member | source | states |
|---|---|---|
| Base.InitDevice | devices/Base.py:10-16 | The device is created exactly when the sampling time is positive. Name and sampling time are kept as given and the header starts empty. Otherwise the assertion on the sampling time fails. |
| Tcm.ErrorCodeReport | devices/TCM.py:9-19 | Codes 0..8 map to their table text, and exactly those codes avoid "Unknown error code". Code 1 is the only one reporting "Command executed properly", and code 8 the only one reporting "Save executed properly". |
| Tcm.ExtractErrorCode | devices/TCM.py:21-25 | A line not starting with "CMD:" yields no code, and only such lines do. A code that is read is a single digit 0..9. |
| Tcm.ExtractOfCodeLine | devices/TCM.py:21-25 | A device code line `CMD:ATTR=CODE@ADDR`, followed by anything, gives back its code. |
| Tcm.Dedup | devices/TCM.py:71-76 | The header holds exactly the keys given, with no repeats. |
| Tcm.DedupOfDistinct | devices/TCM.py:71-76 | A key list without repeats is its own header. |
| Tcm.DedupKeepsPrefix | devices/TCM.py:71-76 | The header of the read keys is a prefix of the header of read keys plus write keys: read keys come first. |
| Tcm.HeaderStep | devices/TCM.py:73-76 | One key of the header loop: a new key is appended and indexed at the end, and a repeated key changes nothing. |
| Tcm.IndexMapSnoc | devices/TCM.py:75-76 | Appending a new key, and mapping it to the old header length, keeps headermap the exact index map of the header. |
| Tcm.ParseSlot | devices/TCM.py:82-85 | A key that does not split into exactly two parts at '@' raises "Invalid read key format". |
| Tcm.ParseSlotShape | devices/TCM.py:82-87 | A key that parses is the attribute, then its only '@', then the integer text of the address. |
| Tcm.ParseSlotOfSlotKey | devices/TCM.py:82-87 | Parsing `attr@addr` for an attribute without '@' gives back (attr, addr). |
| Tcm.BuildHeader | devices/TCM.py:71-76 | Fails with ValueError exactly when some key lacks '@'. Otherwise returns the first-occurrence header and an exact index map. |
| Tcm.SplitAll | devices/TCM.py:80-87 | A split that gets through has one attribute and one address per header key. |
| Tcm.SplitAllAt | devices/TCM.py:80-87 | In a split that gets through, entry i is what key i parses to. |
| Tcm.SplitAllOk | devices/TCM.py:80-87 | The split gets through exactly when every header key parses. |
| Tcm.SplitAllFirstFault | devices/TCM.py:80-87 | The first key that does not parse decides the exception. |
| Tcm.SplitAllStops | devices/TCM.py:80-87 | A split that fails on a prefix of the header fails the same way on the whole header. |
| Tcm.SplitSlots | devices/TCM.py:80-87 | The split loop computes SplitAll. |
| Tcm.CheckTiming | devices/TCM.py:111-115 | Fails exactly when the sampling time is below cmd_gap × slots + 5 ms; equality is accepted. The rest time is non-negative and adds up to the sampling time. |
| Tcm.WriteSlotsValid | devices/TCM.py:89-91 | Looking the write keys up through headermap gives each write key the attribute and address it spells. |
| Tcm.Configure | devices/TCM.py:42-115 | Construction fails exactly when one of its checks fails, with that check's exception, in source order:<br>1. sampling time;<br>2. write values against write keys;<br>3. no write keys in write mode;<br>4. '@' in every key;<br>5. key split;<br>6. device count;<br>7. timing floor.<br>Otherwise the setup has the deduplicated header, its index map, parallel attributes and addresses, the write slots, the distinct-address count and the rest time. |
| Tcm.Assemble | devices/TCM.py:80-115 | Once the header is built, fails exactly on the split, device-count and timing checks. Otherwise it builds the setup as Configure states. |
| Tcm.FrameIsJoin | devices/TCM.py:182 | Lines each closed by `\r` are the lines joined by `\r`, with an empty last piece. |
| Tcm.ReplyLinesOfFrame | devices/TCM.py:182 | Splitting a framed reply on `\r` and dropping the trailing piece gives back the lines. |
| Tcm.DecodeLines | devices/TCM.py:184-185 | Decoding that succeeds gives one value per reply line. |
| Tcm.DecodeReply | devices/TCM.py:181-185 | No data exactly when the reply's line count differs from the slot count. Otherwise one value per slot. |
| Tcm.DecodeLineOfValueLine | devices/TCM.py:184-185 | A value line decodes to its value whenever the address it carries has as many characters as the expected one: the suffix is cut by length, not compared. |
| Tcm.DecodeLinesOfValueLines | devices/TCM.py:184-185 | Value lines that carry their own addresses decode, in order, to their numbers. |
| Tcm.DecodeReplyOfFramedValues | devices/TCM.py:178-185 | A whole read cycle: a reply framed from one value line per slot decodes to those values. |
| Tcm.DecodeLinesStep | devices/TCM.py:184-185 | One line of the decoding loop: a failing line ends the cycle with its fault, and a good one extends the values. |
| Tcm.DecodeInOrder | devices/TCM.py:184-185 | The decoding loop computes DecodeLines. |
| Tcm.SendReads | devices/TCM.py:178-179 | One read request `ATTR?@ADDR\r` per slot, in header order. |
| Tcm.DecodeReplyInOrder | devices/TCM.py:181-185 | The decoding after the requests computes DecodeReply. |
| Tcm.BatchVerdictPassIff | devices/TCM.py:227-233 | A write batch passes exactly when every reply line carries code 1 or 8. A rejection names the last slot sent, not the line that carried the code. |
| Tcm.SingleVerdict | devices/TCM.py:212-216 | With the intended check, a single write passes exactly when its reply carries code 1 or 8. |
| Tcm.WriteCmdRejectsExecuted | devices/TCM.py:214 | The check as written rejects the "executed" reply (code 1) that the intended check accepts. |
| Tcm.IndexOf | devices/TCM.py:272-273 | `list.index`: the first position holding the key. |
| Tcm.PlanWritesNamedSlots | devices/TCM.py:247-277 | Whatever branch write_data takes:<br>- it writes exactly the keys the call names, with one value each;<br>- every key is a write key;<br>- each key goes to the attribute and address that the key itself spells. |
| Tcm.UnknownKeyRefused | devices/TCM.py:270-271 | A key outside the write keys is refused with ValueError. |
| Tcm.TCM.constructor | devices/TCM.py:105-108 | Stores an accepted setup. The last-written subset starts as all write keys. |
| Tcm.TCM.ReadData | devices/TCM.py:172-188 | Sends one read request per header slot in header order, then decodes the reply. A decoded reading fits the header. |
| Tcm.TCM.WriteCmd | devices/TCM.py:205-216 | RuntimeError and nothing sent outside write mode. Otherwise one write command, and the reply is judged by Tcm.SingleVerdict: it must carry code 1 or 8. That is the intended check of the TCM.py:214 finding, not the check as written, which rejects every reply. |
| Tcm.TCM.WriteCmds | devices/TCM.py:218-233 | RuntimeError and nothing sent outside write mode. Otherwise one command per position of the shortest list, and the reply judged by the batch check. |
| Tcm.TCM.WriteData | devices/TCM.py:239-277 | RuntimeError outside write mode. A refused selection sends nothing and keeps tmp_write_*. Otherwise it sends the planned batch and re-targets tmp_write_* exactly when the keys are a new subset; the re-target happens whatever the reply. |
| Data.Enqueue | utils/data.py:14-19 | Appends one entry at the back of the queue and changes nothing else. |
| Data.StampOf | utils/data.py:16-19 | A missing or zero timestamp is replaced by the current time; any other is kept. |
| Data.PendingCount | utils/data.py:28-32 | The longest prefix stamped before t: every entry in it is before t, and the next one, if any, is not. |
| Data.TakePending | utils/data.py:27-32 | Pops exactly that prefix, oldest first, and leaves the rest of the queue as it was. It returns the popped readings without their timestamps. |
| Data.Dequeue | utils/data.py:21-38 | Same queue update. It returns no data exactly when nothing was pending, and otherwise the NaN-ignoring mean of the popped readings. |
| Data.Drained | utils/data.py:33-38 | No data exactly when nothing is stamped before t. |
| Data.EnqueueThenDrain | utils/data.py:14-38 | A reading enqueued on an empty queue comes back whole from a drain after its timestamp. |
| Data.NanMean | utils/data.py:35 | Ragged rows are refused with ValueError, and only they are. Otherwise there is one mean per column. |
| Data.Means | utils/data.py:35 | Entry j is column j's NaN-ignoring mean. |
| Data.NaNLeftOut | utils/data.py:35 | A row that is NaN in a column, inserted anywhere in the drained batch, does not move that column's mean. |
| Data.NaNRowLeftOut | utils/data.py:35 | Such a row adds nothing to the column's sum or to its count of numbers. |
| Data.ColumnSumAtLeast | utils/data.py:35 | A lower bound on a column's numbers, counted once per number, bounds their sum from below. |
| Data.ColumnSumAtMost | utils/data.py:35 | The same from above. |
| Data.MeanWithinBounds | utils/data.py:35 | A column mean lies between any lower and upper bound of the column's numbers. |
| Data.NanMeanOfOneRow | utils/data.py:33-35 | The mean of a single reading is that reading. |
| Data.ConcatSplit | utils/data.py:94-96 | header_row splits at any header boundary into the rows before and after it. |
| Data.StartOffsets | utils/data.py:97 | The corrected offsets: header i starts at the total length of the headers before it. |
| Data.StartOffsetsLocate | utils/data.py:97 | With those offsets, column j of header i is header_row's entry at header i's offset plus j. |
| Data.StartOffsetsOrdered | utils/data.py:97 | With those offsets, header i ends at or before the start of every later header: the queues' slices of the row do not overlap. |
| Data.StartOffsetsAsWrittenMisplaces | utils/data.py:97 | The offsets as written, for three one-column headers, are [0, 1, 1]. The third queue's column lands on the second queue's name. |
| Data.HeaderInRow | utils/data.py:94-100 | Every name of every header is a key of the latest dict. |
| Data.SliceAssign | utils/data.py:155-158 | A slice assignment with as many values as slice positions leaves the length alone. It puts the values in the slice and leaves every other position alone. |
| Data.ZipUpdate | utils/data.py:163 | `dict.update(zip(...))` adds exactly the keys zipped with a value, up to the shorter list. |
| Data.ZipUpdateValues | utils/data.py:163 | With no repeated key, each zipped key maps to its own value and every other key keeps its value. |
| Data.CollectCarriesForward | utils/data.py:183-190 | After a cycle, a queue's latest reading is either the mean just drained from it or, when nothing was pending, the one it had: carry-forward. |
| Data.CollectKeepsSlot | utils/data.py:183-190 | Queues later in the loop do not touch an earlier queue's slot. |
| Data.CollectStep | utils/data.py:183-190 | One queue of the loop:<br>- a failing mean ends the cycle;<br>- nothing pending leaves the state alone;<br>- a mean updates it. |
| Data.CollectFrom | utils/data.py:183-190 | A loop that gets through keeps one slot per queue. |
| Data.DrainedWidth | utils/data.py:33-35 | A mean drained from readings of width w has width w. |
| Data.CollectKeepsWidth | utils/data.py:183-190 | When every queued reading has one value per name of its queue's header, a cycle that gets through keeps the latest row at one cell per header name, the length save_data checks at data.py:140. |
| Data.CollectKeepsSilentSlice | utils/data.py:183-190 | Under the same condition, a queue with nothing pending keeps its own cells of the latest row through the cycle: no other queue writes into its slice, so its last values are carried forward. |
| Data.Remaining | utils/data.py:184 | What each queue holds after the cycle is its entries from the first one not before t. |
| Data.SaveFault | utils/data.py:136-141 | save_data passes its checks exactly when there is a writer, the row is non-empty and the row has one cell per header name. |
| Data.DataCollector.Create | utils/data.py:86-100 | Fails on mismatched queue and header counts (assertion), on no queues (index), and on a non-empty first queue (len() of a Queue). Otherwise the collector is built. |
| Data.DataCollector.constructor | utils/data.py:92-100 | Starts with:<br>- header_row as the concatenated headers;<br>- one None per queue and per header name;<br>- the dict keyed by exactly the header names;<br>- the log holding the header line when saving. |
| Data.DataCollector.UpdateQueueData | utils/data.py:152-153 | Sets queue i's latest reading and nothing else. |
| Data.DataCollector.UpdateArrayData | utils/data.py:155-158 | Slice-assigns the reading at queue i's offset and changes nothing else. The offset is Data.StartOffsets, the corrected array_start_idx of the data.py:97 finding. With it, a full reading lands each value under its own name. |
| Data.DataCollector.UpdateDictData | utils/data.py:160-163 | Updates the dict with queue i's names zipped with the reading and changes nothing else. |
| Data.DataCollector.UpdateData | utils/data.py:165-168 | Applies all three updates for the same queue. |
| Data.DataCollector.GetLatestData | utils/data.py:170-171 | Returns the latest row and changes nothing. |
| Data.DataCollector.GetLatestDictData | utils/data.py:173-174 | Returns the latest dict, keyed by exactly the header names, and changes nothing. |
| Data.DataCollector.SaveData | utils/data.py:135-146 | Raises on a missing writer, an empty row or a length mismatch, and logs nothing then. Otherwise it appends one timestamped row. |
| Data.DataCollector.DrainOne | utils/data.py:184-190 | Drains queue i up to t and applies its mean when there is one. Otherwise the state is unchanged. |
| Data.DataCollector.DrainStep | utils/data.py:183-190 | One pass of the queue loop keeps the loop invariant or reports the cycle's fault. |
| Data.DataCollector.DrainAll | utils/data.py:183-190 | The queue loop ends in the state CollectFrom gives, or with its fault. Every queue is left holding what Remaining says. When the row had one cell per header name and every queued reading fits its header, it still has after the loop. |
| Data.DataCollector.CollectData | utils/data.py:176-193 | The queue loop, then, when saving, the latest row logged or save_data's exception. When the row had one cell per header name, every queued reading fits its header and the header row is not empty, a saving cycle that gets through logs the row. |
| FluxDaq.Find | devices/FluxDAQ.py:40-41 | A record is found exactly for a configured id, and it is that id's record. |
| FluxDaq.MaxId | devices/FluxDAQ.py:23-26 | report_num_sensors is a configured id, and no configured id is larger. |
| FluxDaq.PortOfAccepts | devices/FluxDAQ.py:41-50 | A configured record is accepted exactly when it is not falsy and, with q on, has a positive s_value. An accepted record always yields T, and yields q exactly when q is on, with its s value. |
| FluxDaq.PortsUpTo | devices/FluxDAQ.py:39-50 | The slot loop that gets through gives one port per slot 1..n. |
| FluxDaq.ErrPersists | devices/FluxDAQ.py:39-50 | Once a slot raises, every longer loop raises the same exception. |
| FluxDaq.PortsUpToMeaning | devices/FluxDAQ.py:39-50 | Slot id is unused exactly when id is not configured. Otherwise it is what its record says. |
| FluxDaq.ActivePorts | devices/FluxDAQ.py:35 | active_ports has two ports per slot. |
| FluxDaq.SList | devices/FluxDAQ.py:36 | s_list has one entry per slot. |
| FluxDaq.ActivePortsAt | devices/FluxDAQ.py:46-50 | Port 2(id-1) is q of slot id and port 2(id-1)+1 is its T. The s_list entry is the s value with q, inf otherwise. |
| FluxDaq.ActiveNamesCount | devices/FluxDAQ.py:35-50 | The active port names are as many as the active ports. |
| FluxDaq.NamesOfIsActiveNames | devices/FluxDAQ.py:39-50 | The header built slot by slot is the list of active port names, in port order. |
| FluxDaq.NamesOfCount | devices/FluxDAQ.py:35-50 | The number of active ports equals the header length. |
| FluxDaq.SlotNamesArePortNames | devices/FluxDAQ.py:47-50 | The names slot n appends are those of its active ports 2n-2 (q) and 2n-1 (T). |
| FluxDaq.ExpectedValid | devices/FluxDAQ.py:21-50 | An accepted configuration satisfies the layout invariant, with report_num_sensors and every id within 1..4. |
| FluxDaq.ExpectedSlot | devices/FluxDAQ.py:35-50 | For each slot of an accepted configuration:<br>- port 2(id-1) is active exactly when id is configured with q on;<br>- port 2(id-1)+1 is active exactly when id is configured;<br>- s_list holds the positive s_value exactly for the q slots, and inf otherwise. |
| FluxDaq.Configure | devices/FluxDAQ.py:13-79 | Construction raises the first failing check in source order:<br>1. DAQ type;<br>2. sampling time;<br>3. at least one sensor;<br>4. ids within 1..4;<br>5. slot records;<br>6. the precheck of precheck_steps steps, of any sign, over the lines polled (FluxDAQ.py:78-79), with FluxDaq.PrecheckVerdict's exception.<br>Otherwise it sets the fields, which satisfy the layout invariant. |
| FluxDaq.SlotStep | devices/FluxDAQ.py:39-50 | One more slot extends the ports, the header, the mask and s_list of the slots before it. |
| FluxDaq.Falses | devices/FluxDAQ.py:35 | `[False] * n`. |
| FluxDaq.Infs | devices/FluxDAQ.py:36 | `[inf] * n`. |
| FluxDaq.SlotsStep | devices/FluxDAQ.py:39-50 | After the pass for slot id, slots 1..id of the in-place mask and s_list are filled and the tail is untouched. |
| FluxDaq.FillUnused | devices/FluxDAQ.py:39-40 | The pass for an unconfigured id changes nothing. |
| FluxDaq.Slot | devices/FluxDAQ.py:41-50 | The pass for a configured id raises the record's exception or sets the id's ports, s_list entry and header names. |
| FluxDaq.Slots | devices/FluxDAQ.py:35-50 | The in-place slot loop computes LayoutOf. |
| FluxDaq.FilledStart | devices/FluxDAQ.py:35-36 | Before the loop, the mask is all False and s_list all inf. |
| FluxDaq.FilledRoom | devices/FluxDAQ.py:39-50 | Inside the loop, slot id's ports and s_list entry are still untouched. |
| FluxDaq.SlotFails | devices/FluxDAQ.py:41-45 | A refused record ends the whole loop with its exception. |
| FluxDaq.FilledDone | devices/FluxDAQ.py:39-50 | After the loop, the layout is LayoutOf. |
| FluxDaq.FieldValue | devices/FluxDAQ.py:119-122 | A field is a number exactly when float() accepts it; otherwise it is NaN. |
| FluxDaq.KeepActiveLabeled | devices/FluxDAQ.py:115-122 | The kept fields are as many as the active ports. Reading k is the field of the port that header name k stands for. |
| FluxDaq.KeepActiveNoNaN | devices/FluxDAQ.py:115-122 | Active fields that all parse give a reading without NaN. |
| FluxDaq.WellFormedDecodes | devices/FluxDAQ.py:91-93 | A line the precheck counts is one read_data decodes without NaN. |
| FluxDaq.Received | devices/FluxDAQ.py:84-96 | No more lines are received than steps polled. |
| FluxDaq.RatioBelow | devices/FluxDAQ.py:99 | received / steps < 0.8 without the division, for steps of either sign. |
| FluxDaq.PrecheckVerdict | devices/FluxDAQ.py:99-100 | No steps divides by zero. With positive steps it passes exactly when received ≥ 80 % of steps. Negative steps always fail. |
| FluxDaq.ReceivedAll | devices/FluxDAQ.py:86-96 | When every step delivers a well-formed line, every step counts. |
| FluxDaq.PrecheckAllReceived | devices/FluxDAQ.py:82-100 | Such a precheck passes. |
| FluxDaq.FluxDAQ.constructor | devices/FluxDAQ.py:28-37 | Stores an accepted setup. |
| FluxDaq.FluxDAQ.ReadData | devices/FluxDAQ.py:110-124 | Returns None exactly when the line does not have two fields per slot. Otherwise the active fields in port order, NaN for a field that is not a number. The reading fits the header, and value k belongs to the port header name k stands for. |
| FluxDaq.PrecheckRun | devices/FluxDAQ.py:82-100 | The precheck loop over range(precheck_steps), one polled line per step and none for a step count that is not positive, counts the well-formed lines and applies the 80 % rule: its verdict is PrecheckVerdict of that count and the step count, so zero steps divides by zero and negative steps fail. |
| FluxDaq.FluxDAQ.Precheck | devices/FluxDAQ.py:82-100 | The precheck verdict for any precheck_steps, negative included, over the lines polled. |
| Smtc.TypeCode | devices/SMTC.py:13-22 | A type name has a code exactly when it is one of B, E, J, K, N, R, S, T, and the code is its position. |
| Smtc.SensorTypeCode | devices/SMTC.py:69-71 | A missing type is K (code 3). A null or unknown type raises ValueError. A known one gets its code. |
| Smtc.ListedStacks | devices/SMTC.py:46-47 | A listing without a second line raises IndexError. |
| Smtc.ChannelOf | devices/SMTC.py:74-87 | Accepted exactly when q is off or s_value is present and positive. A missing s_value raises KeyError and a non-positive one ValueError. With q on: readmv, coefficient 1000 / s_value, label `q{id}@TCHAT{stack}`. Otherwise: read, coefficient 1, label `T{id}@TCHAT{stack}`. |
| Smtc.SensorChannel | devices/SMTC.py:74-87 | The record checks compute ChannelOf. |
| Smtc.Walk | devices/SMTC.py:67-87 | A sensor loop that gets through sends one type command and configures one channel per record. |
| Smtc.WalkChannels | devices/SMTC.py:67-87 | In a loop that gets through, channel i comes from record i, whose type command carries its type code. |
| Smtc.WalkStops | devices/SMTC.py:67-87 | Once a prefix raises, the whole loop raises the same exception, with the same commands sent. |
| Smtc.WalkIds | devices/SMTC.py:67-87 | The channels' ids are the records' ids, in configuration order. |
| Smtc.TableKeys | devices/SMTC.py:84-87 | sensors2read has exactly the configured ids as keys. |
| Smtc.TableAt | devices/SMTC.py:84-87 | With distinct ids, each id maps to its own read entry. |
| Smtc.AscendingUpTo | devices/SMTC.py:56 | `sorted(ids)`: members of the set, within range, strictly ascending. |
| Smtc.AscendingUpToComplete | devices/SMTC.py:56 | Every member within range is listed. |
| Smtc.AscendingUpToAbove | devices/SMTC.py:56 | Past the largest member the listing does not grow. |
| Smtc.AscendingUpToPrefix | devices/SMTC.py:56 | The listing up to n is a prefix of the listing up to any larger bound. |
| Smtc.AscendingExample | devices/SMTC.py:56 | The ids {1, 2, 3} sort to [1, 2, 3]. |
| Smtc.Validate | devices/SMTC.py:45-58 | Passes exactly when:<br>- the stack is within 0..7 and is in the tool's listing;<br>- the sampling time is positive;<br>- there is a sensor;<br>- every id is within 1..8.<br>Out of range raises the stack assertion. |
| Smtc.BuildLaid | devices/SMTC.py:60-87 | A board built from distinct ids within 1..8 sends one type command per sensor, satisfies the layout invariant, and reads in configuration order. |
| Smtc.ChannelsLaid | devices/SMTC.py:74-87 | Channels with distinct ids, each labelled by its kind, give a header, a table keyed by exactly those ids, and ids within 1..8. |
| Smtc.ChannelLabel | devices/SMTC.py:74-87 | Channel i's label is the one its table entry calls for. |
| Smtc.BuildChannel | devices/SMTC.py:67-87 | For record i of an accepted board:<br>- its type command carries its type code;<br>- header[i] and the table entry of its id are what ChannelOf gives that record. |
| Smtc.Configure | devices/SMTC.py:45-87 | Construction: the checks, then the sensor loop. It sends the type commands and raises the first exception, or its fields satisfy the layout invariant. |
| Smtc.ConfigureSensors | devices/SMTC.py:67-87 | The sensor loop sends Walk's commands. It raises Walk's exception, or returns the labels, the table and the order of Walk's channels. |
| Smtc.SensorStep | devices/SMTC.py:67-87 | One record: its type is set, then its channel is added or its exception raised. |
| Smtc.ReadCmds | devices/SMTC.py:114-118 | One tool command per channel, in the given order, with that channel's command. |
| Smtc.Scaled | devices/SMTC.py:114-120 | A round that gets through has one value per channel. |
| Smtc.ScaledOk | devices/SMTC.py:120 | A round gets through exactly when every output is a number; otherwise float() raises ValueError. |
| Smtc.ScaledValues | devices/SMTC.py:120 | Value i is output i times channel i's coefficient. |
| Smtc.StoppedAtOutputs | devices/SMTC.py:114-120 | A round that raised stopped at the first output that is not a number. |
| Smtc.ReadRound | devices/SMTC.py:114-120 | The reading loop computes Scaled. When it gets through it sent every channel's command. When it raises it sent the commands up to the offending channel. |
| Smtc.RoundDone | devices/SMTC.py:114-120 | A loop through every channel is the whole round. |
| Smtc.RoundStopped | devices/SMTC.py:114-120 | A loop stopped at a non-number is where the round raises. |
| Smtc.ReadOrderAsWrittenMislabels | devices/SMTC.py:114 | As written, on the example board the second read is channel 2 (plain), logged under header q3. |
| Smtc.ExampleBuild | devices/SMTC.py:128-138 | The example sensors build a board read in the order 1, 3, 2, with q3 second and channel 2 plain. |
| Smtc.ExampleKeys | devices/SMTC.py:56-64 | A board read in the order 1, 3, 2 has table keys {1, 2, 3} and sensor_ids [1, 2, 3]. |
| Smtc.ExampleWalks | devices/SMTC.py:128-138 | The sensor loop gets through the example sensors. |
| Smtc.TCHAT.constructor | devices/SMTC.py:60-64 | Stores an accepted setup. |
| Smtc.TCHAT.ReadData | devices/SMTC.py:111-122 | Reads one channel per header column, in header order. Value i is channel i's output times its coefficient. A non-number raises ValueError after the commands up to that channel. |

## Left out

- Physical I/O is not modelled:
  - serial ports (open, write, readline, inWaiting);
  - `subprocess.run` of the `smtc` tool (the `-h` probe included);
  - `input()` prompts;
  - the FluxDAQ start-up handshake (type byte, sensor count, s values).

  Commands sent are returned, and replies are inputs.
- The I/O-bound prechecks are left out:
  - TCM precheck_read and precheck_write;
  - the TCHAT 0 mV inspection.

  Only the FluxDAQ 80 % rule is kept, over the lines polled.
- Sleeps, clocks and `wait_until_time` are left out. The current time and the window boundary are parameters.
- Concurrency is left out:
  - the TCM lock: each cycle is one sequential method;
  - the reader threads and their loop (`read_device_data`, `device_read_thread`, `devices_read_threads`).
- File handling is left out:
  - `initiate_writer` (paths, overwrite prompt);
  - the CSV writer, flushing and `close_writer`.

  The log is a sequence of rows; the date format of the time column is not modelled.
- Floating point is left out: values are exact reals, with no inf or NaN arithmetic, rounding or exponent notation.
  - The 0.005 s margin is 5 ms.
  - `float()` accepts optionally signed decimal text without exponents, inf or nan.
  - `int()` and `float()` accept only ASCII digits and ASCII whitespace. Python's `_` digit separators, other Unicode digits and Unicode whitespace are not modelled.
  - `1000 / s_value` is exact.
- Python's dynamic typing is left out:
  - single-value coercion of `read_keys`, `write_keys` and `write_vals` (TCM.py:56-61);
  - the `isinstance` checks on keys, names and sampling time;
  - `s_value` of a non-numeric type;
  - numpy arrays as write data.
- Sensor ids are integers. The JSON string keys and their `int()` conversion are not modelled.
- A TCHAT record that is `null` is not modelled.
- Data.DataCollector.Create: requires the queues to be distinct objects. The source allows one queue passed twice; the model does not cover that aliasing.
- Data.DataCollector.DrainAll: when a mean fails part-way, states only the fault, not the state left by the queues drained before it.
- Data.DataCollector.CollectData: likewise on a failing mean.
- Data.DataCollector.UpdateArrayData: writes queue i at Data.StartOffsets, the running sum, which is the corrected half of the utils/data.py:97 finding. From the third queue on, the source's array_start_idx puts a reading in other cells (Data.StartOffsetsAsWritten); the model does not follow it there.
- Data.DataCollector.UpdateData: uses the same corrected offsets, through UpdateArrayData.
- Data.DataCollector.DrainOne: uses the same corrected offsets, through UpdateData.
- Data.DataCollector.DrainAll: uses the same corrected offsets, through DrainOne and Data.CollectFrom.
- Data.DataCollector.CollectData: uses the same corrected offsets, through DrainAll.
- Data.DataCollector.UpdateQueueData, UpdateArrayData and UpdateDictData: require the queue index to be in range. An out-of-range index raises IndexError in the source, or appends past the end for the array slice; this is not modelled.
- UnicodeDecodeError from `.decode()` is not modelled: replies are already text.
- The constructors' `print` output is not modelled.
- main.py, devices/helpers.py and utils/__init__.py are not part of this model.
- `Device.precheck` and `Device.read_data` are abstract. Each driver's own versions are modelled. The reading contract they share is `Base.FitsHeader`.
- Smtc.TCHAT.ReadData: all tool outputs of a round are passed in up front. The source runs the tool once per channel, so a command after the failing channel is not run; `sent` states that. It also reads the channels in header order, the corrected half of the devices/SMTC.py:114 finding. The source reads sensor_ids in ascending order (Smtc.ReadOrderAsWrittenMislabels); the model does not follow it there.

## Findings

| source | as written | input that shows it | evidently intended | confidence | as-written member | corrected member |
|---|---|---|---|---|---|---|
| devices/TCM.py:214 | `err_code != 1 or err_code != 8` holds for every code, so write_cmd raises AttributeError on every reply | the reply `CMD:attr=1@3\r`, code 1, "Command executed properly" | a reply with code 1 or 8 passes, as write_cmds and precheck_write check it | high; not executed | Tcm.WriteCmdRejectsExecuted | Tcm.SingleVerdict |
| utils/data.py:97 | array_start_idx is 0 followed by each previous header's own length, not the running sum | three one-column headers: offsets [0, 1, 1], so the third queue's value overwrites the second queue's cell | header i starts at the total length of the headers before it: [0, 1, 2] | high; not executed | Data.StartOffsetsAsWrittenMisplaces | Data.StartOffsets |
| devices/SMTC.py:114 | read_data reads channels in ascending id order, while the header lists them in configuration order | the example sensors 1, 3, 2 (SMTC.py:128-138): the second value is channel 2's plain temperature, logged under `q3@TCHAT0` | values in header order, so value i belongs to header i | medium; not executed | Smtc.ReadOrderAsWrittenMislabels | Smtc.TCHAT.ReadData |
