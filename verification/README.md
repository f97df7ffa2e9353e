# gputop web client core, modelled in Dafny

This project models the core of `gputop.js`, the JavaScript client of GPU Top.
The client runs in a browser or under node.js and talks to a gputop server
over a websocket.

What the model covers:

- **Metric sets.** The client keeps a table of OA (observation architecture)
  metric sets, keyed by hardware-configuration GUID, and records which of
  them the kernel supports.
- **Streams.** It opens, closes, pauses and resumes a metric's sample stream.
- **Two handle tables.** One routes inbound frames from a server handle to
  the stream's owner. The other routes decoder callbacks from a native
  decoder stream to its metric.
- **Requests.** Each request carries a random version-4 UUID. The
  continuation to run when the reply arrives is filed under that UUID.
- **Inbound frames.** Frames are dispatched by their message type (perf
  sample, protobuf message, i915 OA sample).
- **Counters.** Decoded counter readings are aggregated into each counter's
  latest value, its inferred maximum and a bounded update history.
- **Replay history.** A metric keeps recent raw OA samples so that a paused
  metric can replay them into a fresh decoder stream.
- **Smaller parts.** The tracepoint `format` parser, the per-process
  records, stream event listeners, and `dispose`.

The client is modelled as one immutable `Session` record (module `Sessions`).
Every operation is a pure function from one session to the next. Everything
the client asks of the outside world goes into an append-only effect log,
`out`. That covers requests sent, events dispatched on stream objects, and
calls into the native decoding engine.

Values the client draws from outside are parameters of the step that needs
them. The request UUID comes with a freshness precondition (`uuid !in
s.pending`). So does the pointer the native engine hands back for a new
decoder stream (`FreshPtr`). A reply's continuation is a datatype tag, run
by `RunCont` when the reply is resolved.

Each JavaScript metric object gets a session-unique object id (`oid`). A
continuation names the object it was created for, and a continuation whose
object has since been replaced (after `dispose`) does nothing.

Where the client throws, the model returns a `threw`/`ok` flag or leaves the
state unchanged, as the exception would.

Module layout:

| file | module | what |
|---|---|---|
| base.dfy | Base | `Option`, bytes, identifiers |
| strings.dfy | Strings | `split`, `join`, `trim`, `slice`, `Number()` on decimal text |
| counter.dfy | Counters | `Counter`, unit rules, `append_counter_data` |
| history.dfy | History | the replay history, as written and as intended |
| metric.dfy | Metrics | `Metric`, open configuration, `filter_counters` |
| frames.dfy | Frames | websocket frame header |
| rpc.dfy | Rpc | the pending-request table |
| uuid.dfy | Uuids | `generate_uuid` |
| event_target.dfy | EventTargets | listener registration and dispatch |
| process_info.dfy | Processes | `Process_info` and the process table |
| tracepoint.dfy | Tracepoints | `parse_field` / `parse_tracepoint_format` |
| session.dfy | Sessions | the session and every client operation |
| session_valid.dfy | SessionValid | the session invariant and its preservation |
| session_props.dfy | SessionProps | scenario properties of the operations |

## Model

| member | source | states |
|---|---|---|
| Counters.DeriveUnits | gputop.js:522-534 | `us` becomes `ns` scaled by 1000; `mhz` becomes `hz` scaled by a million; a counter is a rate exactly when its units are neither `hz` nor `percent`; other units are kept with scale 1 |
| Counters.DeriveUnitsNormalises | gputop.js:522-534 | the rule maps the units it produces to themselves with scale 1 and the same rate flag, so a normalised counter is not rescaled again |
| Counters.NewCounter | gputop.js:93-126 | a new counter reads 0 with maximum 0, inferred maximum 0 and duration 0, has recorded nothing and is not recording; its units, scale and rate flag are those the unit rule (Counters.DeriveUnits) gives for the described units |
| Counters.Normalise | gputop.js:128-137 | without a rate, or over an empty window, a reading is the raw value times the unit scale; as a rate, the reading times the window length is the scaled value times 10^9 ns per second |
| Counters.Record | gputop.js:138-144 | recording appends the sample last, and the history never grows past 2000 entries; the oldest entry is dropped once it would |
| Counters.AppendCounterData | gputop.js:128-158 | the latest reading is the unit-scaled sample (a per-second rate for rate counters over a non-empty window); the duration is updated only when the reading changed; the inferred maximum changes only with the reading, and then becomes the largest of the old inferred maximum, the new value and the new maximum; the history is touched only while recording; nothing else changes |
| Counters.TakeReading | gputop.js:146-157 | a different reading replaces the latest value and maximum with its duration and raises the inferred maximum to the largest of the old inferred maximum, the value and the maximum; the same reading again leaves the counter as it was; nothing else changes |
| Counters.MicrosecondRate | gputop.js:128-137 | a microsecond counter reading 500 over a 1 ms window reports 500,000,000 ns per second |
| Counters.FrequencyIsNotARate | gputop.js:526-533 | a MHz counter is reported in Hz, scaled by a million, whatever the window |
| Counters.EmptyWindowIsNotARate | gputop.js:132-136 | over a zero-length window a reading is only unit-scaled |
| Counters.AppendAllKeepsBound | gputop.js:146-157 | over any run of samples the inferred maximum never decreases and keeps bounding the latest reading |
| Counters.AppendAllEndsAtLastSample | gputop.js:146-151 | after a run of samples the reading is that of the last sample |
| Counters.InferredMaxBoundsRun | gputop.js:152-156 | after a run, the inferred maximum is at least every value and maximum the run reported |
| Counters.AppendAllKeepsRecentHistory | gputop.js:138-144 | while recording, the history is the most recent 2000 normalised samples, oldest first |
| Metrics.Complete | gputop.js:694-702 | a missing sampling exponent becomes 14; per-context mode and paused are on only when the caller set them |
| Metrics.NewMetric | gputop.js:160-189 | a metric as first looked up is unsupported, not closing, has no stream or decoder stream, has a 1 s aggregation period, and has no counters or history |
| Metrics.ClearUpdates | gputop.js:232-235 | every counter's history is emptied and nothing else about it changes |
| Metrics.FilterCounters | gputop.js:287-328 | `matched` holds exactly the counters that pass the flag, debug and active filter, and `others` exactly those that fail it; each keeps the input order, and together they are a permutation of the input |
| Metrics.KeepSound | gputop.js:321-324 | a counter is on a side of the split exactly when it is in the input and passes (or fails) the filter |
| Metrics.KeepPartition | gputop.js:321-324 | the two sides of the split together are a rearrangement of the input |
| History.PushAsWritten | gputop.js:1438-1441 | the client's buffer: the byte count grows by every frame pushed, and past the 1 MiB ceiling each push drops exactly one frame |
| History.AsWrittenFreezesLength | gputop.js:1439-1441 | once the count has passed the ceiling, the buffer as written holds a fixed number of frames whatever their sizes |
| History.AsWrittenLosesFramesUnderTheCeiling | gputop.js:1438-1441 | after a 1 MiB frame and two one-byte frames, the buffer as written keeps only the last byte, although both small frames fit |
| History.Evict | gputop.js:1440-1441 | eviction drops oldest frames until the buffer is within the ceiling, and drops none it did not have to |
| History.Push | gputop.js:1437-1441 | the intended buffer: its byte count equals the bytes it holds, it stays within 1 MiB, it keeps a suffix of the frames in arrival order, and it evicts a frame only when keeping it would exceed the ceiling |
| History.PushUnderCeiling | gputop.js:1438-1441 | a push that stays within the ceiling evicts nothing |
| History.PushAfterFullFrame | gputop.js:1440-1441 | a one-byte push after a full 1 MiB frame evicts exactly that frame |
| History.PushKeepsFramesUnderTheCeiling | gputop.js:1438-1441 | on the input where the client loses frames, the intended buffer keeps both one-byte frames |
| History.PushKeepsLatest | gputop.js:1438-1441 | a frame no larger than the ceiling is never evicted by its own push |
| Frames.KindOf | gputop.js:1354-1357 | message type 1 is a perf sample, 2 a protobuf message, 3 an i915 OA sample, and any other byte is ignored |
| Frames.Uint16LE | gputop.js:1358 | the handle read from two bytes is below 65536 |
| Frames.StreamHandle | gputop.js:1428 | the server handle of a frame fits in 16 bits |
| Frames.Payload | gputop.js:1353 | the payload is everything after the 8-byte header |
| Frames.FrameRoundTrip | gputop.js:1352-1358 | reading a frame gives back the type, server handle and payload it was written with |
| Frames.HandleDeterminedByBytes | gputop.js:1428-1430 | two frames route to the same stream exactly when header bytes 4 and 5 agree |
| EventTargets.RemoveAll | gputop.js:821-827 | splicing out the first occurrence and starting over removes every occurrence of the listener and keeps the order of the rest |
| EventTargets.RemoveEventListener | gputop.js:817-828 | only the listener list of the given type changes, and it loses every registration of the listener |
| EventTargets.AddEventListener | gputop.js:830-836 | adding a listener moves it to the end of its type's list, removing any earlier registration; other types are untouched |
| EventTargets.Dispatch | gputop.js:839-847 | `dispatchEvent` calls the listeners registered for the event's type, in registration order, and none for a type nobody registered |
| EventTargets.WithoutSubset | gputop.js:817-828 | after removal, the list holds exactly the other listeners it held before |
| EventTargets.WithoutKeepsNoDuplicates | gputop.js:817-828 | removal keeps a duplicate-free list duplicate-free |
| EventTargets.AddKeepsListenersUnique | gputop.js:830-847 | registration keeps every list duplicate-free, and a listener just added is dispatched exactly once and last |
| EventTargets.RemoveStopsDispatch | gputop.js:817-847 | a removed listener is never dispatched for that type again, and every other listener still is |
| Rpc.Register | gputop.js:1126-1131 | a continuation, when given, is filed under the request's UUID and every other entry is kept; without one nothing is recorded |
| Rpc.Take | gputop.js:1420-1424 | a reply with a pending UUID yields that continuation and removes only its entry; an unknown UUID changes nothing |
| Rpc.RegisterThenTake | gputop.js:1420-1424 | the continuation a request files is the one its reply runs, the table is then as before, and a second reply finds nothing |
| Uuids.Nibble | gputop.js:1101 | `Math.random()*16\|0` is a value below 16 |
| Uuids.HexDigit | gputop.js:1102 | `toString(16)` of a value below 16 is one lower-case hex digit |
| Uuids.Fill | gputop.js:1100-1103 | fixed template characters are kept, each `x` becomes a hex digit, and each `y` becomes one of `8`, `9`, `a`, `b` |
| Uuids.TemplateShape | gputop.js:1100 | the template is 36 characters, with dashes at 8, 13, 18 and 23, `4` at 14, `y` at 19, and `x` elsewhere |
| Uuids.GenerateUuid | gputop.js:1095-1104 | every generated request id is a canonical version-4 UUID of the RFC 4122 variant |
| Processes.NewProcessInfo | gputop.js:330-342 | a blank record has pid 0, the `"empty"` placeholders, no contexts, and is neither active nor initialised |
| Processes.Update | gputop.js:344-354 | the record takes the reported pid and command line; its path is the command line's first space-separated word and its name is the path's last `/` component; the other fields are kept |
| Processes.UpdateIsDetermined | gputop.js:347-352 | any path and name meeting those descriptions are the ones recorded |
| Processes.IsPathOfMeans | gputop.js:347-349 | being the path of a command line means being a space-free prefix of it that ends at a space or at the end |
| Processes.IsNameOfMeans | gputop.js:351-352 | being the name on a path means being a `/`-free suffix of it that starts after a `/` or at the start |
| Processes.FirstWordIsPath | gputop.js:347-349 | the command line's first word is a path of it |
| Processes.LastComponentIsName | gputop.js:351-352 | the path's last component is a name on it |
| Processes.PathUnique | gputop.js:347-349 | a command line has only one path |
| Processes.NameUnique | gputop.js:351-352 | a path has only one name |
| Processes.FirstWordIsSplitHead | gputop.js:347-349 | the first word is the first part of `split(" ")` |
| Processes.LastComponentIsSplitLast | gputop.js:351-352 | the last component is the last part of `split("/")` |
| Processes.ProcessByPid | gputop.js:494-501 | a lookup always yields the pid's record, creating and caching a blank one only when it is missing |
| Processes.OnProcessInfo | gputop.js:1401-1406 | a `process_info` reply updates or creates exactly its pid's record and leaves every other record alone |
| Strings.Split | gputop.js:904 | `split` on one character yields at least one part, no part contains the separator, and text without the separator is one part |
| Strings.JoinSplit | gputop.js:904 | joining the parts of a split gives back the text |
| Strings.SplitJoin | gputop.js:904 | splitting separator-free parts joined by the separator gives back the parts |
| Strings.HeadUnique | gputop.js:347-349 | the first part of a split is the unique prefix that ends at the first separator or at the end |
| Strings.LastUnique | gputop.js:351-352 | the last part of a split is the unique suffix that starts after the last separator |
| Strings.TrimStart | gputop.js:907 | leading trimming removes exactly the leading white space |
| Strings.TrimEnd | gputop.js:907 | trailing trimming removes exactly the trailing white space |
| Strings.TrimEdges | gputop.js:907 | trimmed text is no longer than the original and neither starts nor ends with white space |
| Strings.TrimCutsSpace | gputop.js:907 | everything `trim` cuts off, before and after the result, is white space |
| Strings.TrimIdempotent | gputop.js:907 | trimming a trimmed text changes nothing |
| Strings.TrimNoSpace | gputop.js:907 | text that neither starts nor ends with white space is unchanged by `trim` |
| Strings.Drop | gputop.js:933 | `slice(n)` keeps what follows the first `n` characters |
| Strings.DigitsRoundTrip | gputop.js:914-916 | the decimal digits of a natural number read back as that number |
| Strings.NumberOfNat | gputop.js:914-916 | `Number()` of a natural number's decimal text is that number |
| Strings.NumberShape | gputop.js:914-918 | `Number()` gives 0 for blank text, a negative value only for text with a leading minus, and NaN only for non-blank text that is not a run of digits |
| Tracepoints.ValueAfter | gputop.js:913-918 | a subfield's value (between its first and second colon) holds no colon |
| Tracepoints.ValueAfterKey | gputop.js:913-918 | a key followed by a colon-free value reads back as that value |
| Tracepoints.TrimTabbed | gputop.js:907 | a subfield behind a tab is trimmed to its key and value |
| Tracepoints.ApplySubfieldTouches | gputop.js:906-919 | a subfield changes only the part of the field its key names: the name and type only for `field:`, the offset only for `offset:`, the size only for `size:`, the signedness only for `signed:` |
| Tracepoints.FieldSubfieldNames | gputop.js:909-912 | a `field:` subfield always sets both the name and the type, and the name is one word |
| Tracepoints.ApplyAll | gputop.js:906-920 | applying a line's subfields in order keeps a name always paired with a type, and keeps the name one word |
| Tracepoints.ParseField | gputop.js:901-923 | a parsed field has a name exactly when it has a type, and its name holds no space |
| Tracepoints.ApplyFieldKey | gputop.js:909-912 | a trimmed `field:` subfield takes the last space-separated word of its value as the name and the words before it, rejoined by spaces, as the type |
| Tracepoints.ApplyDeclaration | gputop.js:909-912 | a `field:` subfield names the field by its last word and types it with the words before, joined by spaces |
| Tracepoints.ApplyOffset | gputop.js:913-914 | an `offset:` subfield sets the offset to its number |
| Tracepoints.ApplySize | gputop.js:915-916 | a `size:` subfield sets the size to its number |
| Tracepoints.ApplySigned | gputop.js:917-918 | a `signed:` subfield makes the field signed exactly when its number is non-zero |
| Tracepoints.ParseRenderedField | gputop.js:901-923 | a field line as the kernel writes it parses back to its declaration's type, name, offset, size and signedness |
| Tracepoints.FieldRunEnd | gputop.js:942-946 | the field-line loop stops at a line that is not a field line, every line before it being one; when no such line follows, the lines run out and the parse throws |
| Tracepoints.FieldRunReadsRun | gputop.js:942-952 | conversely, field lines from `i` up to a non-field line `j` make the loop stop exactly at `j` |
| Tracepoints.ReadFormat | gputop.js:938-954 | the format block sets both field lists and nothing else, with one common field per line of the first field run; lines that run out inside that run make the parse throw |
| Tracepoints.ParseLines | gputop.js:929-956 | the line loop sets the two field lists together or not at all, and text with no `format:` line leaves them as they were |
| Tracepoints.ParseFormat | gputop.js:925-959 | a parsed tracepoint has both field lists or neither, and text without a `format:` line parses with neither |
| Tracepoints.ReadHeader | gputop.js:932-935 | the `name:` and `ID:` lines set the name and the numeric id |
| Tracepoints.FormatLineHandsOver | gputop.js:938-954 | a `format:` line hands the rest of the text to the format block and ends the line loop |
| Tracepoints.FormatBlockRead | gputop.js:939-953 | a run of common field lines, a separator and a run of event field lines are read as the common and the event fields, each line parsed without its tab, with nothing read after them |
| Tracepoints.ParseKernelLayout | gputop.js:925-959 | on the kernel's layout the parse yields the name, the id and both field lists, and never reads the `print fmt:` line |
| Tracepoints.ParseKernelFormat | gputop.js:925-959 | the same, starting from the text with its lines joined by newlines |
| Sessions.Initial | gputop.js:404-418 | a new session hands out server handle 1 first and has no pending requests, metrics or effects |
| Sessions.RpcRequest | gputop.js:1107-1132 | one request is sent under the UUID; its continuation is filed when given; exactly one leak warning follows when a continuation was filed and the table holds at least 1000 entries, and none otherwise; nothing else changes |
| Sessions.LookupMetric | gputop.js:543-553 | a known GUID's metric is returned unchanged; an unknown one gets a fresh metric with a new object id |
| Sessions.RegisterMetricSet | gputop.js:555-575 | a metric set read from the description has its metric looked up, its counters set, and is appended to the catalog |
| Sessions.ClearSupport | gputop.js:1271 | exactly the catalog metrics are marked unsupported, and nothing else about any metric changes |
| Sessions.MarkSupported | gputop.js:1278-1282 | every listed GUID has a metric (created when missing) marked supported; nothing else about a metric changes |
| Sessions.ApplySupported | gputop.js:1266-1284 | after a features reply a metric is supported exactly when the kernel listed its GUID, or when it is outside the catalog and was already supported |
| Sessions.ClearMetricData | gputop.js:228-236 | the decoder's accumulator is reset and only the metric's counter histories are emptied |
| Sessions.FeedAll | gputop.js:241-252 | one decoder call per history frame, oldest first |
| Sessions.ReplayBuffer | gputop.js:238-253 | the metric's data is cleared and then every history frame is fed to its decoder stream, in order |
| Sessions.SetAggregationPeriod | gputop.js:219-226 | the metric takes the new period, and its decoder stream is told only if it has one |
| Sessions.OpenRefusal | gputop.js:676-692 | an open is refused exactly when the metric is unsupported, closing, or already has a stream, and an unsupported metric is always refused as unsupported |
| Sessions.FinalizeNow | gputop.js:707-723 | a decoder stream is created at the metric's period and filed under the new pointer; then the stream object hears "open"; the server tables and pending requests are untouched |
| Sessions.OpenWith | gputop.js:660-751 | every open uses up one server handle, and only the opened metric can change |
| Sessions.OpenPaused | gputop.js:725-728 | a paused open keeps the metric table's keys and uses no further handle |
| Sessions.OpenLive | gputop.js:729-748 | a live open keeps the metric table's keys and uses no further handle |
| Sessions.Open | gputop.js:660-702 | an open uses up exactly one server handle, whatever options it is given |
| Sessions.DestroyStream | gputop.js:753-763 | the decoder stream is destroyed and its table entry dropped; with a stream object, the server handle is dropped and the metric loses both streams; without one the client throws |
| Sessions.TeardownAndReopen | gputop.js:777-784 | the teardown throws exactly when the metric has no stream object |
| Sessions.FinishCloseNow | gputop.js:777-787 | the intended `_finish_close` fails exactly when the metric has no stream object, and only ever adds to the log |
| Sessions.FinishCloseAsWritten | gputop.js:785-786 | `_finish_close` as written always throws after the teardown and the follow-up, and sends no "close" event |
| Sessions.StartClose | gputop.js:788-798 | closing a live stream marks the metric closing, files exactly one continuation (the close of this metric object) under the UUID, and sends a `close_query` for the stream's handle |
| Sessions.Close | gputop.js:765-799 | a close only ever adds to the log and keeps the metric |
| Sessions.SetPaused | gputop.js:255-285 | without a stream, in the requested state already, or while closing, nothing changes |
| Sessions.RequestOpenCpuStats | gputop.js:869-898 | one `open_query` for a cpu-stats stream on the next handle, with a 10 ms default period; the reply's continuation is filed; no handle is routed yet |
| Sessions.GetProcessInfo | gputop.js:1455-1457 | one `process_info` request; a continuation is filed only with a callback |
| Sessions.GetTracepointInfo | gputop.js:961-975 | one `get_tracepoint_info` request, whose reply will deliver the parsed format |
| Sessions.DestroyAll | gputop.js:1339-1342 | the catalog walk keeps the metric table's keys, the pending requests, and the handle and object-id counters |
| Sessions.Dispose | gputop.js:1332-1349 | after `dispose` the session is disconnected and the pending requests are kept |
| Sessions.Resolve | gputop.js:1420-1424 | a reply with an unknown UUID changes nothing |
| Sessions.Retire | gputop.js:1422-1423 | a continuation that threw leaves its entry pending; otherwise exactly its entry is removed |
| Sessions.OwnerPtr | gputop.js:1366-1373 | a non-zero decoder pointer for a handle's owner is always the decoder stream of a metric in the table |
| Sessions.HandleMessage | gputop.js:1384-1426 | handling a structured message only ever adds to the log |
| Sessions.OnFrame | gputop.js:1351-1453 | handling any frame only ever adds to the log |
| Sessions.I915Frame | gputop.js:1427-1451 | handling an OA sample only ever adds to the log |
| Sessions.I915FrameAsWritten | gputop.js:1427-1447 | with the client's own buffer, an OA sample for a live metric's handle grows that metric's recorded size by the frame's length and changes no other metric; a sample for any other handle changes nothing |
| Sessions.StartUpdate | gputop.js:578-594 | an update starts exactly when the decoder stream belongs to a known metric, and then it names that metric object and the window; otherwise the update in progress is cleared |
| Sessions.UpdateCounter | gputop.js:596-618 | a counter reading can change the metric table only |
| Sessions.EndUpdate | gputop.js:620-632 | ending an update clears the update in progress and nothing else |
| SessionValid.InitialValid | gputop.js:404-418 | a new session satisfies the session invariant: handles already issued, both routing tables sound, well-formed metrics, and no pending request owning an unused handle |
| SessionValid.LookupMetricKeepsValid | gputop.js:543-553 | looking up a metric preserves the invariant |
| SessionValid.RpcRequestKeepsValid | gputop.js:1107-1132 | sending a request preserves the invariant |
| SessionValid.RegisterMetricSetKeepsValid | gputop.js:555-575 | registering a metric set preserves the invariant |
| SessionValid.MarkSupportedKeepsValid | gputop.js:1278-1282 | marking metrics supported preserves the invariant |
| SessionValid.ApplySupportedKeepsValid | gputop.js:1266-1284 | a features reply preserves the invariant |
| SessionValid.ReplayBufferKeepsValid | gputop.js:238-253 | replaying the history preserves the invariant |
| SessionValid.SetAggregationPeriodKeepsValid | gputop.js:219-226 | changing the period preserves the invariant |
| SessionValid.FinalizeNowKeepsValid | gputop.js:707-723 | finalizing an open preserves the invariant |
| SessionValid.OpenWithKeepsValid | gputop.js:660-751 | every open, refused, paused or live, preserves the invariant |
| SessionValid.OpenPausedKeepsValid | gputop.js:725-728 | a paused open preserves the invariant |
| SessionValid.OpenLiveKeepsValid | gputop.js:729-748 | a live open preserves the invariant |
| SessionValid.DestroyStreamKeepsValid | gputop.js:753-763 | destroying a stream preserves the invariant |
| SessionValid.TeardownAndReopenKeepsValid | gputop.js:777-784 | the teardown and follow-up of a close preserve the invariant |
| SessionValid.FinishCloseNowKeepsValid | gputop.js:777-787 | the intended `_finish_close` preserves the invariant |
| SessionValid.CloseKeepsValid | gputop.js:765-799 | a close preserves the invariant |
| SessionValid.SetPausedKeepsValid | gputop.js:255-285 | pausing and resuming preserve the invariant |
| SessionValid.RequestOpenCpuStatsKeepsValid | gputop.js:869-898 | opening cpu stats preserves the invariant |
| SessionValid.GetProcessInfoKeepsValid | gputop.js:1455-1457 | a process-info request preserves the invariant |
| SessionValid.GetTracepointInfoKeepsValid | gputop.js:900-976 | a tracepoint-info request preserves the invariant |
| SessionValid.DestroyAllKeepsValid | gputop.js:1339-1342 | the catalog walk of `dispose` preserves the invariant |
| SessionValid.DisposeKeepsValid | gputop.js:1332-1349 | `dispose` preserves the invariant |
| SessionValid.RunContKeepsValid | gputop.js:1420-1424 | running any continuation preserves the invariant |
| SessionValid.ResolveKeepsValid | gputop.js:1420-1424 | resolving a reply preserves the invariant |
| SessionValid.HandleMessageKeepsValid | gputop.js:1384-1426 | handling a structured message preserves the invariant |
| SessionValid.I915FrameKeepsValid | gputop.js:1427-1451 | handling an OA sample preserves the invariant |
| SessionValid.OnFrameKeepsValid | gputop.js:1351-1453 | handling any inbound frame preserves the invariant |
| SessionValid.StartUpdateKeepsValid | gputop.js:578-594 | starting a decoder update preserves the invariant |
| SessionValid.UpdateCounterKeepsValid | gputop.js:596-618 | a counter reading preserves the invariant |
| SessionValid.EndUpdateKeepsValid | gputop.js:620-632 | ending a decoder update preserves the invariant |
| SessionProps.RefusalOrder | gputop.js:676-692 | an open is refused as unsupported, then as closing, then as already open, in that order of priority, and accepted exactly when none applies |
| SessionProps.OpenRefused | gputop.js:665-692 | a refused open only uses up a handle and reports the error on the new stream object; nothing is sent |
| SessionProps.OpenPausedNow | gputop.js:725-728 | a paused open sends nothing, takes server handle 0, and finalizes at once; with the replay listener the history is replayed into the new decoder stream |
| SessionProps.OpenLiveSends | gputop.js:729-748 | a live open files its server handle, empties the history, and sends exactly one `open_query` whose reply will finalize this metric object |
| SessionProps.OpenDefaults | gputop.js:694-702 | an open with no options is live and system-wide, at sampling exponent 14 |
| SessionProps.OpenLiveThenReply | gputop.js:707-723 | the reply to a live open creates and files the decoder stream, tells the stream object it is open, and retires the request |
| SessionProps.CloseWithoutStream | gputop.js:766-769 | closing a metric without a stream changes nothing |
| SessionProps.CloseWhileClosing | gputop.js:771-775 | a second close while one is in flight only reports "Pile Up" on the stream |
| SessionProps.ClosePausedNow | gputop.js:789-793 | a paused stream is torn down at once: the decoder stream is destroyed and the stream object hears "close"; nothing is sent |
| SessionProps.CloseLiveDefers | gputop.js:794-798 | a live stream starts closing and one `close_query` is sent; nothing is torn down yet |
| SessionProps.FinishCloseOnReply | gputop.js:777-787 | a `close_query` reply for the current metric object tears the stream down, ends the close, sends "close", and retires the request |
| SessionProps.CloseLiveThenReply | gputop.js:765-799 | close then reply: the server handle and decoder stream leave both tables, the stream object hears "close", and the pending table is as before the close |
| SessionProps.PauseOnReply | gputop.js:270-275 | the reply of a pause's close tears down the live stream and opens a paused one |
| SessionProps.PauseReplySteps | gputop.js:270-275 | the pause reply is the teardown, then a paused open with the replay listener, then "close" on the old stream object, with the request retired |
| SessionProps.PauseLiveThenReply | gputop.js:255-285 | pausing a live metric sends one `close_query`; its reply replaces the live stream with a paused one, replays the history into the new decoder stream, and then the old stream object hears "close" |
| SessionProps.ResumePaused | gputop.js:276-277 | resuming a paused metric happens at once: the paused stream is torn down, the data cleared, and one `open_query` sent for a live stream |
| SessionProps.ResumeResult | gputop.js:276-277 | after a resume the metric has a live stream on the next handle, an empty history, and cleared counter histories |
| SessionProps.ClearedAfterTeardown | gputop.js:228-236 | clearing data after a teardown resets the accumulator of decoder stream 0 |
| SessionProps.ResumeSteps | gputop.js:276-278 | a resume's effects are the destroy, the accumulator reset and the `open_query`, and it ends with "close" on the old stream object |
| SessionProps.AsWrittenCloseNeverRetires | gputop.js:777-787 | with the client's `_finish_close`, a `close_query` reply tears the stream down but leaves its request pending, sends no "close", and a second reply makes the teardown throw |
| SessionProps.ReplyActsOnce | gputop.js:1420-1424 | when a continuation completes, its entry is retired, and a repeated reply changes nothing |
| SessionProps.RunContOutcome | gputop.js:1420-1424 | a caller's callback, and a continuation whose metric object has been replaced, leave the session as it was; only a tracepoint reply or a close of a metric whose stream is gone can throw, and a tracepoint reply throws exactly when its format does not parse |
| SessionProps.CpuStatsOpenThenReply | gputop.js:869-898 | the reply to a cpu-stats open routes the stream's handle to the cpu-stats stream, sends "open", and retires the request |
| SessionProps.CpuStatsSample | gputop.js:1408-1417 | a cpu-stats sample reaches the stream its handle names as an "update" event; an unknown handle is ignored |
| SessionProps.ProcessInfoReplied | gputop.js:1401-1406 | a `process_info` reply updates the process table and retires the request |
| SessionProps.TracepointReplied | gputop.js:961-975 | a tracepoint reply whose format parses delivers the parsed tracepoint and retires the request; a format that makes the parser throw leaves everything as it was |
| SessionProps.ShortFrameIgnored | gputop.js:1352-1353 | a frame shorter than its header changes nothing |
| SessionProps.OaSampleRouted | gputop.js:1427-1447 | an OA sample for a live metric's handle is kept in its history (within the ceiling, latest kept) and fed to its decoder stream |
| SessionProps.OaSampleUnrouted | gputop.js:1448-1450 | an OA sample for an unknown handle, or one owned by a cpu-stats stream, changes nothing |
| SessionProps.OaSampleAsWritten | gputop.js:1427-1441 | with the client's buffer the recorded size grows by the frame's length and is never reduced, the frames kept are the latest ones pushed, and once the size is past 1 MiB every push drops exactly one frame |
| SessionProps.AsWrittenSessionLosesFrames | gputop.js:1438-1441 | on a live metric with an empty buffer, a 1 MiB frame and then two one-byte frames leave the client's buffer holding only the last byte |
| SessionProps.SessionKeepsFramesUnderTheCeiling | gputop.js:1438-1441 | the session's corrected buffer, given the same frames, keeps both one-byte frames and a size of 2 |
| SessionProps.PerfSampleRouted | gputop.js:1357-1382 | a perf sample goes to its owner's decoder stream (a cpu-stats owner has none and passes 0), or nowhere; nothing else changes |
| SessionProps.ProtobufFrameHandled | gputop.js:1384-1385 | a structured frame is decoded from its payload and handled |
| SessionProps.ReadingLands | gputop.js:596-618 | a reading after an update started on a metric's decoder stream is appended to that metric's counter at its index |
| SessionProps.ReadingAfterEnd | gputop.js:620-632 | once the update has ended, readings are dropped |
| SessionProps.ReadingForStaleMetric | gputop.js:604-608 | a reading for an update whose metric object has been replaced is dropped |
| SessionProps.DestroyAllCompletes | gputop.js:1339-1342 | without orphaned decoder streams, the catalog walk completes and destroys every live decoder stream of the catalog |
| SessionProps.DisposeClears | gputop.js:1332-1349 | `dispose` closes the socket once, destroys the live decoder streams, and empties the metric table, the catalog and both routing tables |
| SessionProps.DisposeIdempotent | gputop.js:1332-1349 | a second `dispose` changes nothing |

## Left out

- Socket I/O, protobuf encoding and decoding, XML parsing and the native
  decoding engine are outside the model. The engine's calls appear only as
  effects in the log, and the pointer a new decoder stream gets is a
  parameter. The protobuf decoder is a function parameter of `OnFrame`.
- Demo mode (the `is_demo()` branches of `rpc_request`, the features reply
  and `parse_xml_metrics`) is not modelled. The model is of a connected client.
- Sessions.RpcRequest: always sends and files. In the client the socket is
  undefined before the connection opens and after `dispose`
  (gputop.js:397, 1334-1335), so `rpc_request` then throws at the `send`
  (gputop.js:1122) before it files the closure. The model only describes a
  connected client here.
- The DevInfo and system-property forwarding of `process_features`, and
  the loading of the metrics description file, are left out. The model
  keeps only the supported-GUID marking (`ApplySupported`) and takes the
  counters of each metric set as given (`RegisterMetricSet`).
- `add_counter` and the native counter-id lookup are not modelled: the
  counters of a metric are stored already indexed by their native id.
- `calculate_max_exponent_for_period` is left out. It uses floating-point
  division by the timestamp frequency, and nothing else in the core calls it.
- `EventTarget.once` is left out. It refers to two functions that do not
  exist (`_once_wrapper`, `removeListener`), so any call throws.
- `open_tracepoint`, the tracepoint stream and logging (`log`, `user_msg`,
  `application_log`) are left out, apart from the leak warning.
- Counter readings are reals, not IEEE doubles. The `updates` overflow
  warning is not logged.
- `Strings.ToNumber` reads only optionally signed decimal integers. Other
  numeric text becomes NaN.
- `Strings.IsJsSpace` covers the ASCII and Latin-1 white space. The other
  Unicode spaces that `trim` also removes are left out.
- `Counters.Counter` keeps the counter's flags and `zero` marker. The XML
  and MathML equations are left out.
- User callbacks (`onopen`, `onclose`, `onerror`, the `process_info`
  callback) are not run. A caller-supplied continuation is the `Opaque` tag,
  and stream events are `Emit` effects rather than listener calls. The
  listener registry itself is modelled on its own in `EventTargets`.
- The tracepoint `print fmt:` line is never parsed. The client breaks out
  of its line loop after the format block, and the model does too.
- Continuations that outlive `dispose` are skipped through the metric
  object id. The client would instead act on the discarded metric object.
- `SessionProps.DestroyAllCompletes` assumes no metric holds a decoder
  stream outside a close without also holding its stream object
  (`NoOrphanStream`). This is not a session invariant. A finalize reply that
  arrives after the close reply of the same metric creates such an orphan,
  and then `dispose` throws on it, as the model shows (`DestroyAll`
  returns `false`).
- `SessionValid.Valid` does not include "a closing metric has a stream".
  The teardown of a close breaks it before the close ends.
- Sessions.OpenWith: its own contract states only what every open keeps; the refused, paused and live outcomes are stated by SessionProps.OpenRefused, SessionProps.OpenPausedNow and SessionProps.OpenLiveSends.
- Sessions.OpenPaused: its own contract states only what it keeps; its outcome is stated by SessionProps.OpenPausedNow.
- Sessions.OpenLive: its own contract states only what it keeps; its outcome is stated by SessionProps.OpenLiveSends.
- Sessions.Open: its own contract states only the handle it uses; the defaults it fills in are stated by Metrics.Complete and SessionProps.OpenDefaults.
- Sessions.Close: its own contract states only that the log grows; each branch is stated by SessionProps.CloseWithoutStream, SessionProps.CloseWhileClosing, SessionProps.ClosePausedNow and SessionProps.CloseLiveDefers.
- Sessions.TeardownAndReopen: its own contract states only when it throws; its result is stated by SessionProps.FinishCloseOnReply and SessionProps.PauseReplySteps.
- Sessions.FinishCloseNow: is the intended `_finish_close`, and the session runs it on every path: a paused close, a `close_query` reply, and the pause and the resume of `set_paused`. In the client each of these throws a ReferenceError at gputop.js:786 after the teardown and the follow-up, and no "close" event is dispatched. Only Sessions.FinishCloseAsWritten and SessionProps.AsWrittenCloseNeverRetires describe that (see Findings). Its own contract states only when it fails; its result is stated by SessionProps.FinishCloseOnReply and SessionProps.CloseLiveThenReply.
- Sessions.HandleMessage: its own contract states only that the log grows; its commands are stated by SessionProps.CpuStatsSample, SessionProps.ProcessInfoReplied and SessionProps.TracepointReplied. It also marks support earlier than the client. In the client, `process_features` clears and sets the `supported_` flags only inside the asynchronous `get_file` callback, after the metrics file has loaded (gputop.js:1265-1287). So the features reply's own resolution (gputop.js:1420-1424), and any `open` made before the file arrives, still see the old flags; on a fresh client such an open is refused as not supported (gputop.js:676-680). The model has no file loading, so it applies the supported GUIDs (Sessions.ApplySupported) at once, before resolving the reply.
- Sessions.OnFrame: its own contract states only that the log grows; the frame kinds are stated by SessionProps.ShortFrameIgnored, SessionProps.OaSampleRouted, SessionProps.OaSampleUnrouted, SessionProps.PerfSampleRouted and SessionProps.ProtobufFrameHandled.
- Sessions.I915Frame: pushes with the corrected `History.Push`, not with the client's buffer at gputop.js:1438-1441, and so does every session property built on it. The client's buffer is Sessions.I915FrameAsWritten, described by SessionProps.OaSampleAsWritten and SessionProps.AsWrittenSessionLosesFrames (see Findings). Its own contract states only that the log grows; its routing is stated by SessionProps.OaSampleRouted and SessionProps.OaSampleUnrouted.
- Processes.Update: `update_process` (gputop.js:353) is defined nowhere in the client, so in the client the call throws after the four fields are set, and a `process_info` reply is then neither run nor retired. The model treats it as a hook that returns normally, so Processes.OnProcessInfo and SessionProps.ProcessInfoReplied describe the reply as completing.
- Sessions.UpdateCounter: its own contract states only that the metric table is all it can change; where a reading lands is stated by SessionProps.ReadingLands.
- Sessions.DestroyAll: its own contract states only what it keeps; what it destroys is stated by SessionProps.DestroyAllCompletes.
- Sessions.Dispose: its own contract states only what it keeps; what it clears is stated by SessionProps.DisposeClears.

Where the description of the client and its code differ, the model follows
the code:

- Every OA sample of a live metric enters its replay history, not only the
  samples that arrive while paused. A paused metric has no server handle, so
  no sample reaches it.
- Tearing a stream down does not clear the pending-request table, and
  neither does `dispose`.

## Findings

| source | as written | input that shows it | evidently intended | confidence | as-written member | corrected member |
|---|---|---|---|---|---|---|
| gputop.js:1438-1441 | `history_size` is only ever increased, so once it passes 1 MiB every later push drops exactly one frame, whatever the sizes | push a 1 MiB frame, then two one-byte frames: the buffer keeps only the last byte | the size tracks the bytes held, and oldest frames are dropped only until the buffer fits within 1 MiB | not executed | History.AsWrittenLosesFramesUnderTheCeiling | History.PushKeepsFramesUnderTheCeiling |
| gputop.js:777-787 | `_finish_close` dispatches its "close" event on `stream`, a name it never binds, so it throws after the teardown and the follow-up, on every path that reaches it (a paused close, a `close_query` reply, a pause or a resume) | close a live metric and deliver its `close_query` reply: the request stays pending, no "close" is sent, and a repeated reply throws in `destroy_stream` | dispatch "close" on the stream object that was closed, so the reply is retired | not executed; assumes no global named `stream` | SessionProps.AsWrittenCloseNeverRetires | SessionProps.CloseLiveThenReply |
