# Range pricer: a verified model

This project models the option pricing server of this repository and the libraries its requests go through, and
proves what they promise with Dafny 4.11. `dafny verify dfyconfig.toml` checks everything.

**The message format.** The pricing messages are FlatBuffers. `VectorDownward.dfy` is the buffer with two stacks that
grow towards each other, `FlatBufferBuilder.dfy` the builder object that works in place on it, `Layout.dfy` the same
operations on byte strings, in which positions are counted from the end of the buffer so that they keep their meaning
while bytes are added in front. `TableLayout.dfy`, `Dedup.dfy` and `VectorLayout.dfy` say what a reader finds in what
was written; `Table.dfy` is that reader, whose accessors return `None` when they would leave the buffer. `Messages.dfy`
has the five pricing tables, `Assembly.dfy` builds whole messages with the builder object, `RoundTrip.dfy` proves that
every message reads back as built, `KnownBytes.dfy` gives two finished messages byte by byte, `Alignment.dfy` and
`Sizes.dfy` bound alignment and size. `Verifier.dfy` is the checker of untrusted bytes, `CheckMeaning.dfy` says in terms
of the accessors exactly which bytes it accepts, `Soundness.dfy` proves that accepted bytes can be read entirely and
`Acceptance.dfy` which finished messages are accepted. Floats are their 32-bit patterns and `Binary32.dfy` is what these
mean as numbers: the comparison with the default makes a negative zero read as zero (section 5.11 of IEEE 754-2008), and
a NaN is neither equal to a default nor refused by `<= 0`.

**The server.** `RangePricer.dfy` is the pricing loop over whole lanes and a tail, `Batches.dfy` cuts a request into
batches, `Worker.dfy` is what one worker answers, `Gather.dfy` what the server makes of the answers. `Server.dfy` is
the concurrent program as steps of the server, of each worker and of the shutdown monitor, with a pipe in and a pipe
out for every worker; what is computed from messages is a parameter there. `Conservation.dfy` is what each step does
to the answers in flight, `Runs.dfy` the invariant of every interleaving, `Progress.dfy` proves that every request is
answered exactly once and `Shutdown.dfy` that shutdown ends every thread. `EndToEnd.dfy` puts the real messages in:
in every interleaving a client's request is answered, and the client reads the pricing of its k-th pair in row k of the
reply's bytes. `std::sort` is an arbitrary function that returns a permutation sorted by idx, and the exponential an
uninterpreted function of its two patterns.

**The log queue.** `CircularQ.dfy` is the ring buffer and the bounded sequence it stands for, `BlockingQueue.dfy` the
queue over it: lock regions are atomic steps and `notify_one` is a later step of its own, as in the code.

**FlexBuffers.** `FlexWidths.dfy` is the width selection, `FlexBuffers.dfy` the layout and the accessors,
`FlexRoundTrip.dfy` proves that the width chosen before writing always suffices and that trees round trip,
`FlexBuilder.dfy` is the builder object and `FlexKnownBytes.dfy` gives the finished buffers of small trees byte by byte.

Methods of classes change the fields the source changes and are proved equal to a function of the old state; the
theorems are about these functions. Some recursive functions are split into steps that call each other only so that
proofs do not unfold them unasked.

## Model

| member | source | states |
|---|---|---|
| Bytes.WriteRead | cpp/include/flatbuffers/base.h:427-443 | Writing a scalar of n bytes little endian and reading it back gives the value modulo 256^n. |
| Bytes.ReadWrite | cpp/include/flatbuffers/base.h:427-443 | Bytes are determined by the value they read as: writing that value again gives the same bytes. |
| Bytes.ByteAt | cpp/include/flatbuffers/base.h:427-443 | Byte i of a written scalar is the value divided by 256^i, modulo 256. |
| Bytes.SignedRoundTrip | cpp/include/flatbuffers/flatbuffer_builder.h:491-493 | A 32-bit signed link survives being stored as its two's complement pattern. |
| Bytes.PaddingAligns | cpp/include/flatbuffers/base.h:458-460 | With the padding the size is a multiple of the scalar size. |
| Bytes.PaddingIsLeast | cpp/include/flatbuffers/base.h:458-460 | And no smaller padding makes it one. |
| Bytes.PaddingMask | cpp/include/flatbuffers/base.h:458-460 | The mask expression on 64-bit words is such a padding for each power of two used, below the scalar size and zero on aligned sizes. |
| Downward.GrownCapacity | cpp/include/flatbuffers/vector_downward.h:278-284 | A grown buffer has room for the old one and the request, grows by at least half of the old size or to the initial size, and is the next multiple of the buffer alignment. |
| Downward.VectorDownward.Reallocate | cpp/include/flatbuffers/vector_downward.h:278-293 | Growing keeps both stacks byte for byte and leaves at least `len` free bytes. |
| Downward.VectorDownward.MemcpyDownward | cpp/include/flatbuffers/allocator.h:57-63 | Both ends of the old region arrive at the two ends of the new one. |
| Downward.VectorDownward.EnsureSpace | cpp/include/flatbuffers/vector_downward.h:144-153 | Both stacks are unchanged and at least `len` bytes are free. |
| Downward.VectorDownward.MakeSpace | cpp/include/flatbuffers/vector_downward.h:155-162 | The data stack grows by `len` bytes in front; all older data and the scratch stack stay. |
| Downward.VectorDownward.Push | cpp/include/flatbuffers/vector_downward.h:200-204 | The data stack is the pushed bytes in front of the old data; the scratch stack is unchanged. |
| Downward.VectorDownward.PushSmall | cpp/include/flatbuffers/vector_downward.h:206-211 | The same for a little-endian scalar. |
| Downward.VectorDownward.Fill | cpp/include/flatbuffers/vector_downward.h:220-225 | The data stack gets exactly that many zero bytes in front. |
| Downward.VectorDownward.Pop | cpp/include/flatbuffers/vector_downward.h:233-236 | The front bytes leave the data stack; the scratch stack is unchanged. |
| Downward.VectorDownward.Poke | cpp/include/flatbuffers/base.h:441-443 | Writing into the data stack changes just those bytes. |
| Downward.VectorDownward.ScratchPushSmall | cpp/include/flatbuffers/vector_downward.h:213-218 | The scratch stack grows by the bytes at its end; the data stack is unchanged, also when the buffer moves. |
| Downward.VectorDownward.ScratchPop | cpp/include/flatbuffers/vector_downward.h:238-238 | The scratch stack loses its last bytes; the data stack is unchanged. |
| Downward.VectorDownward.ClearScratch | cpp/include/flatbuffers/vector_downward.h:102-102 | The scratch stack is emptied and the data stack kept. |
| Downward.VectorDownward.DataAt | cpp/include/flatbuffers/vector_downward.h:198-198 | An offset from the end names the same data bytes, wherever the buffer lies. |
| Building.ScratchPush | cpp/include/flatbuffers/flatbuffer_builder.h:327-334 | Pushing a field location on the scratch bytes adds that field on top of the remembered vtables and earlier fields. |
| Building.ScratchClear | cpp/include/flatbuffers/flatbuffer_builder.h:521-525 | Popping the open table's locations leaves exactly the remembered vtables. |
| Building.LocInScratch | cpp/include/flatbuffers/flatbuffer_builder.h:453-455 | Location i of the open table is found, unchanged, i times eight bytes above the remembered vtables. |
| Building.WordInScratch | cpp/include/flatbuffers/flatbuffer_builder.h:470-474 | Remembered vtable i is found four times i bytes into the scratch stack. |
| Building.FilledIs | cpp/include/flatbuffers/flatbuffer_builder.h:453-462 | Patching the slots one at a time in the growing buffer gives the vtable that the tracked fields describe, with the rest untouched. |
| Building.FindUnderPrefix | cpp/include/flatbuffers/flatbuffer_builder.h:469-476 | Searching for an equal vtable finds the same one although the new vtable and link now lie in front. |
| Building.FlatBufferBuilder.constructor | cpp/include/flatbuffers/flatbuffer_builder.h:96-108 | A new builder is empty, with vtable sharing on. |
| Building.FlatBufferBuilder.Align | cpp/include/flatbuffers/flatbuffer_builder.h:290-293 | Pads to the size in place and remembers the largest alignment. |
| Building.FlatBufferBuilder.PushElement | cpp/include/flatbuffers/flatbuffer_builder.h:312-318 | In place: one aligned scalar in front; the offset returned is the new size. |
| Building.FlatBufferBuilder.PreAlign | cpp/include/flatbuffers/flatbuffer_builder.h:529-533 | In place: pads so that after `len` more bytes the buffer is aligned; nothing for `len` 0. |
| Building.FlatBufferBuilder.ReferTo | cpp/include/flatbuffers/flatbuffer_builder.h:376-402 | In place: aligns and gives the distance from the next slot to the target. |
| Building.FlatBufferBuilder.TrackField | cpp/include/flatbuffers/flatbuffer_builder.h:327-334 | In place: the field's location goes on the scratch stack, the data is unchanged. |
| Building.FlatBufferBuilder.AddElement | cpp/include/flatbuffers/flatbuffer_builder.h:338-342 | In place: a default value leaves everything unchanged, any other is pushed and tracked. |
| Building.FlatBufferBuilder.AddOffset | cpp/include/flatbuffers/flatbuffer_builder.h:350-353 | In place: a null offset leaves everything unchanged, any other is stored relative and tracked. |
| Building.FlatBufferBuilder.StartTable | cpp/include/flatbuffers/flatbuffer_builder.h:420-424 | Opens a table and returns the size so far. |
| Building.FlatBufferBuilder.PatchSlots | cpp/include/flatbuffers/flatbuffer_builder.h:453-462 | In place: the slot of each tracked field gets its distance, read off the scratch stack; nothing else changes. |
| Building.FlatBufferBuilder.LookUp | cpp/include/flatbuffers/flatbuffer_builder.h:469-480 | The loop returns the first remembered vtable equal to the one on top, or none. |
| Building.FlatBufferBuilder.ShareVTable | cpp/include/flatbuffers/flatbuffer_builder.h:464-485 | In place: an equal vtable replaces the new one, which is popped; otherwise the new one is remembered. The "is it new" test after the pop is right in both cases. |
| Building.FlatBufferBuilder.EndTable | cpp/include/flatbuffers/flatbuffer_builder.h:429-496 | The whole in-place sequence (link, vtable, slots, search, pop, link again) leaves exactly the closed table of the value-level specification, with or without sharing. |
| Building.FlatBufferBuilder.StartVector | cpp/include/flatbuffers/flatbuffer_builder.h:692-699 | In place: both pre-alignments of a vector. |
| Building.FlatBufferBuilder.EndVector | cpp/include/flatbuffers/flatbuffer_builder.h:684-688 | In place: the length goes in front. |
| Building.FlatBufferBuilder.CreateVectorOfStructs | cpp/include/flatbuffers/flatbuffer_builder.h:937-948 | In place: the elements' bytes with their length in front. |
| Building.FlatBufferBuilder.CreateVectorOfOffsets | cpp/include/flatbuffers/flatbuffer_builder.h:802-808 | The backwards loop writes the offset vector of the specification. |
| Building.FlatBufferBuilder.Finish | cpp/include/flatbuffers/flatbuffer_builder.h:1293-1320 | In place: root offset in front of the aligned buffer; the scratch stack is cleared. |
| Layout.FindVTable | cpp/include/flatbuffers/flatbuffer_builder.h:469-476 | A vtable found is remembered and equal; when none is found no remembered one is equal. |
| TableLayout.AddElementExtends | cpp/include/flatbuffers/flatbuffer_builder.h:338-342 | A stored scalar is aligned, reads back at its position, is tracked there, and leaves the older bytes. |
| TableLayout.AddOffsetExtends | cpp/include/flatbuffers/flatbuffer_builder.h:350-384 | A stored offset leads from its slot to its target, is aligned and tracked. |
| TableLayout.ApplyAllStores | cpp/include/flatbuffers/flatbuffer_builder.h:327-353 | After any list of `add_` calls each stored field lies, aligned and readable, where it is tracked; skipped ones are not tracked. |
| TableLayout.SlotFilled | cpp/include/flatbuffers/flatbuffer_builder.h:453-462 | The filled vtable gives for each field its distance from the table's start. |
| TableLayout.SlotUntouched | cpp/include/flatbuffers/flatbuffer_builder.h:445-462 | Slots of fields not written stay zero. |
| TableLayout.NewVTableSize | cpp/include/flatbuffers/flatbuffer_builder.h:442-451 | A vtable starts with its own size, which is even and at least 4. |
| TableLayout.EndTableShares | cpp/include/flatbuffers/flatbuffer_builder.h:469-495 | With an equal vtable remembered the table is linked to it, and nothing is remembered anew. |
| TableLayout.EndTableAddsDifferent | cpp/include/flatbuffers/flatbuffer_builder.h:469-485 | A vtable that is remembered anew differs from all remembered before. |
| TableLayout.EndTableCloses | cpp/include/flatbuffers/flatbuffer_builder.h:429-496 | A closed table is linked to a vtable that describes exactly its fields; a shared one lies strictly below the table, a new one strictly above; remembered vtables stay pairwise different. |
| TableLayout.TableReadsBack | cpp/include/flatbuffers/flatbuffer_builder.h:338-496 | Every table, with sharing on or off and whatever was written before, reads back exactly the fields it was given, skipped and unmentioned ones as absent. |
| Dedup.PartsHold | cpp/include/flatbuffers/flatbuffer_builder.h:429-496 | After any sequence of tables and vectors of tables that refer to each other, every one still holds its own fields, its references leading to the parts they named, and the remembered vtables are readable and, with sharing on, pairwise different. |
| Dedup.LeadsToOne | cpp/include/flatbuffers/flatbuffer_builder.h:376-402 | What a stored reference leads to is determined: nothing, one place in the older bytes, or one part. |
| Dedup.PartsRead | cpp/include/flatbuffers/flatbuffer_builder.h:429-496 | With sharing on or off, the accessors of every part give its scalars, what its references name, and nothing for unmentioned fields. |
| Dedup.SharingKeepsMeaning | cpp/include/flatbuffers/flatbuffer_builder.h:463-495 | The same sequence written with and without sharing, which moves its parts and changes the stored references: each part reads the same, scalars as the same value, references as leading to the same older bytes or the same part, unmentioned fields as absent. |
| Dedup.RequestIsParts | cpp/src/worker.cpp:69-95 | A request of either kind is such a sequence after its pairs, its root referring to the parameters just written. |
| Dedup.ResponseIsParts | cpp/src/range_pricer.cpp:138-157 | So is a response: its vector refers to the row tables and its root to the vector. |
| VectorLayout.StartVectorAligns | cpp/include/flatbuffers/flatbuffer_builder.h:692-699 | The second pre-alignment does not undo the first: length and first element are both aligned. |
| VectorLayout.CreateVectorReads | cpp/include/flatbuffers/flatbuffer_builder.h:937-948 | A vector of structs has its length and then its bytes at the returned offset, both aligned from the end. |
| VectorLayout.PushOffsetsReads | cpp/include/flatbuffers/flatbuffer_builder.h:802-806 | Element i of the pushed offsets leads to offset i, although they are pushed backwards. |
| VectorLayout.CreateVectorOfOffsetsReads | cpp/include/flatbuffers/flatbuffer_builder.h:802-808 | A vector of offsets has its length, and element i leads to offset i. |
| VectorLayout.FinishReads | cpp/include/flatbuffers/flatbuffer_builder.h:1293-1320 | The finished size is a multiple of every alignment used, and the root is found from the front. |
| VectorLayout.TableStays | cpp/include/flatbuffers/table.h:30-62 | A table keeps reading the same fields whatever is written in front of it. |
| VectorLayout.ElementReads | cpp/include/flatbuffers/buffer.h:130-139 | Following element i of an offset vector reaches the table it was made for. |
| Tables.FieldOffsetUnderPrefix | cpp/include/flatbuffers/table.h:36-44 | A field lookup depends only on the bytes behind the table's position from the end. |
| Alignment.WriteTableSize | cpp/include/flatbuffers/flatbuffer_builder.h:429-496 | A table adds at most 16 bytes a field, 7 for its link, and a vtable as long as its highest field needs. |
| Alignment.WriteTableAligns | cpp/include/flatbuffers/flatbuffer_builder.h:286-293 | Writing a table never lowers the buffer's alignment, and covers every scalar stored. |
| Binary32.ZeroPatterns | cpp/include/flatbuffers/base.h:469-485 | Exactly the patterns 0 and 0x8000_0000 stand for a number equal to 0.0. |
| Messages.EqualsZeroMeans | cpp/include/flatbuffers/flatbuffer_builder.h:338-342 | The writer skips a float exactly when the number it stands for is equal to the default 0.0. |
| Messages.PairsBytes | cpp/include/generated/pricing_request_generated.h:68-95 | Each pair takes 12 bytes, in order. |
| RoundTrip.ParamsRead | cpp/include/generated/pricing_request_generated.h:97-135 | Each of the five numeric fields, read at its own slot (6 to 14), holds the pattern given, bit for bit except that 0x8000_0000 reads as 0; `option_type`, which is not added here, reads as 0. |
| RoundTrip.RowReads | cpp/include/generated/pricing_request_generated.h:347-381 | The index reads back exactly and each of the four floats, at its own slot (6 to 12), as the pattern given, bit for bit except that 0x8000_0000 reads as 0. |
| RoundTrip.PairAt | cpp/include/generated/pricing_request_generated.h:68-95 | Pair k lies 12 k bytes into the vector: index, alpha and beta four bytes apart. |
| RoundTrip.PairsRead | cpp/include/generated/pricing_request_generated.h:68-95 | Every pair of a vector reads back bit for bit. |
| RoundTrip.RowsRead | cpp/include/flatbuffers/buffer.h:124-139 | Every row table is reached through its offset and reads as its own row. |
| RoundTrip.PushRowsReads | cpp/src/worker.cpp:248-253 | After any number of rows, with vtables shared between them, each row table reads its own row. |
| RoundTrip.ResponseRoundTrip | cpp/include/generated/pricing_request_generated.h:413-490 | For every tag and list of rows the finished batch response, which has the range response's layout, reads back as that tag and, row by row, the same index and the same patterns, 0x8000_0000 as 0. |
| RoundTrip.RequestRoundTrip | cpp/include/generated/pricing_request_generated.h:189-345 | For every parameter set and list of pairs both finished requests read back as that tag, those pairs and, parameter by parameter, the same patterns, 0x8000_0000 as 0. |
| KnownBytes.ErrorReplyIs | cpp/src/worker.cpp:210-211 | The reply to an invalid request is these twelve bytes: 8 0 0 0, 4 0 4 0, 4 0 0 0. |
| KnownBytes.OneRowResponseIs | cpp/src/range_pricer.cpp:138-160 | For every nonzero tag and every row with nonzero index, alpha, beta and price and no hedge, all 72 bytes of the finished response: root offset, both vtables, the links to them, the vector, and where tag, index and the three patterns lie. |
| Sizes.ResponseSize | cpp/src/worker.cpp:247-257 | A response takes at most 107 bytes a row and 100 more. |
| Sizes.RequestSize | cpp/src/worker.cpp:69-92 | A request takes at most 12 bytes a pair and 300 more. |
| Assembly.Table | cpp/include/generated/pricing_request_generated.h:138-187 | The generated builders' calls on the builder object write exactly the table of the specification. |
| Assembly.CreateRows | cpp/src/worker.cpp:247-253 | The loop over the rows writes exactly the specified row tables and collects their offsets. |
| Assembly.BuildResponse | cpp/src/range_pricer.cpp:138-160 | The builder object's run for a response yields the bytes that the round trip and the acceptance theorem are about. |
| Assembly.BuildRequest | cpp/src/worker.cpp:69-95 | The same for a request of either kind. |
| Assembly.BuildErrorReply | cpp/src/worker.cpp:210-211 | And for the reply to a request that fails its check. |
| Verifiers.VTablePosReads | cpp/include/flatbuffers/verifier.h:189-192 | The unsigned, wrapping vtable position is in the buffer only if it is the signed one the accessors use. |
| Verifiers.FieldOffsetReadable | cpp/include/flatbuffers/table.h:36-44 | After the table check any field lookup stays in the buffer. |
| Verifiers.Target | cpp/include/flatbuffers/table.h:52-58 | A checked reference leads inside the buffer, or is null exactly when the field is absent. |
| Verifiers.Element | cpp/include/flatbuffers/buffer.h:130-139 | After the vector check the reference in each element can be followed. |
| Verifiers.VerifyTableStart | cpp/include/flatbuffers/verifier.h:185-200 | Success means that the table's link and its whole vtable lie in the buffer. |
| Verifiers.VerifyRows | cpp/include/flatbuffers/verifier.h:173-182 | Success over n rows leaves the depth and adds exactly n tables. |
| Verifiers.Verifier.VerifyComplexity | cpp/include/flatbuffers/verifier.h:286-290 | Counts one level and one table, and fails exactly beyond a limit. |
| Verifiers.Verifier.TableStart | cpp/include/flatbuffers/verifier.h:185-200 | The object's check of a table start has the verdict and the counters of the specification. |
| Verifiers.Verifier.VectorOfTables | cpp/include/flatbuffers/verifier.h:173-182 | The loop, which stops at the first failing table, has the verdict and counters of the recursive specification. |
| Verifiers.Verifier.Params | cpp/include/generated/pricing_request_generated.h:126-135 | The check of the parameters has the verdict and counters of the specification. |
| Verifiers.Verifier.Row | cpp/include/generated/pricing_request_generated.h:372-380 | The check of a row has the verdict and counters of the specification. |
| Verifiers.Verifier.Response | cpp/include/generated/pricing_request_generated.h:442-449 | The check of a response has the verdict and counters of the specification. |
| Verifiers.Verifier.Request | cpp/include/generated/pricing_request_generated.h:206-214 | The check of a request has the verdict and counters of the specification. |
| Verifiers.RowsStopEarly | cpp/include/flatbuffers/verifier.h:173-182 | Once a row fails, the verdict and counters for all rows are those at that row. |
| CheckMeaning.ParamsCheckIs | cpp/include/generated/pricing_request_generated.h:126-135 | For every byte string: the check of parameters succeeds if and only if link and vtable lie aligned in the buffer, each of the six fields is absent or lies aligned inside it, and depth 64 and 1,000,000 tables are not exceeded. |
| CheckMeaning.RowCheckIs | cpp/include/generated/pricing_request_generated.h:372-380 | The same for the five fields of a row. |
| CheckMeaning.RowsCheckIs | cpp/include/flatbuffers/verifier.h:173-182 | The first n rows pass if and only if each reference leads to a sound row and the limits leave room for n tables. |
| CheckMeaning.ResponseCheckIs | cpp/include/generated/pricing_request_generated.h:442-449 | A response passes if and only if its table and tag are sound and its results are absent or a vector, inside the buffer, of references to sound rows. |
| CheckMeaning.RequestCheckIs | cpp/include/generated/pricing_request_generated.h:285-293 | A request of either kind passes if and only if its table and tag are sound, and its parameters and pairs are present and sound. |
| CheckMeaning.RangeRequestBufferIs | cpp/include/generated/pricing_request_generated.h:567-571 | A message passes the server's check if and only if it has at least 12 bytes and its root offset leads forward to a sound range request. |
| Soundness.ResponseCheckSound | cpp/include/generated/pricing_request_generated.h:442-449 | For every byte string: if the check of a response succeeds, vtable, fields, vector, elements and every row table can be read inside the buffer. |
| Soundness.RequestCheckSound | cpp/include/generated/pricing_request_generated.h:285-293 | The same for both requests, whose parameters and pairs are then present. |
| Soundness.RangeRequestBufferSound | cpp/include/generated/pricing_request_generated.h:567-571 | A message that passes the server's check has a readable root request. |
| Acceptance.TableAccepted | cpp/include/flatbuffers/verifier.h:185-200 | Every table of a finished buffer passes the table check, alignment included. |
| Acceptance.ScalarAccepted | cpp/include/flatbuffers/table.h:157-166 | Every stored or skipped scalar of a finished buffer passes its field check. |
| Acceptance.RefAccepted | cpp/include/flatbuffers/table.h:178-193 | Every stored reference of a finished buffer passes its check and leads to its target. |
| Acceptance.TypedParamsAccepted | python/range_pricer_client.py:62-69 | Finished parameters with all six fields that the Python client adds, whatever the option type, pass the check and read with that option type and the five patterns. |
| Acceptance.RowsVerdict | cpp/include/flatbuffers/verifier.h:173-182 | Well-formed rows pass exactly as long as the table limit is not exceeded. |
| Acceptance.ResponseAcceptedIff | cpp/include/generated/pricing_request_generated.h:442-449 | A finished response is accepted, alignment checked, if and only if it has at most 999,999 rows. |
| Acceptance.BatchRequestAccepted | cpp/src/worker.cpp:124-130 | Every finished batch request passes the worker's check. |
| Acceptance.RangeRequestAccepted | cpp/src/worker.cpp:207-208 | Every finished range request passes the server's check. |
| Acceptance.ErrorReplyReads | cpp/src/worker.cpp:208-214 | The reply to an invalid request is accepted by the client's check and reads as hash 0 without results. |
| RangePricer.PriceConcat | cpp/src/range_pricer.cpp:101-107 | Pricing chunk by chunk and concatenating is pricing the whole list. |
| RangePricer.ReplayAll | cpp/src/range_pricer.cpp:45-58 | Stores of some values at the indices from 0 on leave just these values there and everything beyond untouched. |
| RangePricer.WholeLanesAre | cpp/src/range_pricer.cpp:45-48 | The vector loop covers the inputs up to the last whole lane. |
| RangePricer.Floats.Store | cpp/src/range_pricer.cpp:55-56 | A store is put on record, and the contents are the replay of the record. |
| RangePricer.VectorizedPrice | cpp/src/range_pricer.cpp:45-58 | For every lane count and every length the stores into each array are exactly one at each index, in order, and none elsewhere; whole lanes get the vector result, the tail the scalar one. |
| RangePricer.NotPositiveMeans | cpp/src/range_pricer.cpp:79-82 | The patterns refused are exactly those of the numbers up to zero, minus infinity and both zeros included, NaN excluded. |
| RangePricer.PriceInto | cpp/src/range_pricer.cpp:87-107 | The array loops and packing give one row for each input, in order, with that input's index, alpha and beta, the exponential of interest rate and maturity as price, and hedge ratio 0. |
| RangePricer.Price | cpp/src/range_pricer.cpp:73-108 | Refuses if and only if maturity or discretization stands for a number `<= 0` (a NaN is not refused); otherwise returns a row for each input, with its index, alpha and beta and the same price and hedge. |
| RangePricer.Process | cpp/src/range_pricer.cpp:112-161 | Refuses the same parameters, otherwise returns the finished response, under the batch id, with every pair priced. |
| RangePricer.ProcessAgreesWithPrice | cpp/src/range_pricer.cpp:73-161 | `process` refuses exactly when `price` does; otherwise `price` gives each input its own index, alpha, beta, price and hedge, and the bytes of `process` read as these rows. |
| Batches.ChunkSizes | cpp/src/worker.cpp:58-76 | No chunk is empty, none exceeds the chunk size, and only the last may be shorter. |
| Batches.ChunksPartition | cpp/src/worker.cpp:58-76 | The chunks in order concatenate to the request's pairs. |
| Batches.BatchIdsDistinct | cpp/src/worker.cpp:89-89 | Batch ids are pairwise distinct within a request, although the 64-bit product wraps. |
| Batches.BatchMessageAt | cpp/src/worker.cpp:65-95 | Message c carries the request's parameters, its own id and chunk c. |
| Batches.BatchMessageReads | cpp/src/worker.cpp:65-95 | Read from its bytes, message c has id hash * 1000 + c modulo 2^64, every parameter of the request in its own field, and the pairs from c * lanes up to (c + 1) * lanes or the end. |
| Batches.ExpandToBatches | cpp/src/worker.cpp:53-99 | The loops produce (pairs + lanes - 1) / lanes messages in order, and message c reads as its own id, the request's parameters field by field, and pairs c * lanes up to (c + 1) * lanes or the end. |
| Workers.RequestReadFits | cpp/include/flatbuffers/table.h:46-58 | Whatever bytes a request is read from, its values fit their types. |
| Workers.Answer | cpp/src/worker.cpp:116-152 | One turn of the worker's loop yields exactly one message on all three paths: empty for an invalid batch, empty for a refused one, the priced response otherwise. |
| Workers.ReplyNamesBatch | cpp/src/worker.cpp:136-152 | The answer to a batch that passes its check is empty when refused; otherwise it reads as the id of that batch with as many rows as the batch has pairs. |
| Workers.BatchChecked | cpp/src/worker.cpp:121-130 | The worker accepts and reads back exactly the batch that was sent. |
| Workers.ResponseCollected | cpp/src/worker.cpp:234-242 | The server takes every row of a result message, or none when it has more than 999,999. |
| Workers.BatchComesBack | cpp/src/worker.cpp:116-242 | The rows that come back for a batch are its priced pairs, or none when the parameters are refused or the batch is too large. |
| Gather.FlatMapPermutes | cpp/src/worker.cpp:229-242 | Gathering results in any order of arrival gives the same rows. |
| Gather.SortedIsUnique | cpp/src/worker.cpp:244-245 | Rows with strictly increasing indices have one sorted order only. |
| Gather.AllOrNothing | cpp/src/worker.cpp:229-242 | With chunks of at most 999,999 pairs the gathered rows are all rows in order, or none. |
| Gather.CompleteIff | cpp/src/worker.cpp:229-242 | For accepted parameters no row is missing if and only if the chunk size or the request is at most 999,999 pairs. |
| Gather.PartialReply | cpp/src/worker.cpp:229-242 | Beyond that a reply can be partial: 1,000,001 pairs in chunks of 1,000,000 give one row. |
| Gather.PricedStrict | cpp/src/worker.cpp:244-245 | Strictly increasing pair indices give strictly increasing row indices. |
| Gather.Grid | cpp/src/client.cpp:50-55 | The nested loops produce a pair for each alpha and beta: at i * |betas| + j the i-th alpha, the j-th beta and that position as a 32-bit index. |
| Gather.GridNumbered | cpp/src/client.cpp:52-55 | Pair k of the grid has index k as a 32-bit counter. |
| Gather.GridIsStrict | cpp/src/client.cpp:52-55 | The indices increase strictly as long as the counter does not wrap. |
| Conservation.PullConserves | cpp/src/worker.cpp:116-119 | Pulling a batch leaves the answers in flight as they are. |
| Conservation.ComputeConserves | cpp/src/worker.cpp:121-140 | So does computing an answer. |
| Conservation.PushConserves | cpp/src/worker.cpp:126-152 | So does pushing it. |
| Conservation.DispatchConserves | cpp/src/worker.cpp:222-223 | Dispatching a batch to any worker adds exactly its answer to what is in flight. |
| Conservation.CollectConserves | cpp/src/worker.cpp:229-234 | Receiving a result from any worker takes exactly that result from what is in flight. |
| Conservation.LinesInOrder | cpp/src/worker.cpp:116-234 | Each worker is first in, first out: the answer to a dispatched batch goes to the end of that worker's line of answers, the server receives the front of it, and no other step of a living worker changes the line. |
| Runs.CountingIsEnough | cpp/src/worker.cpp:229-242 | When as many results as batches were counted, nothing is in flight and the results are a permutation of the answers to this request's batches. |
| Runs.StepInv | cpp/src/worker.cpp:116-270 | Every step of every thread keeps the conservation law and the correctness of all replies given. |
| Runs.RunInv | cpp/src/worker.cpp:116-270 | They hold in every state of every interleaving. |
| Runs.NothingLeaks | cpp/src/worker.cpp:229-260 | Between requests, and once counting ends, every pipe is empty and every worker waits, in every run. |
| Runs.RepliesAreOwn | cpp/src/worker.cpp:199-260 | In every run each reply was computed from exactly the answers to its own request's batches. |
| Progress.InternalDecreases | cpp/src/worker.cpp:222-260 | Each internal step leaves strictly less work. |
| Progress.RequestProgresses | cpp/src/worker.cpp:222-260 | While a request is open some internal step is possible: the server never waits in vain. |
| Progress.AnyoneMayMove | cpp/src/worker.cpp:116-260 | Every interleaving is among the runs: before shutdown each worker may be given the next batch, each that has work may go on, each result that arrived may be received, and the signal may come at any moment. |
| Progress.PathOpenOrAnswered | cpp/src/worker.cpp:222-260 | In every state along the internal steps the request is still open with nothing added to the history, or exactly its own reply was added. |
| Progress.RequestCompletes | cpp/src/worker.cpp:199-260 | Without a signal every interleaving of internal steps is finite, and it ends only when the request was answered: exactly one reply, to it, was added to the history, and the server is ready for the next request. |
| Progress.ReceivedIsAnswered | cpp/src/worker.cpp:199-260 | So in every run a received request that passes its check is answered. |
| Progress.InvalidIsAnsweredAtOnce | cpp/src/worker.cpp:207-215 | A received request that fails its check is answered in the same step, with the refusal, and reaches no worker. |
| Progress.AnswerIsReached | cpp/src/worker.cpp:199-260 | From every serving state some internal steps lead to where the server waits for the next request. |
| Shutdown.ShutdownDecreases | cpp/src/worker.cpp:153-270 | After the context was shut down every step comes strictly closer to the end, whatever the phase. |
| Shutdown.ShutdownProgresses | cpp/src/worker.cpp:153-270 | Until all threads are joined some step is possible. |
| Shutdown.ShutdownTerminates | cpp/src/worker.cpp:153-270 | After shutdown every interleaving is finite, and one that cannot continue has joined every worker and the monitor. |
| Shutdown.DoneMeansEnded | cpp/src/worker.cpp:262-269 | In every run, when the program is done all of its workers have left their loops and the monitor has stopped. |
| EndToEnd.AnswerTaken | cpp/src/worker.cpp:116-242 | What the server takes from the answer to a batch message is that batch's rows. |
| EndToEnd.GatheredRows | cpp/src/worker.cpp:229-245 | Whatever the order of arrival, the sorted rows are a sorted permutation of the rows of all batches. |
| EndToEnd.RowsAreClean | cpp/src/worker.cpp:240-253 | Sorting keeps the number of rows, and the sorted rows survive being stored in the reply. |
| EndToEnd.ReplyIsSorted | cpp/src/worker.cpp:199-260 | In every run the reply to a valid request is the response, under its hash, with a permutation of its own rows sorted by idx, and reads back as that. |
| EndToEnd.RowsDetermined | cpp/src/worker.cpp:244-245 | With strictly increasing indices and chunks up to 999,999 the reply's rows are determined. |
| EndToEnd.RequestArrives | cpp/src/worker.cpp:201-217 | The server reads exactly the request the client built. |
| EndToEnd.SmallChunksManageable | cpp/src/worker.cpp:53-99 | With chunks of at most 999,999 pairs every message between server and workers fits a buffer, for any number of pairs. |
| EndToEnd.ClientIsAdmitted | cpp/src/worker.cpp:53-62 | So every request that a client can build and whose chunks can be counted in an `int` is admitted. |
| EndToEnd.AnyMessageIsHandled | cpp/src/worker.cpp:201-217 | Any bytes that a buffer holds are handled: refused when they fail the check, and otherwise cut into batches and, when the chunks can be counted in an `int` and are small, admitted. |
| EndToEnd.SomeSort | cpp/src/worker.cpp:243-245 | There is a sort as the theorems assume it. |
| EndToEnd.ExpectedIsPrices | cpp/src/range_pricer.cpp:112-161 | The rows expected for a request are none when maturity or discretization stands for a number `<= 0`, and otherwise one for each pair: its index, its alpha and beta and the exponential of rate and maturity, pattern by pattern, and hedge 0. |
| EndToEnd.ClientReadsItsPrices | cpp/src/client.cpp:50-109 | End to end, for every worker count, chunk size up to 999,999, interleaving and arrival order: a reply to a request is the response with the expected rows, and, unless it exceeds a buffer, what the accessors read from its bytes is the request's hash and, in row k, the index, alpha and beta of pair k, the exponential of rate and maturity, and hedge 0 (no row when the parameters are refused); the client accepts it if and only if it has at most 999,999 rows. |
| EndToEnd.ClientGetsItsPrices | cpp/src/worker.cpp:199-260 | And that reply comes: once the request was received, the internal steps of every interleaving end, and they end with exactly this reply added to the history. |
| EndToEnd.InvalidIsRefused | cpp/src/worker.cpp:207-215 | In every run a message that fails the server's check is answered with the empty response, whose twelve bytes are given. |
| CircularQueue.RingPush | cpp/include/spdlog/details/circular_q.h:46-57 | Writing at the tail and stepping it appends to the window of items, dropping the oldest exactly when the buffer is full. |
| CircularQueue.RingPop | cpp/include/spdlog/details/circular_q.h:83-83 | Stepping the head drops exactly the oldest item. |
| CircularQueue.CircularQ.constructor | cpp/include/spdlog/details/circular_q.h:28-31 | A new queue is empty with the given capacity. |
| CircularQueue.CircularQ.Disabled | cpp/include/spdlog/details/circular_q.h:25-26 | A default queue is empty and disabled. |
| CircularQueue.CircularQ.PushBack | cpp/include/spdlog/details/circular_q.h:46-57 | The ring buffer acts as the bounded sequence: append, drop and count the oldest when full, ignore when disabled. |
| CircularQueue.CircularQ.PopFront | cpp/include/spdlog/details/circular_q.h:83-83 | The sequence loses its first item. |
| CircularQueue.CircularQ.Front | cpp/include/spdlog/details/circular_q.h:61-63 | The first item of the sequence. |
| CircularQueue.CircularQ.At | cpp/include/spdlog/details/circular_q.h:76-79 | Item i of the sequence. |
| CircularQueue.CircularQ.Empty | cpp/include/spdlog/details/circular_q.h:85-85 | True exactly when the sequence is empty. |
| CircularQueue.CircularQ.Full | cpp/include/spdlog/details/circular_q.h:87-93 | True exactly when an enabled queue holds its capacity. |
| CircularQueue.CapacityZero | cpp/include/spdlog/details/circular_q.h:46-57 | With capacity 0 every push overruns and the queue stays empty. |
| BlockingQueue.MpmcBlockingQueue.TryEnqueue | cpp/include/spdlog/details/mpmc_blocking_q.h:31-57 | One lock region of a blocking producer: the item goes in exactly when there is room. |
| BlockingQueue.MpmcBlockingQueue.EnqueueNowait | cpp/include/spdlog/details/mpmc_blocking_q.h:41-47 | The item always goes in, overrunning the oldest when full. |
| BlockingQueue.MpmcBlockingQueue.TryDequeue | cpp/include/spdlog/details/mpmc_blocking_q.h:68-90 | One lock region of a consumer: the oldest item comes out exactly when there is one. |
| BlockingQueue.EnqueueDoes | cpp/include/spdlog/details/mpmc_blocking_q.h:31-38 | In the step relation a blocking enqueue puts its item at the back and owes one notification, or, on a full queue, waits with its item and changes nothing else. |
| BlockingQueue.EnqueueNowaitDoes | cpp/include/spdlog/details/mpmc_blocking_q.h:41-47 | An enqueue without waiting always puts its item at the back; on a full queue the oldest item goes and is counted as overrun. |
| BlockingQueue.EnqueueIfHaveRoomDoes | cpp/include/spdlog/details/mpmc_blocking_q.h:49-64 | On a full queue the item is dropped and counted, outside the lock, and the stored items stay; otherwise it goes to the back. |
| BlockingQueue.DequeueDoes | cpp/include/spdlog/details/mpmc_blocking_q.h:68-90 | Either dequeue takes the oldest item and owes one notification, or, on an empty queue, waits or gives up and changes no item. |
| BlockingQueue.MovesDo | cpp/include/spdlog/details/mpmc_blocking_q.h:31-90 | Notifying uses up one notification and wakes at most one thread; no wakeup touches an item. |
| BlockingQueue.NothingIsForbidden | cpp/include/spdlog/details/mpmc_blocking_q.h:31-90 | Every call can be made at any time, a woken thread can go on, a pending notification can be delivered, and a sleeping thread can wake on its own. |
| BlockingQueue.WakeupsKept | cpp/include/spdlog/details/mpmc_blocking_q.h:31-90 | Each step of any thread keeps the wakeup invariant. |
| BlockingQueue.NeverLost | cpp/include/spdlog/details/mpmc_blocking_q.h:31-90 | In every run, while a consumer sleeps every stored item has a notification to come or a consumer on its way, and the same for producers and free slots. |
| BlockingQueue.SettledMeansStuckForAReason | cpp/include/spdlog/details/mpmc_blocking_q.h:31-90 | Once notifications settle, consumers sleep only on an empty queue and producers only on a full one; both only with capacity 0. |
| BlockingQueue.OverrunKept | cpp/include/spdlog/details/circular_q.h:46-57 | An overrun keeps what went out and what is stored a subsequence of what was offered. |
| BlockingQueue.StepAccounted | cpp/include/spdlog/details/mpmc_blocking_q.h:31-90 | Each step keeps first-in-first-out order and the accounting. |
| BlockingQueue.OfferedIsAccountedFor | cpp/include/spdlog/details/mpmc_blocking_q.h:31-90 | In every run offered items are those dequeued, stored, overrun and discarded, and dequeued followed by stored is a subsequence of the offered order. |
| BlockingQueue.BlockingIsFifo | cpp/include/spdlog/details/mpmc_blocking_q.h:31-38 | With blocking enqueue alone dequeued followed by stored is the whole offered sequence. |
| CircularQueue.DisabledSwallows | cpp/include/spdlog/details/circular_q.h:25-57 | A default queue stays empty and counts no overrun when an item is pushed, and is never full. |
| FlexWidths.WidthU | cpp/include/flatbuffers/flexbuffers.h:195-205 | The least of the four widths that holds an unsigned value. |
| FlexWidths.WidthMask | cpp/include/flatbuffers/flexbuffers.h:195-205 | The source's tests of the high bits, on 64-bit words, are these comparisons. |
| FlexWidths.WidthI | cpp/include/flatbuffers/flexbuffers.h:207-210 | The least width whose signed range holds the value, although it is computed by shifting and complementing the pattern. |
| FlexWidths.OffsetGrows | cpp/include/flatbuffers/flexbuffers.h:1645-1651 | An offset never shrinks when its vector gets wider. |
| FlexWidths.OffsetWidth | cpp/include/flatbuffers/flexbuffers.h:1636-1663 | The search over widths always succeeds (its final assertion is unreachable) and finds the least width that holds its own offset. |
| FlexWidths.ElemOffsetWidth | cpp/include/flatbuffers/flexbuffers.h:1645-1661 | The loop returns that width. |
| FlexWidths.WiderStillFits | cpp/include/flatbuffers/flexbuffers.h:1636-1663 | An offset that fits at its own width, measured at an index that may be too high, fits at its true index in any wider vector. |
| FlexRoundTrip.WidthSuffices | cpp/include/flatbuffers/flexbuffers.h:1725-1769 | The width chosen in advance suffices for the length, a map's keys and every element as finally placed, for vectors and for maps measured with stride 2. |
| FlexRoundTrip.SignSurvives | cpp/include/flatbuffers/flexbuffers.h:145-158 | A signed value survives storage at its own or any wider width. |
| FlexRoundTrip.FieldReads | cpp/include/flatbuffers/flexbuffers.h:1675-1692 | A value written with a width it fits reads back through a reference to its place. |
| FlexRoundTrip.BlobIsSized | cpp/include/flatbuffers/flexbuffers.h:1694-1702 | A string or blob has its length directly before its bytes. |
| FlexRoundTrip.ElemWritten | cpp/include/flatbuffers/flexbuffers.h:1766-1769 | Element k lies k widths after the vector's start. |
| FlexRoundTrip.VectorDenotes | cpp/include/flatbuffers/flexbuffers.h:1725-1781 | A vector of values that stand for trees stands for the vector of these trees. |
| FlexRoundTrip.ReadsStay | cpp/include/flatbuffers/flexbuffers.h:186-189 | What can be read stays readable when the buffer grows. |
| FlexRoundTrip.ReadsUnique | cpp/include/flatbuffers/flexbuffers.h:448-700 | Two trees read from the same place are equal. |
| FlexRoundTrip.TreeRoundTrip | cpp/include/flatbuffers/flexbuffers.h:1007-1516 | Every finite tree of null, bool, int, uint, string, blob and untyped vectors, built and finished with any forced minimum width, reads back as the same tree. |
| FlexKnownBytes.SmallIntIs | cpp/include/flatbuffers/flexbuffers.h:52-86 | An integer of one byte as the root is three bytes: its two's complement, packed type 4, width 1. |
| FlexKnownBytes.ShortStringIs | cpp/include/flatbuffers/flexbuffers.h:1694-1702 | A string of up to 254 bytes as the root is its length, the bytes, a zero, the distance back to the first byte, packed type 20, width 1. |
| FlexKnownBytes.ShortBlobIs | cpp/include/flatbuffers/flexbuffers.h:1694-1702 | A blob of up to 255 bytes: the same without the zero, with packed type 100. |
| FlexKnownBytes.NarrowVectorIs | cpp/include/flatbuffers/flexbuffers.h:1725-1781 | A vector of up to 127 one-byte nulls, booleans and integers as the root is its length, the elements' bytes, their packed types (0, 104, 4 and 8), the distance back to the first element, packed type 40, width 1. |
| FlexBuilding.Builder.ElemWidth | cpp/include/flatbuffers/flexbuffers.h:1636-1663 | The object's width of a value is the specified one. |
| FlexBuilding.Builder.ChooseWidth | cpp/include/flatbuffers/flexbuffers.h:1725-1757 | The first loop finds the vector's width. |
| FlexBuilding.Builder.WriteElements | cpp/include/flatbuffers/flexbuffers.h:1766-1769 | The second loop appends the elements of the specification. |
| FlexBuilding.Builder.WriteTypes | cpp/include/flatbuffers/flexbuffers.h:1770-1775 | The third loop appends their packed types. |
| FlexBuilding.Builder.CreateBlob | cpp/include/flatbuffers/flexbuffers.h:1694-1702 | Appends length and data and pushes the value that refers to them. |
| FlexBuilding.Builder.EndVector | cpp/include/flatbuffers/flexbuffers.h:1243-1249 | The elements leave the stack, the vector is appended and takes their place. |
| FlexBuilding.Builder.Finish | cpp/include/flatbuffers/flexbuffers.h:1500-1516 | Appends the root, its packed type and its width. |
| FlexBuilding.Builder.Add | cpp/include/flatbuffers/flexbuffers.h:1084-1249 | The calls for a tree leave the specified buffer and one value on the stack. |
| FlexBuilding.BuildBuffer | cpp/include/flatbuffers/flexbuffers.h:1007-1516 | The object's finished buffer gives the tree back through the accessors. |

## Left out

- Downward.VectorDownward.EnsureSpace: does not fail at 2,147,483,647 bytes as the source's size assertion does; the theorems about messages assume sizes below that limit.
- EndToEnd.ClientReadsItsPrices: a reply of 2,147,483,647 bytes or more is only said to consist of the response's bytes; the source's builder stops at that size. Chunk counts must fit an `int`.
- EndToEnd.ReplyIsSorted: chunks of more than 999,999 pairs are admitted when the batch messages and the answers to them stay below that size; what the source does with larger ones is not modelled.
- Shutdown.ShutdownTerminates: assumes that after shutdown every socket operation reports termination at once, and says nothing about other errors of the server loop (such as a failing bind), after which the workers wait for a signal.
- Progress.RequestCompletes: pipes are unbounded; ZeroMQ's high-water marks, which can block a sender, are not modelled.
- RangePricer.VectorizedPrice: float arithmetic, lane intrinsics and their alignment are not modelled; vector and scalar results are two parameters, taken to be equal from `PriceInto` on. Stores are on record when they go through the methods of `Floats`, as all of them do.
- RoundTrip.ParamsRead: `option_type` is added neither by the C++ client nor by `expand_to_batches`, so there it reads as its default; of the Python client only the parameters it writes are modelled, in `TypedParamsAccepted`.
- Gather.Grid: the float accumulation that yields the grid values is not modelled; the lists of alphas and betas are inputs.
- Batches.ExpandToBatches: takes a chunk size of at least 1; the source validates only the number of threads.
- BlockingQueue.MpmcBlockingQueue.TryEnqueue: mutex and condition variables appear only in the step relation; each method is one lock region. The counters are unbounded, and resetting them is not modelled.
- BlockingQueue.MpmcBlockingQueue.EnqueueNowait: its notification is a step of its own in the step relation.
- BlockingQueue.MpmcBlockingQueue.TryDequeue: waiting, the timeout and the notification are in the step relation.
- FlexRoundTrip.TreeRoundTrip: floats, keys, maps and typed vectors are not among the trees; the width theorem covers maps.
- FlexBuilding.Builder.EndVector: untyped vectors only; the sorting of map keys in `EndMap` is not modelled.
- Building.FlatBufferBuilder.TrackField: the two padding bytes of a location, unspecified in the source, are zero.
- Verifiers.Verifier.EndTable: the depth stays at 0 instead of wrapping around when it is left more often than entered, which no generated check does.
- Forced defaults, moved-from buffers, allocators and detached buffers.
- 64-bit offsets, strings, shared strings, nested buffers, size prefixes, file identifiers, reflection and mini-reflection of FlatBuffers.
- The FlexBuffers verifier, sharing of keys and strings, and mutation in place.
- Ordering of rows with equal idx: only sortedness and permutation are claimed.
- Thread affinity, signals beyond the shutdown itself, flags, logging output, the request hash, the rest of the Python client and the ZeroMQ wrappers.
