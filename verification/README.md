# A verified model of the SEEDLink to ringserver bridge

The program modelled here reads miniSEED packets from a SEEDLink server and
forwards them to one or more DataLink (ringserver) servers. A reader thread puts
packets into a bounded import queue; a metrics thread takes them out, updates
per-stream statistics and copies each packet into one bounded queue per writer;
each writer converts its packets to miniSEED records and writes them, reconnecting
when it must. Both kinds of queue drop their oldest packet when they are full.

The model follows the build that uses the TBB bounded queue.

| file | models |
|---|---|
| `BoundedChannel.dfy`, `Pipeline.dfy` | the queues and all threads as an interleaved transition system, one queue operation per step |
| `DropOldestQueue.dfy`, `Process.dfy` | the same producers and the fan-out loop as imperative code, run against interfering consumers |
| `StreamMetrics.dfy`, `MetricsHistory.dfy`, `MetricsMap.dfy` | the running statistics of each stream, and what is published over whole histories |
| `Statistics.dfy`, `PacketSums.dfy` | sums, mean and variance over exact numbers |
| `ObservableMap.dfy` | the shared counters and the periodic summary that reads them one key at a time |
| `DataLinkClient.dfy`, `WriterMetrics.dfy` | the writer: handle ownership, reconnection, failure limit; the counters all writers share |
| `DataLinkPackets.dfy` | packing a packet into records with an unflushed and a flushed pass |
| `Packet.dfy`, `StreamIdentifier.dfy`, `SharedKeys.dfy` | packets with a derived end time, identifiers with a cached name and three encodings, and which identifiers share them |
| `RecordWalk.dfy`, `MiniSeedRecords.dfy`, `SeedLinkClient.dfy` | unpacking a buffer of records, the polling loop and its state-file counter |
| `Words.dfy`, `StreamSelector.dfy`, `SeedLinkClientOptions.dfy` | the selector parser and printer, and the list of selectors |
| `Common.dfy`, `Text.dfy`, `Sequences.dfy` | results, character functions, subsequences |

## How to read it

Where the program updates objects step by step, the model is a class with the
same fields and a loop or branch for each of the program's. Ghost fields record
histories (packets seen, outcomes of writes, packets pushed), and `Valid()` ties
the running fields to functions of those histories. The lemmas are about these
functions.

An operation is usually stated twice: as a function of its inputs, which the
lemmas reason about, and apart from that function, as what it does to the packet,
record or counter at hand (`Recorded`, `Published`, `Describes`, `Carries`,
`InOrder`, `HoldsExactly`, `IsPacketOf`). `Pipeline.StepsTakeEffect` and
`WriterMetrics.StepsTakeEffect` say that an enabled step does happen.

Other threads appear in two forms. In `Pipeline.dfy` every atomic queue operation
of every thread is a step and a run is any sequence of steps; the theorems hold
for all of them. In the classes, interference is an arbitrary function that says
what the other threads do before the n-th shared access.

libslink, libdali and libmseed are oracles: functions that may answer anything,
restricted only by the contracts written next to them (`SoundParser`,
`PacksInOrder`, `Dali`). Clock readings are inputs.

Numbers are exact: integers are unbounded and sample arithmetic is over `real`,
except where the code itself rounds or wraps and this is written out (durations,
nanosecond to microsecond truncation, start times that pass through a double, the
unsigned difference in the record loop).

## Where the code and its description differ

The model follows the code; these lemmas say by how much it differs from what its
documentation or naming suggests.

- The published total also counts late packets that are in no other class, while
  README.md:12 describes it as good, future and expired packets
  (`DocumentedTotal`).
- A packet older than six months counts as good when it is still the newest of its
  stream, because that branch comes first (`OldPacketsCountAsGood`).
- The lines that set new counters to zero act on a temporary and create no entry;
  only the gauges are zeroed (`ZeroGauges`, used in `AddStream`).
- The Bessel factor multiplies the square root instead of being under it. The model
  reports the factor and the variance separately, so it does not claim a sample
  standard deviation.
- A counter of popped packets is not a count of dropped packets
  (`PopCounterOvercounts`).
- A selector that names only a network is rejected although the station has a
  default (`NetworkAloneIsRejected`), and a tab next to a blank makes a line
  unacceptable (`TabBesideBlankIsRejected`, `TokensAreWordsExactly`).
- Clearing an identifier keeps the fact that a location code was given
  (`StreamIdentifier.Clear`).
- The state file is saved every interval + 1 data packets
  (`SavesAreExactlyTheMultiples`).
- An unflushed packing pass that leaves trailing samples unpacked is still used;
  those samples are not sent, and that is the only way to lose samples in a
  conversion that succeeds (`EverySampleIsSent`, `UnflushedTailIsDropped`).
- A metrics key, and the name of a stream, do not tell a location code from the end
  of a channel: UU.ABC.HHZ.00 and channel HHZ_00 without a location share a key
  (`LocationCodeIsNotDistinguished`). `MetricsKeyIsShared`, `DottedNameIsShared` and
  `DataLinkNameIsShared` say for which identifiers this can happen at all.
- A record that cannot be unpacked discards the packets already unpacked from the
  same buffer, if it is long enough to be read (`BadRecordLosesAll`).
- Start times lose up to 128 nanoseconds on their way through a double
  (`StartTimeIsRounded`).

## Model

| member | source | states |
|---|---|---|
| Pipeline.QueuesAreSafe | src/seedLinkToRingServer.cpp:177-306 | In every interleaving of reader, metrics thread and any number of writers: no queue exceeds its capacity, no push is ever rejected, no moved-from packet is enqueued, and what was pushed to each queue is all but at most the newest of what its producer was given. |
| Pipeline.WritersSeeArrivalOrder | src/seedLinkToRingServer.cpp:236-305 | What any writer dequeues is a subsequence of what SEEDLink delivered: arrival order is kept and no delivery is dequeued twice. |
| Pipeline.EveryPacketIsAccountedFor | src/seedLinkToRingServer.cpp:236-305 | At every moment, for every writer, each delivered packet is exactly one of: dequeued, evicted from or waiting in one of the two queues, or in the hands of a thread between them (multiset equality). |
| Pipeline.EverythingCanBeDelivered | src/seedLinkToRingServer.cpp:236-305 | From every reachable state some schedule without arrivals empties all queues and idles all threads; then every arrival was dequeued by every writer or evicted, with no evictions beyond those before and at most one for each call already begun. |
| Pipeline.SettledDeliversAll | src/seedLinkToRingServer.cpp:236-305 | Once nothing is left to do, a writer for which nothing was evicted has dequeued exactly the arrivals, in order. |
| Pipeline.StepsTakeEffect | src/seedLinkToRingServer.cpp:254-261 | An enabled step has its effect: an arrival is taken up, the reader gets on with its call and pushes its packet, the metrics thread takes the oldest packet of the import queue whenever there is one, a writer the oldest of its own. |
| Pipeline.FanOutProgress | src/seedLinkToRingServer.cpp:276-297 | Each enabled step of the metrics thread brings the end of the fan-out closer and no step of the reader or a writer postpones it. |
| Pipeline.FanOutIsBounded | src/seedLinkToRingServer.cpp:276-297 | Handing one packet to n writers takes the metrics thread at most 8n + 1 of its own steps, whatever the others do meanwhile. |
| Pipeline.AdvanceKeepsInv | src/seedLinkToRingServer.cpp:177-306 | Every step of every thread keeps the invariant: for each queue, push history + packet in flight + packet not yet offered equals what the producer was given, and the single-packet move leaves nothing to be enqueued twice. |
| BoundedChannel.ChannelIsSafe | src/dataLinkClient.cpp:315-359 | For every capacity > 0 and every schedule of producer and consumer operations: push history = removal history followed by the contents, size within capacity, no rejected push, and the pop counter is evictions plus pops that found the queue drained. |
| BoundedChannel.StepKeepsInv | src/dataLinkClient.cpp:322-351 | Each single queue operation keeps that invariant, including that the size is below capacity whenever the push is next. |
| BoundedChannel.PopCounterOvercounts | src/seedLinkToRingServer.cpp:186-207 | A concrete schedule in which the pop counter is 1 although nothing was evicted: the counter is not the number of dropped packets. |
| BoundedChannel.EnqueueIsBounded | src/dataLinkClient.cpp:315-359 | From any reachable state and under any interference, one enqueue ends within six of its own operations, evicts at most one packet, and evicts none unless the queue was full at the start. |
| BoundedChannel.StepProgress | src/dataLinkClient.cpp:327-345 | The measure behind that bound: own operations decrease it, the consumer never increases it or the eviction budget. |
| BoundedChannel.UndisturbedEnqueue | src/dataLinkClient.cpp:315-359 | Without interference an enqueue appends the packet and, if the queue was full, drops exactly the oldest one. |
| BoundedChannel.ProduceKeepsOffered | src/dataLinkClient.cpp:349-358 | The packet in the hands of the producer is neither lost nor duplicated by any producer operation, and the consumer history is untouched. |
| BoundedChannel.TakenIsSubsequence | src/dataLinkClient.cpp:337-344 | What the consumer took is a subsequence of all removals, and removals are the taken and the evicted packets together. |
| DropOldestQueue.DropOldestQueue.Enqueue | src/dataLinkClient.cpp:315-359 | The imperative eviction loop, with the consumer popping any number of packets between operations, is one run of the transition system; the new packet is pushed, none is rejected, at most one is evicted and only if the queue was full. With leaveLoopOnMiss it is addPacketCallback. |
| DropOldestQueue.DropOldestQueue.TakeOldest | src/dataLinkClient.cpp:219-226 | A pop takes the oldest packet or finds none, and is the consumer step of the transition system. |
| Process.Process.Propagate | src/seedLinkToRingServer.cpp:276-297 | With one writer the packet is moved, with more it is copied; in every case each writer queue is pushed exactly that packet, while the reader goes on between the hand-overs. |
| Process.Process.TabulateMetrics | src/seedLinkToRingServer.cpp:236-305 | Over any number of rounds, with arrivals before every pop and every hand-over, each writer queue is pushed exactly the sequence of packets taken from the import queue. |
| Process.Process.TabulateOnce | src/seedLinkToRingServer.cpp:247-303 | One round takes a packet if and only if there is one, and pushes what it took to every writer queue. |
| Process.Process.Deliver | src/seedLinkToRingServer.cpp:177-234 | Consecutive arrivals are pushed to the import queue in order, whatever had to be evicted and however the metrics thread pops meanwhile. |
| MetricsMap.ConservationPerStream | src/streamMetrics.hpp:733-772 | In every reachable state: published counter under the key of a stream plus its running counter is the number of packets of that class in the subsequence of that stream since start (identifiers normalised and free of both separators). |
| MetricsMap.SummaryReadsReceivedPackets | src/streamMetrics.hpp:774-784 | The shared totals are never negative and together never exceed the number of packets received. |
| MetricsMap.MetricsMap.Update | src/streamMetrics.hpp:738-756 | A packet is counted exactly when its identifier is complete and it has an end time; then the running counters and sums of its own stream move by that packet (from zero for a new stream) and those of every other stream stay; otherwise the map and all counters stay. |
| MetricsMap.MetricsMap.AddStream | src/streamMetrics.hpp:744-751 | A new stream enters the map only if its first packet is counted; its gauges are zeroed either way. |
| MetricsMap.MetricsMap.UpdateStream | src/streamMetrics.hpp:752-755 | A packet of a known stream changes the metrics of that stream only. |
| MetricsMap.MetricsMap.TabulateStream | src/streamMetrics.hpp:655-703 | The stream reports its batch and has then published all it has seen. |
| MetricsMap.MetricsMap.TabulateOne | src/streamMetrics.hpp:655-715 | Tabulating one stream adds its running counters to the published ones of its key and of no other, sets the gauges of its key, and zeroes its running numbers but for the newest end time; every other stream stays as it was. |
| MetricsMap.MetricsMap.TabulateAndResetAllMetrics | src/streamMetrics.hpp:757-768 | Before the interval has passed nothing happens; afterwards everything seen by every stream is published. |
| MetricsHistory.PublishedCounterIsExact | src/streamMetrics.hpp:704-711 | For every history, key and class: the published counter is the sum, over all streams with that key, of the packets of that class up to the last tabulation of each stream. |
| MetricsHistory.PublishedCounterPerStream | src/streamMetrics.hpp:704-711 | With clean identifiers that sum has one term: the count of the one stream with that key. |
| MetricsHistory.KeysAreDistinct | src/streamMetrics.hpp:546-558 | Two streams of a history share a metrics key exactly when they are the same stream. |
| MetricsHistory.TotalsAddUp | src/streamMetrics.hpp:655-715 | For every history: the sum of the published totals plus the packets still unpublished is the number of packets counted; nothing is lost or counted twice by a reset. |
| MetricsHistory.TotalsNonNegative | src/streamMetrics.hpp:710-711 | No published total is ever negative. |
| StreamMetrics.StreamMetrics.Update | src/streamMetrics.hpp:570-654 | A packet of another stream or without an end time throws and changes nothing. With e the end time of any other cut to microseconds: future grows exactly when e is after the clock; good, latency sum (by later - e), newest end time (to e) and the three sample sums (by those of the packet) move exactly when e is at most the clock and after the newest; the running numbers stay equal to the batch numbers. |
| StreamMetrics.ObservationIsOfPacket | src/streamMetrics.hpp:577-598 | What the batch definitions see of a packet is its end time cut to microseconds, the clock, and its own samples. |
| StreamMetrics.StreamMetrics.CountGood | src/streamMetrics.hpp:607-623 | The good branch keeps the running counters, latency sum and the three sample sums equal to the batch values. |
| StreamMetrics.StreamMetrics.CountOther | src/streamMetrics.hpp:625-653 | So do the future, expired and late branches. |
| StreamMetrics.StreamMetrics.Averages | src/streamMetrics.hpp:671-683 | The average and variance computed from the running sums are the mean and the population variance of all samples of the window. |
| StreamMetrics.StreamMetrics.TabulateAndReset | src/streamMetrics.hpp:655-703 | What is reported is the batch report over the packets since the previous tabulation, field by field from the running numbers: the counters, the mean latency in seconds or 60, mean, variance and Bessel factor; the clamp of the variance at zero never changes it; the running numbers are then zero. |
| StreamMetrics.RecordTest | src/streamMetrics.hpp:581 | The test against the most recent sample holds exactly for packets ending later than every earlier one that was not from the future. |
| StreamMetrics.NewestIsMaximum | src/streamMetrics.hpp:611 | The most recent sample is the maximum end time of all packets that did not end in the future. |
| StreamMetrics.ClassOfNewest | src/streamMetrics.hpp:581-653 | The four branches, in the order of the code, classify a packet as the history-based definition does. |
| StreamMetrics.GoodPacketsAdvance | src/streamMetrics.hpp:581-611 | Good packets end strictly later than one another and not after the clock. |
| StreamMetrics.RepeatsAreNotGood | src/streamMetrics.hpp:581 | A packet that repeats or precedes an earlier timely one is never good. |
| StreamMetrics.ClassesPartition | src/streamMetrics.hpp:615-651 | Total = good + future + expired + late, for every sequence of packets. |
| StreamMetrics.DocumentedTotal | src/streamMetrics.hpp:645-652 | The documented meaning of the total (good, future and expired) is right exactly when no packet was late. |
| StreamMetrics.OldPacketsCountAsGood | src/streamMetrics.hpp:581-644 | A packet older than six months is expired exactly when it does not end after all earlier timely ones; otherwise it counts as good. |
| StreamMetrics.LatencyNonNegative | src/streamMetrics.hpp:612-620 | With a clock that does not run backwards the latency sum is never negative. |
| StreamMetrics.ReportIsMeaningful | src/streamMetrics.hpp:679-703 | The reported average lies between the smallest and largest sample; the variance is non-negative and zero exactly for constant samples. |
| StreamMetrics.Registry.Store | src/streamMetrics.hpp:704-714 | Each counter of the key grows by its own count and each gauge of the key takes its own value; no other key changes. |
| Statistics.CauchySchwarz | src/streamMetrics.hpp:681-682 | For every sample sequence, n times the sum of squares is at least the square of the sum. |
| Statistics.VarianceFormula | src/streamMetrics.hpp:679-682 | The one-pass formula on count, sum and sum of squares equals the mean squared distance from the mean. |
| Statistics.VarianceNonNegative | src/streamMetrics.hpp:702-703 | The variance is non-negative, and zero exactly when all samples are equal. |
| Statistics.MeanIsBetween | src/streamMetrics.hpp:679 | The mean lies within any bounds of the samples. |
| Statistics.SumsConcat | src/streamMetrics.hpp:617-621 | Both sums are additive over packets, however the samples are split. |
| PacketSums.ComputeSumOfSamples | src/packet.cpp:647-678 | The fold gives the sum of the samples of a numeric or empty packet and throws for text. |
| PacketSums.ComputeSumOfSamplesSquared | src/packet.cpp:680-711 | The fold gives the sum of the squared samples of a numeric or empty packet and throws for text. |
| PacketSums.IntegerSums | src/packet.cpp:654-691 | For integer samples both sums are the integer sums. |
| ObservableMap.SumTotalPacketsReceived | src/streamMetrics.hpp:774-784 | With additions by the metrics thread before every one of its locked accesses, the result lies between the total when the keys were taken and the total on return. |
| ObservableMap.TotalMonotone | src/streamMetrics.hpp:774-784 | The total of non-negative counters grows whenever keys are added or entries grow. |
| ObservableMap.TotalSplits | src/streamMetrics.hpp:778-782 | The sum over the keys does not depend on the order in which they are visited. |
| ObservableMap.ObservableMap.AddOrAssign | src/streamMetrics.hpp:53-65 | The entry of the key is increased, or created with the value; no other entry changes. |
| ObservableMap.Summary.PrintSummary | src/seedLinkToRingServer.cpp:388-407 | Every printed difference is the change since the last value read, is non-negative, and all of them add up to the last value read, which lies between the true totals before and after the call; nothing is read before the report is due. |
| Packet.OneVectorHoldsTheData | src/packet.cpp:67-134 | After any sequence of setter calls at most one sample vector is non-empty; it is the one the type names and holds the last non-empty data. |
| Packet.EndTimeIsAccurate | src/packet.cpp:135-147 | A reported end time is within half a nanosecond of start + (n - 1)/rate and not before the start; a packet that cannot report one ends at its start. |
| Packet.EndTimeMonotone | src/packet.cpp:135-147 | At one rate, more samples never end earlier. |
| Packet.Packet.SetData | src/packet.cpp:318-323 | Non-empty samples are held exactly, in the vector of their type and in no other, with identifier, start and rate kept; an empty vector changes nothing. |
| Packet.Packet.StoreSamples | src/packet.cpp:103-134 | Non-empty data replaces whatever was there, of any type, and updates the end time. |
| Packet.Packet.SetSamplingRate | src/packet.cpp:255-265 | A rate that is not positive is rejected and changes nothing; any other is stored and updates the end time only. |
| Packet.Packet.SetStartTime | src/packet.cpp:292-297 | The start is stored, the end is derived anew, and nothing else changes. |
| Packet.Packet.SetStartSeconds | src/packet.cpp:285-290 | Seconds are rounded to the nearest nanosecond. |
| Packet.Packet.SetStreamIdentifier | src/packet.cpp:215-235 | Only a complete identifier is accepted. |
| Packet.Packet.Clear | src/packet.cpp:161-169 | Clearing gives the blank packet. |
| DataLinkPackets.ToDataLinkPackets | src/packet.cpp:457-645 | The i-th result carries the bytes of the i-th record and its start and end times cut to microseconds, or zeros if it does not parse, of exactly one packing pass over a header with the start, rate, count, encoding and version of the packet: the unflushed pass if asked for, if it made at least one record, as many as it says, and none over 512 bytes; else the flushed one. Errors exactly for missing rate, identifier, source id or a failed pass. |
| DataLinkPackets.HandledRecordsAreCarried | src/packet.cpp:32-58 | The callback keeps the bytes of every record and cuts both its times to microseconds, or leaves them zero. |
| DataLinkPackets.TruncationIsUnique | src/packet.cpp:39-40 | The cast to microseconds gives the one number of whole microseconds between the time and zero. |
| DataLinkPackets.CheckUnflushed | src/packet.cpp:564-609 | The checks in program order accept exactly the passes that may be kept. |
| DataLinkPackets.NoSampleIsSentTwice | src/packet.cpp:549-645 | If each pass packs consecutive runs of samples, no sample is in two returned records. |
| DataLinkPackets.RecordsKeepTimeOrder | src/packet.cpp:37-58 | Start and end of every record stay in order after truncation to microseconds. |
| DataLinkPackets.TruncationKeepsOrder | src/packet.cpp:39-40 | Truncation towards zero keeps order on both sides of the epoch and moves a time by less than a microsecond. |
| DataLinkPackets.EverySampleIsSent | src/packet.cpp:549-645 | For any packer that packs in order and reports what it packed, a successful conversion sends every sample if and only if it flushes, repacks, or its unflushed pass reports all samples packed; that is, unless it only logged a warning. |
| DataLinkPackets.MissingSamplesAreTheTail | src/packet.cpp:584-609 | The samples not sent are exactly those from the reported count on, and only in the case of the warning. |
| DataLinkPackets.SentBelowLastEnd | src/packet.cpp:558-563 | Records packed in order encode exactly the samples before the end of the last one. |
| DataLinkPackets.UnflushedTailIsDropped | src/packet.cpp:584-609 | A packer that meets this contract and for which the last sample is in no record. |
| DataLinkClient.DataLinkClient.RunWriter | src/dataLinkClient.cpp:162-313 | For any rounds and any server behaviour: unless the limit is reached, what is written falls into one part per round, each one write for every non-empty record of the conversion, in order, under NET_STA_LOC_CHAN/MSEED; the invalid counter grows by the packets that cannot be converted or named; the run ends with an error if and only if, for the first time, 32 successive writes have failed, or the latest reconnection episode gave no link; each write is on record and counted once with its outcome. |
| DataLinkClient.WritesAreRequired | src/dataLinkClient.cpp:230-283 | The writes of a packet are one for each record that is not empty, in order, each with that record under the stream name spelt out; none for a packet that cannot be converted or named. |
| DataLinkClient.AllWritesAreRequired | src/dataLinkClient.cpp:172-306 | The writes of a run are those of its packets, round by round. |
| DataLinkClient.ConversionUsesSettings | src/dataLinkClient.cpp:231-237 | The records are those of a conversion with the record size, version and flushing options of this writer. |
| DataLinkClient.InvalidPacketsAreCounted | src/dataLinkClient.cpp:239-263 | The invalid count is the number of packets that cannot be converted or lack a part of their name. |
| DataLinkClient.DataLinkClient.WriteRound | src/dataLinkClient.cpp:172-310 | One round reconnects if it must, and then either ends for lack of a link or disposes of the packet it found. |
| DataLinkClient.DataLinkClient.SendPacket | src/dataLinkClient.cpp:226-306 | A packet that cannot be converted or named is counted as invalid and not written; of any other each non-empty record is written once, in order, below the limit, and something is written whenever there is a non-empty record. |
| DataLinkClient.DataLinkClient.WriteRecords | src/dataLinkClient.cpp:265-305 | The writes made are a prefix of the non-empty records, all of them unless the failure limit is reached, upon which the link is closed. |
| DataLinkClient.DataLinkClient.WriteOne | src/dataLinkClient.cpp:276-304 | One write uses a live handle, is counted once, and the failure counter stays the length of the trailing run of failures. |
| DataLinkClient.DataLinkClient.Reconnect | src/dataLinkClient.cpp:180-218 | An episode makes between one and four attempts, all but the last of them failures, stops at the first success, and ends connected or throwing. |
| DataLinkClient.DataLinkClient.Connect | src/dataLinkClient.cpp:102-119 | A failed attempt frees the handle and clears the pointer; a success leaves the one live handle in it. |
| DataLinkClient.DataLinkClient.Disconnect | src/dataLinkClient.cpp:130-137 | Afterwards the client is not connected and still owns its handle. |
| DataLinkClient.DataLinkClient.DestroyDataLinkClient | src/dataLinkClient.cpp:139-144 | Afterwards every handle ever created has been freed. |
| DataLinkClient.DataLinkClient.Lifetime | src/dataLinkClient.cpp:75-83 | Construction, a run and destruction free every handle exactly once, however the run ends. |
| DataLinkClient.Dali.WriteRecord | src/dataLinkClient.cpp:276-283 | A write requires a handle that was created and not freed, and is put on record with its outcome. |
| DataLinkClient.TrailingFailuresIsRun | src/dataLinkClient.cpp:286-303 | The failure counter is at least n exactly when the last n outcomes all failed. |
| DataLinkClient.LimitIsThirtyTwoInARow | src/dataLinkClient.cpp:291 | The limit is never reached exactly when no 32 successive writes all failed. |
| DataLinkClient.LimitIsReachedWhen | src/dataLinkClient.cpp:291 | The limit is reached exactly at the first moment at which the 32 latest writes have all failed. |
| DataLinkClient.AnotherOutcome | src/dataLinkClient.cpp:284-304 | One more outcome resets or increments the counter and decides whether the limit is reached now for the first time. |
| WriterMetrics.EveryAttemptIsCounted | src/dataLinkClient.cpp:276-303 | For any number of writers and every interleaving of their writes and increments: written + failed is the number of writes attempted over all writers, less the writers that are between a write and its increment. |
| WriterMetrics.CountersAlwaysAgree | src/dataLinkClient.cpp:284-304 | In every such state each shared counter is the sum over the writers of what each of them has counted. |
| WriterMetrics.StepsTakeEffect | src/dataLinkClient.cpp:284-304 | A write extends the history of its writer, its increment raises the one counter of its outcome, a rejection the invalid counter. |
| WriterMetrics.WriterMetrics.CountersSayWhatHappened | src/writerMetricsSingleton.cpp:19-48 | The counters of the shared object are the totals over the outcome histories of all writers. |
| WriterMetrics.WriterMetrics.OthersIncrement | src/writerMetricsSingleton.cpp:19-43 | Every increment that other writers make takes effect, extends their own histories, and leaves the history of this writer alone. |
| StreamSelector.FromString | src/streamSelector.cpp:277-354 | On lines whose words are separated by blanks or single tabs the outcome is a function of the words alone, including the 3-, 4- and 5-word cases; on any line it succeeds exactly when the first token is a two-letter network and the second a station. |
| Words.CollapseInPlace | src/streamSelector.cpp:284-296 | The erase loop ends and leaves every run of blanks reduced to one. |
| Words.TokensAreWordsExactly | src/streamSelector.cpp:280-299 | For lines of words, blanks and tabs: trimming, collapsing and splitting yields exactly the words if and only if there are any and no tab stands beside another separator between them. |
| Words.PreprocessingFindsWords | src/streamSelector.cpp:280-304 | On lines of blanks and words, and on well-spaced lines, it yields exactly the words, or one empty token. |
| Words.WordsRoundTrip | src/streamSelector.cpp:280-299 | Words joined by single blanks are read back unchanged. |
| StreamSelector.LineRoundTrip | src/streamSelector.cpp:277-334 | Writing "NET STA CHAN LOC T" and parsing it recovers the five fields, network, station and channel in upper case, and fixes the printed selector. |
| StreamSelector.TwoWordLine | src/streamSelector.cpp:307-352 | NET STA selects every channel at any location. |
| StreamSelector.ThreeWordLine | src/streamSelector.cpp:320-352 | NET STA CHAN selects the channel at any location. |
| StreamSelector.FourWordLine | src/streamSelector.cpp:334-341 | NET STA CHAN LOC selects channel and location, of every type; the location keeps its case. |
| StreamSelector.ShortLineRoundTrip | src/streamSelector.cpp:334-348 | With a one-letter fourth word the line selects by channel and type, without a location. |
| StreamSelector.NetworkAloneIsRejected | src/streamSelector.cpp:307-316 | A network alone is always rejected although the station has a default. |
| StreamSelector.AcceptedLines | src/streamSelector.cpp:301-316 | A blank-separated line is accepted exactly when it has at least two words and a two-letter network. |
| StreamSelector.TabBesideBlankIsRejected | src/streamSelector.cpp:284-316 | A tab next to a blank leaves an empty station token, so such a line is rejected. |
| StreamSelector.SelectorTextInjective | src/streamSelector.cpp:153-275 | For two-character locations and non-empty channels the printed selector determines location, channel and type. |
| StreamSelector.SelectorTextDetermines | src/streamSelector.cpp:153-275 | In general two selectors print alike if and only if they agree on the type and on the concatenation of location and channel, except that nothing and "*" print alike for every type but All. |
| StreamSelector.LocationCanHideInChannel | src/streamSelector.cpp:153-180 | Without that restriction it does not: a location written into the channel prints the same. |
| StreamSelector.StreamSelector.GetSelector | src/streamSelector.cpp:153-275 | The branches print location, channel and the letter of each of the seven types, with the wildcards for what is missing. |
| SeedLinkClientOptions.SeedLinkClientOptions.AddStreamSelector | src/seedLinkClientOptions.cpp:219-239 | A selector is appended unless it has no network or agrees with a stored one on network, station and printed selector; a rejected call changes nothing. |
| SeedLinkClientOptions.ListHoldsEachKeyOnce | src/seedLinkClientOptions.cpp:219-239 | Over any sequence of calls the list is pairwise distinct and holds exactly the keys ever offered with a network. |
| StreamIdentifier.KeysAgree | src/streamIdentifier.cpp:254-262 | For clean identifiers, dotted name, DataLink name and metrics key are equal together or not at all, with or without a location code. |
| StreamIdentifier.DottedNameInjective | src/streamIdentifier.cpp:44-60 | The dotted name determines the fields of an identifier without dots. |
| StreamIdentifier.DataLinkNameInjective | src/streamIdentifier.cpp:254-262 | The DataLink name determines the fields of an identifier without underscores. |
| StreamIdentifier.MetricsKeyInjective | src/streamMetrics.hpp:546-558 | The lower-cased metrics key determines the fields of a normalised identifier without underscores. |
| SharedKeys.MetricsKeyIsShared | src/streamMetrics.hpp:546-558 | Another complete, normalised identifier has the metrics key of a given one if and only if that one has a location code or an underscore after the first character of the network, in a longer station, or before the last character of the channel. |
| SharedKeys.DottedNameIsShared | src/streamIdentifier.cpp:44-60 | The same condition with dots decides whether another identifier has the dotted name, the key of the map of streams. |
| SharedKeys.DataLinkNameIsShared | src/streamIdentifier.cpp:254-262 | For the DataLink name the condition has no case for having a location code, only for an underscore in it. |
| SharedKeys.LocationCodeIsNotDistinguished | src/streamMetrics.hpp:546-558 | An identifier with a location code, even a clean one, shares metrics key and dotted name with the one whose channel spells channel and location. |
| StreamIdentifier.UnderscoreCollides | src/streamMetrics.hpp:546-558 | Two streams with an underscore that share a metrics key. |
| StreamIdentifier.DotCollides | src/streamIdentifier.cpp:44-60 | Two streams with a dot that share a dotted name although their DataLink names differ. |
| StreamIdentifier.ConvertIsIdempotent | src/streamIdentifier.cpp:31-37 | Converting a converted string changes nothing; the result has no blanks and no lower-case letters. |
| StreamIdentifier.ConvertConcat | src/streamIdentifier.cpp:31-37 | Conversion acts character by character and keeps their order. |
| StreamIdentifier.ConvertCharacter | src/streamIdentifier.cpp:31-37 | A blank vanishes, any other character is put in upper case. |
| StreamIdentifier.ConvertKeepsNormalised | src/streamIdentifier.cpp:31-37 | What is already normalised is kept as it is. |
| Text.LettersChangeCase | src/streamIdentifier.cpp:35 | Upper- and lower-casing keep the place of a letter in the alphabet and every other character. |
| StreamIdentifier.StreamIdentifier.SetNetwork | src/streamIdentifier.cpp:134-140 | A blank network is rejected and changes nothing; any other is normalised and the cached name rebuilt. |
| StreamIdentifier.StreamIdentifier.SetLocationCode | src/streamIdentifier.cpp:194-207 | A blank location counts as given and empty; the cached name stays what the fields spell. |
| StreamIdentifier.StreamIdentifier.Clear | src/streamIdentifier.cpp:121-128 | Clearing empties the four fields but remembers that a location code was once given. |
| StreamIdentifier.StreamIdentifier.GetStringReference | src/streamIdentifier.cpp:239-252 | The name is returned exactly for complete identifiers and reads NET.STA.CHAN, followed by the location if there is one. |
| MiniSeedRecords.MiniSEEDToDataPackets | src/seedLinkClient.cpp:37-155 | The loop stays within the buffer, its 64-bit unsigned difference never wraps, it ends, and its outcome is that of walking the remaining bytes record by record. |
| RecordWalk.RecordsRoundTrip | src/seedLinkClient.cpp:44-152 | Concatenated records followed by at most the minimum number of bytes decode to exactly their packets if and only if there are none or the last record and those bytes are longer than the minimum. |
| RecordWalk.WalkDecodes | src/seedLinkClient.cpp:44-152 | Concatenated records followed by anything decode to the leading readable records, in order, and then to whatever follows. |
| RecordWalk.AllReadable | src/seedLinkClient.cpp:44 | All records are read exactly when the last one and what follows exceed the minimum. |
| RecordWalk.BadRecordLosesAll | src/seedLinkClient.cpp:139-150 | A record that cannot be unpacked after good ones loses the packets of the whole buffer if and only if it is long enough to be read. |
| RecordWalk.WalkPartitions | src/seedLinkClient.cpp:44-152 | A walk that succeeds cuts the buffer into one non-empty record per packet and leaves at most the minimum number of bytes. |
| MiniSeedRecords.RecordEncodesPacket | src/seedLinkClient.cpp:52-136 | A record that parses to acceptable contents whatever follows it is a record in the sense of these theorems, and stands for the packet of its contents. |
| MiniSeedRecords.UnpackRecord | src/seedLinkClient.cpp:57-136 | A record makes a packet exactly when it has names, none of the first three blank, a positive rate and no text; the packet then has its names field by field, the name NET.STA.CHAN.LOC, its rate, its samples, and its start to within 128 ns. |
| MiniSeedRecords.PacketIsOfRecord | src/seedLinkClient.cpp:57-136 | The same of the packet that the walk theorems are about. |
| MiniSeedRecords.PacketsAreOfRecords | src/seedLinkClient.cpp:37-155 | A buffer that unpacks is cut into records and each packet is that of the contents parsed at its record. |
| MiniSeedRecords.MakeIdentifier | src/seedLinkClient.cpp:77-95 | Names already normalised are kept, each in its own field, with "--" for a missing location; others are normalised; a blank network, station or channel is an error. |
| MiniSeedRecords.StartTimeIsRounded | src/seedLinkClient.cpp:103-109 | Start times, before or after the epoch, pass through a double: they are exact only if representable, and move by at most 128 ns within 2^61 ns of the epoch. |
| SeedLinkClient.SeedLinkClient.PacketToCallback | src/seedLinkClient.cpp:425-552 | For any sequence of polls: the callback gets, in order, the packets of every payload that unpacks; the state file is saved at the multiples of interval + 1; the call fails exactly when recovery or purging fails or the server ends the session unasked. |
| SeedLinkClient.SeedLinkClient.PollServer | src/seedLinkClient.cpp:448-532 | The polling loop part of that, up to the first terminate. |
| SeedLinkClient.PayloadsAreDelivered | src/seedLinkClient.cpp:457-494 | Every packet of a payload that unpacks is delivered, at its place, unless the server terminated before. |
| SeedLinkClient.PayloadsConcat | src/seedLinkClient.cpp:450-540 | Payloads are taken poll by poll, in order, until the first terminate. |
| SeedLinkClient.SeedLinkClient.TakePayload | src/seedLinkClient.cpp:457-510 | A data packet delivers what it unpacks to and advances the state-file counter. |
| SeedLinkClient.SeedLinkClient.UpdateStateFile | src/seedLinkClient.cpp:500-509 | The counter stays in [1, interval + 1] and equals one plus the data packets since the last save. |
| SeedLinkClient.SavesAreExactlyTheMultiples | src/seedLinkClient.cpp:500-509 | The state file is saved at a data packet if and only if its number is a positive multiple of interval + 1. |
| SeedLinkClient.SeedLinkClient.Propagate | src/seedLinkClient.cpp:466-499 | A payload that fails to unpack delivers nothing; otherwise all its packets are delivered in order. |

## Left out

- The moodycamel queue variant: its approximate sizes and try_enqueue promise less than the eviction loop needs.
- Contents of the miniSEED, SEEDLink and DataLink formats, and the internals of libmseed, libslink and libdali; the constant MINRECLEN comes from libmseed and is a parameter.
- OpenTelemetry callbacks, logging, configuration files, the command line, signals, futures and sleeps.
- Draining of the queues at shutdown: the program does not do it, so nothing is claimed about packets still queued when a thread stops. A stop is the end of a finite run.
- Rounding of sample sums in floating point, the square root, and therefore the published standard deviation itself; reports carry the variance and the Bessel factor.
- Overflow of 64-bit counters, of durations and of the conversion of a duration to an integer.
- Characters outside ASCII in `toupper`, `tolower` and `isspace`.
- Exceptions thrown by memory allocation inside a queue or a map.
- The second number of the periodic summary, packets written since the last report: its counter is part of `WriterMetrics`, its difference is not.
- Whether a field of an identifier consists of tabs only, in `SharedKeys`: the other identifier is complete and normalised, but a setter would still refuse such a field.
- The metrics update inside the fan-out loop: `Process.TabulateMetrics` covers the packets, `MetricsMap` the metrics.
- Process.Process.TabulateMetrics: arrivals come between the calls of the metrics thread, not inside them; the interleaving of single queue operations is in `Pipeline`.
- StreamSelector.FromString: for lines that are not well spaced, or have other white space than blanks and tabs, the contract fixes only when they are accepted, because tokens may then be empty or padded (`TokensAreWordsExactly`).
- MetricsMap.ConservationPerStream: requires normalised identifiers whose fields contain neither '.' nor '_'; without that, `PublishedCounterIsExact` says what a shared key holds and `MetricsKeyIsShared` when a key can be shared.
- Dropping a link outside of `dl_connect`, `dl_disconnect` and `dl_write`: the model changes it only in those calls.
- The handle ledger is per client; several clients share only the counters.
- Option getters and setters, copying and moving of objects, and version information: easy members only.
