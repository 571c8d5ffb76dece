# Veneur in Dafny

Veneur is a metrics pipeline: clients send samples as DogStatsD text or as SSF
spans, local instances aggregate them and forward what has to be aggregated
globally, and sinks send the results on. This project models the parts of it
that hold its hardest promises and proves them for all inputs and all runs.

- **The merging t-digest** (`Centroids`, `DigestMerge`, `DigestRuns`,
  `Interpolation`, `DigestReading`, `Digests`, `MergingDigest`). The class keeps the two arrays of
  the source, including the merge that overwrites the main buffer while reading it
  and parks displaced centroids at the front of the temp buffer. It is proved to
  refine a pure two-list merge, on which the size bound and the laws of
  `Quantile` and `CDF` are proved. float64 is `real`, the infinite sentinels are
  `None`, and the arcsine scale is any monotone function with the right ends.
- **Aggregate, forward, import** (`Samplers`, `HistoSampler`, `Worker`, `Sums`,
  `Floating`, `Flusher`, `FlushLaws`, `Network`, `Ledger`, `Quantities`,
  `HistoQuantities`, `MemberQuantities`, `Separation`, `Conserved`, `Answers`,
  `Makeup`, `Levels`, `Reports`, `ImportChunks`). A network is any graph of instances in which each worker samples, flushes and imports at any time, and
  forwarded metrics arrive in any order or never. A sample or a delivery may
  leave any digest that adding or merging can leave, and each digest or set comes
  with the samples behind it as history. `Ledger` proves once that what single steps
  conserve is conserved by every run; counters, samples, set members and local
  reports are instances.
- **The SSF wire stack** (`Integers`, `Varint`, `Fields`, `Ssf`, `SsfRoundTrip`,
  `SsfMarshal`, `Framing`, `FrameReader`, `StreamBackend`). Marshalling through a
  byte array, the index loops of Unmarshal, framing over readers that return any
  part of what is there, and the sender that reconnects.
- **DogStatsD text** (`Text`, `SplitBytes`, `Tags`, `Numerals`, `Escapes`,
  `DogStatsD`, `SsfMetrics`, `Events`, `ServiceChecks`, `Emit`, `MetricPackets`).
  Parsers as loops over the splitter, proved equal to a reference meaning of the
  packet, and read against the packets that veneur-emit builds.
- **The gRPC proxy** (`Destinations`, `ProxyBatches`, `ProxySend`, `ConnMap`,
  `ProxyServer`). Goroutines, wait group and channel of one call as a step system,
  and the connection map with its calls interleaved at their locks.
- **Datadog batching** (`DatadogChunks`, `SpanRing`).

`KnownValues` fixes what the formats fix: bytes on the wire, hashes, buffer sizes.
`Options` is the option type that all share.

Operations that the source runs in place are classes and methods, each proved
against a function of the old state. Map iteration order, shuffles, dials, short
reads and write failures are arbitrary: parameters or nondeterministic choices.

Where the code does less than its comments or its users might expect, the exact
condition is proved:

- `Merge` passes on the other digest's means only, so its minimum can be lost
  (`MergeKeepsMinimum`, `MergeKeepsMaximum`, `MergeLosesMinimum`). The size argument
  passed to `make` in `NewMerging` is a capacity; the bound that holds is the one of
  `SizeBound`.
- `CDF(Quantile(q)) = q` needs strictly increasing bounds
  (`CdfUndoesQuantileIff`); the other direction does not (`QuantileUndoesCdf`).
- A counter truncates the value and the reciprocal of the rate before it multiplies
  them, so it adds value / rate only if both are whole (`CounterExactIff`).
- A local median is read from the digest that is also forwarded
  (`MedianLeaks`, `SeparateIff`).
- `readFrame` drops a payload whose last bytes come together with EOF
  (`EagerReaderLosesLast`, `FrameReadsBackIff`). `WriteSSF` does not check the
  length limit that `ReadSSF` enforces, so the limit is part of the condition.
- An SSF sample with both scope tags has no fixed scope (`DeterministicIff`).
- `ParseMetricSSF` checks neither value nor rate, so a worker panics over some
  histograms and takes a weight of NaN from others (`SsfTakenIff`, `SsfFates`).
- `buildEventPacket` writes the length of the text before escaping it, so an event
  with a line break is rejected (`EventRoundTrip`, `EscapeLength`).
- Swapped sections of a packet that is wrong in two ways are reported by
  different errors (`SectionOrderIrrelevant`, `SectionOrderMatters`).
- A rate written as NaN passes both range checks of `ParseMetric`, which spoils the
  digest of a histogram or timer (`ParsedTakenIff`, `NaNComesOut`).
- An empty Datadog flush with a limit of one metric per body divides by zero
  (`Chunks`).

## Model

| member | source | states |
|---|---|---|
| DigestMerge.InterleaveIsPermutation | tdigest/merging_digest.go:127-198 | walking two sorted lists front by front uses every centroid of both exactly once |
| DigestMerge.InterleaveSorted | tdigest/merging_digest.go:127-198 | the walk comes out sorted by mean and within the bounds of both lists |
| DigestMerge.MergeAllConserves | tdigest/merging_digest.go:203-229 | folding mergeOne over any positive centroids keeps total weight and, through the Welford update, the total of mean times weight |
| DigestMerge.MergeAllOrdered | tdigest/merging_digest.go:203-229 | an absorbed centroid moves a mean only between its neighbours, so the result stays sorted and in range |
| DigestMerge.MergeAllTight | tdigest/merging_digest.go:203-229 | after every fold each centroid is a single input or spans at most one unit of k, and two neighbours together span more than one |
| DigestMerge.SizeBound | tdigest/merging_digest.go:203-236 | such a list has fewer than 2 * compression + 1 centroids |
| DigestMerge.CompressSound | tdigest/merging_digest.go:114-236 | one whole merge of main and temp: weight and moment kept, sorted, in range, tight in k, and bounded in size, for all positive weights and every monotone k with k(0) = 0 and k(1) = compression |
| MergingDigest.TempBufferRange | tdigest/merging_digest.go:80-86 | the temp buffer estimate stays between 14 and 179 for every clamped compression |
| KnownValues.BufferKnown | tdigest/merging_digest.go:80-86 | a digest of compression 100 buffers 42 values; compressions out of range are clamped to 14 and 178 |
| MergingDigest.MergingDigest.constructor | tdigest/merging_digest.go:65-78 | a new digest is valid and empty, with both buffers its own |
| MergingDigest.MergingDigest.MergeInto | tdigest/merging_digest.go:203-229 | mergeOne on the array equals the pure step, and what lies beyond the new end is untouched |
| MergingDigest.MergingDigest.PassMain | tdigest/merging_digest.go:162-180 | taking the next main centroid keeps the layout: the rest of main is split between the array and the parked front of the temp buffer, no unread centroid lost |
| MergingDigest.MergingDigest.PassTemp | tdigest/merging_digest.go:181-192 | taking the next temp centroid parks one displaced main in the slot just read; the parked region never passes tempIndex |
| MergingDigest.MergingDigest.TakeNext | tdigest/merging_digest.go:143-192 | each turn takes the head of the pure two-list merge and leaves its tail |
| MergingDigest.MergingDigest.MergeSorted | tdigest/merging_digest.go:127-198 | the in-place merge over shared buffers leaves exactly what merging into a fresh list and folding mergeOne leaves |
| MergingDigest.MergingDigest.MergeAllTemps | tdigest/merging_digest.go:114-198 | a pass empties the temps, keeps count and sum and the whole invariant, and leaves the pure merge of the mains with a sorted permutation of the temps |
| MergingDigest.MergingDigest.Add | tdigest/merging_digest.go:90-111 | while there is room the value joins the temps and the mains stay as they are; on a full buffer the mains become exactly what merging them with a sorted permutation of the temps leaves, and the value is the only temp; count, sum and extremes move by exactly the value, and the invariant is kept |
| MergingDigest.MergingDigest.Merge | tdigest/merging_digest.go:337-349 | merging another digest in any shuffle is one Add after the other of its mains and temps, passes included; it adds the other's count and sum, leaves it unchanged, and takes the extremes of its means |
| MergingDigest.MergingDigest.AddAll | tdigest/merging_digest.go:340-348 | the loop is one Add after the other, each with its pass when the buffer is full |
| DigestRuns.RunMade | tdigest/merging_digest.go:90-236 | over every run of additions, whatever the sorts do with equal means: the mains and temps weigh what was added, each temp is one of the added centroids, and each main is one of them or spanned at most one unit of k in a pass over some of them |
| DigestRuns.CompressGrown | tdigest/merging_digest.go:127-229 | a pass over mains and temps leaves centroids that are each one of its inputs or span at most one unit of k of what it went over |
| MergingDigest.MergeKeepsMinimum | tdigest/merging_digest.go:337-349 | a merge keeps the other digest's minimum if and only if it was no news or some centroid has it as its mean |
| MergingDigest.MergeKeepsMaximum | tdigest/merging_digest.go:337-349 | the same for the maximum |
| MergingDigest.MergeLosesMinimum | tdigest/merging_digest.go:90-349 | a run that loses a minimum: 4, 6 and a heavy 100 are added to a new digest, which is merged into another one; both are valid and of the same count, the first has minimum 4 and the second 5 |
| MergingDigest.MergingDigest.Quantile | tdigest/merging_digest.go:276-306 | never reaches the NaN exit for a nonempty digest, answers by the interpolated quantile of what a merge of the temps leaves, and keeps invariant, count and sum |
| MergingDigest.MergingDigest.Cdf | tdigest/merging_digest.go:240-272 | never reaches the NaN exit for a nonempty digest, answers by the interpolated distribution, and keeps invariant, count and sum |
| MergingDigest.MergingDigest.GobEncode | tdigest/merging_digest.go:354-373 | the encoded tuple is what a merge of the temps leaves: it carries all the weight and moment and is sound on its own |
| MergingDigest.MergingDigest.ViewsAgree | tdigest/merging_digest.go:114-198 | whatever order the sort gives equal means, what a merge of the temps leaves is sorted, in range, and of the digest's count, sum and extremes |
| Digests.ReadIsQuantile | tdigest/merging_digest.go:276-306 | reading a sane nonempty digest value gives its reference quantile |
| MergingDigest.MergingDigest.GobDecode | tdigest/merging_digest.go:375-405 | decoding restores centroids, compression and extremes; a sound tuple gives a valid digest with the same count and sum |
| DigestReading.LadderOf | tdigest/merging_digest.go:327-333 | in a valid nonempty digest the upper bounds ascend from min to max and the cumulative weights strictly from 0 to the total |
| DigestReading.FindQuantile | tdigest/merging_digest.go:276-306 | the loop over centroids ends in a segment and returns the reference quantile, dividing by no zero; what that answers is pinned by QuantileHalfway, QuantileStraight and AnswersAtEnds |
| DigestReading.FindCdf | tdigest/merging_digest.go:240-272 | the loop over centroids ends in a segment and returns the reference distribution, dividing by no zero; what that answers is pinned by CdfHalfway, AnswersAtEnds and QuantileUndoesCdf |
| DigestReading.QuantileHalfway | tdigest/merging_digest.go:327-333 | the quantile at the share of the weight below a centroid is as far from its mean as from the mean before it |
| DigestReading.QuantileStraight | tdigest/merging_digest.go:286-296 | over the weight of one centroid, equal steps of the quantile give equal steps of the answer |
| DigestReading.AnswersAtEnds | tdigest/merging_digest.go:240-333 | the quantiles at 0 and 1 are the minimum and the maximum; the distribution is 0 up to the minimum and 1 from the maximum on |
| DigestReading.CdfHalfway | tdigest/merging_digest.go:251-272 | halfway between two neighbouring means the distribution is the share of the weight below, unless bounds coincide there |
| DigestReading.AnswersOrdered | tdigest/merging_digest.go:240-306 | quantiles lie in [min, max], distribution values in [0, 1], and both are monotone |
| DigestReading.QuantileUndoesCdf | tdigest/merging_digest.go:240-306 | Quantile(CDF(v)) = v for every v in [min, max], also where bounds coincide |
| DigestReading.CdfCoversQuantile | tdigest/merging_digest.go:240-306 | CDF(Quantile(q)) >= q whenever Quantile(q) > min |
| DigestReading.CdfUndoesQuantileIff | tdigest/merging_digest.go:240-306 | CDF(Quantile(q)) = q for all q in [0, 1] if and only if the bounds strictly increase |
| Interpolation.InverseIffStrict | tdigest/merging_digest.go:240-306 | the same equivalence for any ladder of ascending bounds and strictly ascending weights |
| HistoSampler.HistoSampler.constructor | samplers/samplers.go:424-434 | a new histogram is the empty sampler value, of compression 100 |
| Samplers.AddFateIff | tdigest/merging_digest.go:90-93 | over all values and rates, NaN and infinities included: a histogram takes a sample if and only if its value is finite and its rate finite and positive, and panics if and only if the value is not finite or the rate is infinite or negative |
| Samplers.CountFateIff | samplers/samplers.go:136-138 | a counter never panics; its conversions to int64 are defined if and only if the value fits 64 bits and the rate is not too near zero |
| Worker.TakenIff | worker.go:200-243 | which metrics a worker takes, for each type in terms of value and rate: gauges, sets and status checks whatever the rate, gauges whatever the number |
| HistoSampler.HistoSampler.Sample | samplers/samplers.go:411-421 | any value at any rate: the digest's guard decides, a panic changes nothing; a sample taken is the sampling of values, whatever the digest's values before and after: weight, moment and extremes move by exactly that sample, and every centroid is made of what was added, the sample included |
| HistoSampler.HistoSampler.Export | samplers/samplers.go:566-580 | the exported payload is the digest's value, the same before and after, and has the weight, the sum and the range of the samples behind it |
| HistoSampler.HistoSampler.Quantile | samplers/samplers.go:514-559 | the quantiles a flush asks for are read off that value |
| HistoSampler.HistoSampler.Combine | samplers/samplers.go:584-591 | decoding and merging any tuple of positive centroids joins it to the digest's value: weight and moment add up, the extremes are those of its means, and every centroid is made of what was added; its weight is imported and nothing becomes local |
| Samplers.AnyPayloadWeighed | samplers/samplers.go:584-591 | every tuple of positive centroids has the weight, the sum and the range of some samples, so none is shut out |
| Samplers.SampledExtremes | samplers/samplers.go:411-421 | after any samples the local minimum and maximum are the extremes of exactly those samples, and these are the ones behind the digest |
| Samplers.SampledTallied | samplers/samplers.go:411-421 | a sample keeps the local fields those of the samples taken here: extremes, weight, sum of value times weight, and sum of weight over value, which is infinite after a zero |
| Reports.AggregatesReport | samplers/samplers.go:438-528 | a histogram publishes a point if and only if it is configured and there is something to say, and then: max and min are the extremes of its own samples, sum and count their totals, average times count the sum, harmonic mean times the reciprocal sum the count (or 0 after a zero), and the median the digest at one half |
| Reports.FlushReports | flusher.go:182-247 | every aggregate that a flush publishes reports, in this sense, on a histogram or timer held under its key |
| Samplers.RateStandsFor | samplers/samplers.go:136-138 | a whole value v at rate 1/n counts v times n, and weighs n in a histogram |
| Samplers.CounterExactIff | samplers/samplers.go:136-138 | a counter adds exactly value / rate if and only if the value is 0, or both the value and the reciprocal of the rate are whole |
| Samplers.KeyHashOfString | samplers/parser.go:61-67 | the routing hash is FNV-1a of name, type and joined tags written one after the other |
| KnownValues.HashKnown | samplers/parser.go:258-261 | the hash gives the published FNV-1a values of the empty string and of a |
| Worker.Worker.constructor | worker.go:153-167 | a new worker holds nothing |
| Worker.Worker.Upsert | worker.go:89-150 | the one map that type and scope pick gets a new sampler if it has none; everything else stays, and the result says whether there was none |
| Worker.Worker.ProcessMetric | worker.go:200-243 | every metric that neither makes the worker panic nor spoils a digest is one update of one entry of one of the eleven maps, and counts one processed metric |
| Worker.Worker.ImportMetric | worker.go:246-284 | importing is one update of one entry of a global or mixed map; a payload of the wrong type leaves its value, a status check leaves an empty entry |
| Worker.Worker.Flush | worker.go:287-314 | the maps are handed over whole and replaced by empty ones, with both counters reset |
| FlushLaws.ProcessedKept | worker.go:200-243 | sampling keeps every sampler under the key its export rebuilds, every digest accounted for, all local fields those of the samples taken here, and every set the members sampled into it |
| FlushLaws.ImportedKept | worker.go:246-284 | importing does too |
| FlushLaws.ForwardedSound | flusher.go:297-359 | every forwarded metric is the export of the very entry held under its key, timers included, with matching tags and a payload of the right type: a digest with the weight, the sum and the range of the samples behind it, a set of exactly the members behind it |
| Flusher.GenerateInterMetrics | flusher.go:182-247 | for one worker's maps the loops publish exactly the points of the published maps, with medians and percentiles read off the digests; sets, global counters and gauges, and percentiles of mixed digests only where nothing is forwarded |
| Flusher.ExportForwarded | flusher.go:285-360 | for one worker's maps the loops export exactly the global counters and gauges, histograms, sets and timers |
| Network.StepKeeps | worker.go:171-314 | every sample, flush, delivery and drop keeps all maps in order, all keys at home and all metrics under way sound |
| Network.RunInvariant | worker.go:171-314 | so every state of every run of every network has these properties |
| Network.OneWorkerPerKey | server.go:646-669 | in no reachable state do two workers of an instance hold the same metric key, whether it came as a packet or by import |
| Ledger.Conservation | flusher.go:24-62 | whatever one sampling, one import and one flush conserve is conserved by every run: sampled = held + under way + dropped + published |
| Quantities.CounterSampling | samplers/samplers.go:136-138 | a sample changes the counter of its key and scope by its amount, modulo 2^64, and no other; RateStandsFor says what that amount is |
| Quantities.CounterImport | samplers/samplers.go:175-187 | an import changes the global counter of its key by its amount, modulo 2^64, and no other |
| Quantities.CounterFlush | flusher.go:182-320 | a flush gets each counter out exactly once: a global one is published at a global instance and not at a local one, which forwards it; any other is published and not forwarded |
| HistoQuantities.DigestSampling | samplers/samplers.go:411-421 | under every measure of samples, a sample adds itself to what is behind the mixed digest of its key, and nothing to any other |
| HistoQuantities.DigestImport | samplers/samplers.go:584-591 | an import adds exactly what is behind the forwarded digest, to its key and no other |
| HistoQuantities.DigestShows | flusher.go:182-216 | under every measure of samples, what is behind a percentile's published points is nothing at a local instance, and at a global one everything behind the held digest as often as the percentile is listed |
| HistoQuantities.DigestCarries | flusher.go:297-359 | under every measure of samples, what is forwarded carries everything behind the held digest, once |
| HistoQuantities.LocalFlush | samplers/samplers.go:470-512 | the count (or sum) points of a flush add up to the local weight (or sum) held, and nothing of it is forwarded |
| Conserved.CountersConserved | worker.go:200-314 | in every run, for each key, the global-only counter total sampled is held + under way + dropped + published modulo 2^64; likewise for the other counters |
| Conserved.CountsConserved | samplers/samplers.go:136-138 | in every run whose samples of a counter are whole values v at rates 1/n, the values v times n add up, modulo 2^64, to held + under way + dropped + published |
| MemberQuantities.MemberSampling | samplers/samplers.go:330-333 | under every measure of samples, a sample adds itself to what is behind the set of its key and scope, and nothing to any other |
| MemberQuantities.MemberImport | samplers/samplers.go:378-386 | an import adds exactly what is behind the forwarded set |
| MemberQuantities.MemberFlush | flusher.go:192-359 | a flush gets what is behind each set out exactly once: a local-only set is published and not forwarded; any other is published without a parent and forwarded with one |
| Conserved.MembersConserved | samplers/samplers.go:330-386 | in every run, under every measure of samples, those taken of a set are behind a held set, one under way, a dropped one or a published one: each in one place |
| Levels.LastSampleCounts | samplers/samplers.go:202-272 | in every reachable state every gauge an instance holds for itself has the level of the last sample it took under that key, every status check the last status, message and host, and every global gauge, held or under way, a level that was sampled as global under that key |
| Levels.FlushShowsLast | flusher.go:192-247 | in every run a flush publishes gauges at the level last sampled there, or, where nothing is forwarded, global gauges at a level sampled somewhere, and status checks as last sampled |
| Conserved.SamplesConserved | flusher.go:195-359 | in every run, under every measure of samples, those taken of a mixed histogram or timer are behind a held digest, one under way, a dropped one or one published value of the percentile: each in one place |
| Conserved.PercentilesCountOnce | flusher.go:195-359 | in every run, of the samples with any given value and rate, no more are behind the published values of a percentile than were taken, even where some global instances do not list it |
| Conserved.LocalReportsConserved | samplers/samplers.go:411-421 | in every run, at each instance, the .count (or .sum) points and what is still held make up the weight (or sum) sampled there |
| Conserved.DigestsAccounted | samplers/samplers.go:411-421 | in every reachable state every digest is sorted and in range, weighs its local weight plus what was imported, and has the weight and the sum of the samples behind it, its minimum and maximum lying between these |
| Makeup.DigestsMade | tdigest/merging_digest.go:90-236 | in every reachable state each centroid of a held digest is a sample taken here, a centroid merged in, or spanned at most one unit of k in a pass over some of these |
| Samplers.AnswerBetween | tdigest/merging_digest.go:276-306 | such a digest answers a quantile if and only if there are samples behind it, with a value between the least and the greatest of them |
| Digests.ReadOrdered | tdigest/merging_digest.go:276-306 | answers lie in the digest's range and grow with the quantile |
| Answers.FlushHonest | samplers/samplers.go:514-559 | so does every median and percentile of a flush, and every set it publishes consists of exactly the members sampled into it |
| Answers.AnswersBetweenSamples | flusher.go:182-247 | in every run, every median and percentile ever published lies between the least and the greatest of the samples behind it, wherever in the network these were taken, and is missing exactly if there were none; every set ever published consists of the members sampled |
| Separation.PublishedSeparately | flusher.go:192-228 | without medians, what a local instance publishes does not depend on anything it forwards |
| Separation.ForwardedSeparately | flusher.go:297-359 | what is forwarded does not depend on anything that is published |
| Separation.MedianLeaks | samplers/samplers.go:514-528 | two workers that report the same and hold digests of the same weight, each reached by one import, publish a median of 5 and one of 7 |
| Separation.SeparateIff | flusher.go:182-378 | of all workers in order, a local instance keeps the two apart if and only if it does not report medians |
| ImportChunks.SortableMetrics.constructor | http.go:79-92 | every metric gets the index of the worker its hash picks |
| ImportChunks.SortableMetrics.Swap | http.go:102-105 | metrics and indices are swapped together, so each keeps its own |
| ImportChunks.SortableMetrics.Sort | http.go:115-121 | afterwards the indices ascend and the metrics are the same ones |
| ImportChunks.MetricsByWorker.Next | http.go:123-139 | moves on to the next worker's metrics, all of them, or reports the end; workers come in increasing order |
| ImportChunks.MetricsByWorker.Chunk | http.go:140-142 | the chunk is every metric of the import that its worker is to get, and there is at least one |
| ImportChunks.ImportMetrics | http.go:54-71 | the chunks are a permutation of the input, nonempty, one per worker hit, in increasing order of worker, each metric with the worker its hash picks |
| Varint.IntRoundTrip | ssf/sample.pb.go:350-418 | signed 32- and 64-bit values survive their conversion to and from 64 unsigned bits |
| Varint.SizeOfVarint | ssf/sample.pb.go:631-640 | the size computed is the length of the encoding |
| Varint.PutVarint | ssf/sample.pb.go:529-537 | writes exactly the encoding at the offset and nothing else |
| Varint.ReadVarint | ssf/sample.pb.go:650-663 | the shift loop decodes exactly as the reference decoder, overflow and truncation included |
| Varint.RoundTrip | ssf/sample.pb.go:529-537 | every 64-bit value decodes from its encoding, whatever follows |
| Varint.NegativeTakesTen | ssf/sample.pb.go:631-640 | a negative value takes ten bytes |
| Fields.EntryRoundTrip | ssf/sample.pb.go:494-508 | a map entry decodes to itself, whatever follows |
| SsfRoundTrip.SampleRoundTrip | ssf/sample.pb.go:644-977 | every sample decodes from its encoding for every iteration order of its tags, with -0.0 becoming 0 |
| SsfRoundTrip.SpanRoundTrip | ssf/sample.pb.go:978-1388 | every span, metrics and tags included, decodes from its encoding for every iteration order of its maps, with -0.0 becoming 0 |
| KnownValues.SampleKnown | ssf/sample.pb.go:350-418 | the bytes of a sample with every field but tags set, field numbers, wire types and byte order as the definition has them |
| KnownValues.SpanKnown | ssf/sample.pb.go:430-527 | the bytes of a span with every field set |
| SsfMarshal.SpanLength | ssf/sample.pb.go:579-629 | the length of the encoding does not depend on the order in which maps are iterated |
| SsfMarshal.Size | ssf/sample.pb.go:579-629 | Size is the length of the encoding |
| SsfMarshal.MarshalSampleTo | ssf/sample.pb.go:350-418 | writes exactly the encoding of a sample at the offset and nothing else |
| SsfMarshal.MarshalTo | ssf/sample.pb.go:430-527 | writes exactly the encoding of a span and nothing else, though Size and MarshalTo may see different orders |
| SsfMarshal.Marshal | ssf/sample.pb.go:420-428 | the bytes are the encoding and unmarshal to the same span |
| SsfMarshal.SkipSample | ssf/sample.pb.go:1389-1487 | the loops over a field of any wire type, groups within groups included, find the length the reference gives, or its error |
| SsfMarshal.ReadEntry | ssf/sample.pb.go:809-927 | the loop over a map entry's fields decodes exactly as the reference decoder, unknown fields and errors included |
| SsfMarshal.UnmarshalSample | ssf/sample.pb.go:644-977 | the index loops decode exactly as the reference decoder, unknown fields and errors included |
| SsfMarshal.UnmarshalSpan | ssf/sample.pb.go:978-1388 | the index loops decode exactly as the reference decoder, unknown fields and errors included |
| Framing.NormalIdempotent | protocol/wire.go:138-174 | normalising a span twice changes nothing more |
| Framing.NormalMeans | protocol/wire.go:138-174 | a named span keeps name and tags; a nameless one takes the value of its name tag, which goes, and keeps the other tags; each sample rate of zero becomes 1; nothing else changes |
| KnownValues.FrameLayout | protocol/wire.go:187-213 | a frame is the version 0, the length of the payload with its highest byte first, and the payload |
| Framing.FrameConsumed | protocol/wire.go:109-134 | a frame whose payload is bad leaves the reader at the next frame, like a good one |
| Framing.FrameReadsBackIff | protocol/wire.go:109-134 | a framed span reads back normalised, with the reader at the next frame, if and only if it is at most MaxSSFPacketLength bytes and the reader does not report the end together with its last bytes |
| Framing.EagerReaderLosesLast | protocol/wire.go:55-68 | a reader that reports the end together with its last bytes loses the last frame |
| Framing.CutStream | protocol/wire.go:109-213 | a stream cut anywhere yields the complete spans, then EOF exactly at a frame boundary and a framing error otherwise |
| FrameReader.ReadPayload | protocol/wire.go:55-68 | under any chunking of reads the payload arrives whole or the stream is spent |
| FrameReader.ReadSSF | protocol/wire.go:109-134 | under any chunking of reads the outcome and what is left are those of the reference reader |
| FrameReader.ParseSSFPacket | protocol/wire.go:138-174 | the packet parser gives the normalised span or the decoding error |
| StreamBackend.StreamBackend.Connect | trace/backend.go:135-189 | a new connection starts empty with a new buffer, and a failed dial changes nothing |
| StreamBackend.StreamBackend.WriteSSF | protocol/wire.go:187-213 | on success the whole frame is accepted, on failure a prefix of it |
| StreamBackend.StreamBackend.SendSync | trace/backend.go:195-209 | every outcome leaves on each connection a prefix of whole frames; a marshalled span is sent if and only if no dial and no write failed, and then over the connection there was, or the one new one; otherwise there is no current connection and all are closed; a span that cannot be marshalled changes nothing but may dial |
| StreamBackend.StreamBackend.FlushSync | trace/backend.go:221-238 | it succeeds if and only if no dial and no write failed; then all frames sent over the connection have been written, and it stays; on failure it is closed and given up |
| StreamBackend.StreamBackend.Run | trace/backend.go:182-238 | over every sequence of sends, flushes and closes, with any failures: in every state each connection holds a prefix of the frames sent over it, all but the current one are closed, and from any state on a connection given up by then keeps its bytes and never becomes current again; as long as nothing fails and nothing is closed, one connection carries all that is sent |
| StreamBackend.AllArrive | trace/backend.go:182-238 | a new backend over which nothing failed has at most one connection, and after a flush the bytes on it are exactly the frames of all payloads sent |
| StreamBackend.StreamBackend.Close | trace/backend.go:211-216 | the current connection is closed and stays in place |
| StreamBackend.StreamBackend.ServerGets | trace/backend.go:182-238 | at any time of any run the server reads, off each connection, the spans whose frames arrived whole, then EOF or a framing error |
| StreamBackend.FollowsTransitively | trace/backend.go:182-238 | what one operation keeps of connections, any number of them keep |
| StreamBackend.WholeThenPartial | trace/backend.go:182-238 | the bytes on a connection are whole frames followed by at most one partial frame |
| StreamBackend.ServerReads | trace/backend.go:182-238 | and such bytes read as the spans of the whole frames |
| SplitBytes.SplitBytes.constructor | samplers/split_bytes.go:24-29 | all chunks of the buffer are still to come |
| SplitBytes.SplitBytes.Next | samplers/split_bytes.go:33-51 | moves exactly one chunk of the list from to-come to current, the empty last one too |
| SplitBytes.SplitAll | samplers/split_bytes.go:5-51 | the iterator goes through exactly what bytes.Split returns |
| SplitBytes.SplitJoins | samplers/split_bytes.go:14-15 | the chunks contain no delimiter and join back to the buffer |
| SplitBytes.JoinSplits | samplers/split_bytes.go:14-15 | any delimiter-free chunks, joined, split into themselves |
| Tags.SortedOnce | samplers/parser.go:326-326 | there is only one sorted list of given strings |
| Tags.FindScope | samplers/parser.go:327-341 | the loop takes out the first scope tag and nothing else |
| Tags.ScopeOfSorted | samplers/parser.go:327-341 | in sorted tags the global tag wins over the local one |
| Tags.TagsPermuted | samplers/parser.go:325-345 | tags and scope do not depend on the order the tags are written in |
| Tags.TagsStand | samplers/parser.go:325-346 | the scope is global if the written tags have veneurglobalonly, else local if they have veneurlocalonly, else mixed; the tags come out in order and are the written ones less the one that set the scope |
| DogStatsD.ParseMetric | samplers/parser.go:231-356 | the splitter loop with its running hash computes exactly the reference meaning of the packet, error by error; what that is, PacketMeans says |
| DogStatsD.ParsedTakenIff | samplers/parser.go:231-356 | whatever the packet, a parsed metric has a name, the hash of its key, and the rate that was written, in (0, 1] or NaN; no worker panics over it, and a worker takes it if and only if it is a gauge or a set, a histogram or timer whose rate is not NaN, or a counter whose value and rate fit 64 bits |
| DogStatsD.NaNComesOut | samplers/parser.go:301-313 | a rate of NaN passes both range checks: a gauge is taken all the same, a histogram's digest has no finite weight from then on |
| DogStatsD.SectionsRead | samplers/parser.go:293-351 | sections are accepted if and only if each is tags or a legal rate and neither comes twice; then a rate, or tags, are found exactly if there was such a section |
| MetricPackets.PacketReads | samplers/parser.go:231-356 | a packet put together from name, value, type letter, rate and tags is read if and only if the value is a number (or a set member) and the rate a number in (0, 1] or NaN; then the metric has that name, type, value and rate, the scope its tags ask for, and the written tags in order less the one that set the scope |
| MetricPackets.PacketMeans | samplers/parser.go:231-356 | whatever packet is read: the name is the text before the first colon, the type that of the letter, the value that of the text after the colon, the rate that of the rate section or 1; scope and tags are those of the first tag section, in order, less the tag that set the scope, or none |
| DogStatsD.TagOrderIrrelevant | samplers/parser.go:317-346 | permuting the tags of a packet never changes what ParseMetric returns |
| DogStatsD.SectionOrderIrrelevant | samplers/parser.go:293-351 | swapping neighbouring rate and tag sections changes what ParseMetric returns if and only if the head and the sections before are legal, these have tags, and the rate is a second one or illegal; then both packets are refused |
| DogStatsD.SectionOrderMatters | samplers/parser.go:293-351 | of two packets that differ in the order of an illegal rate and a second tag section, one is refused for its rate and the other for its tags |
| SsfMetrics.ParseMetricSSF | samplers/parser.go:178-227 | the loops compute the reference meaning of a sample for the order in which its tags come up |
| SsfMetrics.SsfMeans | samplers/parser.go:178-227 | types 0 to 4 and no others are counter, gauge, histogram, set and status; a set counts the message, a status check the status, the others the value; the tags are each key:value pair but the scope tags, in order, and the scope is the one its tags ask for |
| SsfMetrics.SsfTakenIff | samplers/parser.go:178-227 | the metric has the hash of its key; a worker takes it if and only if it is no histogram or counter, or a histogram of finite value and finite positive rate, or a counter that fits 64 bits; it panics if and only if it is a histogram whose value is not finite or whose rate is infinite or negative |
| SsfMetrics.SsfFates | samplers/parser.go:199-208 | a histogram of value NaN and one of rate -1 panic, one of rate NaN spoils its digest; a gauge of NaN at rate -1 and a counter at rate -1 are taken |
| SsfMetrics.PlainPermuted | samplers/parser.go:209-223 | the sorted tags do not depend on the iteration order of the map |
| SsfMetrics.DeterministicIff | samplers/parser.go:209-226 | a sample of known type always parses to the same metric if and only if it does not carry both scope tags |
| Numerals.PrintedReads | cmd/veneur-emit/main.go:581-581 | a printed length reads back |
| Escapes.EscapeLength | cmd/veneur-emit/main.go:587-588 | escaping keeps a text and its length if and only if it is one line |
| Escapes.UnescapeEscape | samplers/parser.go:422-422 | an escaped text without backslash-n of its own unescapes to itself |
| Escapes.ParseTagSliceToMap | samplers/parser.go:629-640 | the loop builds the map in which the last tag of a key wins |
| Escapes.TagMapMeaning | samplers/parser.go:629-640 | a key is in the map if and only if some tag has it, with the value of the last such tag |
| Events.ParseEvent | samplers/parser.go:364-506 | the splitter loop with its found-flags computes exactly the reference meaning of the packet, error by error |
| ServiceChecks.ParseServiceCheck | samplers/parser.go:512-625 | the splitter loop with its found-flags computes exactly the reference meaning of the packet, error by error |
| ServiceChecks.CheckTaken | samplers/parser.go:512-625 | whatever the packet, a parsed check has a name and the hash of its key, and a worker takes it |
| Emit.BuildEventPacket | cmd/veneur-emit/main.go:569-619 | the sections written one after the other are the chunks of the event joined by pipes; title and text are required |
| Emit.BuildSCPacket | cmd/veneur-emit/main.go:621-656 | the sections written one after the other are the chunks of the check joined by pipes; name and status are required |
| Emit.EventRoundTrip | cmd/veneur-emit/main.go:569-619 | a pipe-free event packet is read if and only if title and text are nonempty, the text is one line, the date a number, the priority normal or low and the alert type error, warning, info or success; then title, unescaped text, date and every tag are those of the flags |
| Emit.FieldsRecovered | samplers/parser.go:439-499 | what is under a tag key is what the tag section writes there, or else the field of that key |
| Emit.CheckRoundTrip | cmd/veneur-emit/main.go:621-656 | a pipe-free service check packet is read if and only if it has a name, a status written 0, 1, 2 or 3 and a date that is a number; then it has that name, status, date and host, the message unescaped, the scope its tags ask for, and the tags in order less the one that set it |
| ProxyBatches.Group | proxysrv/server.go:203-216 | the loop puts each metric in the batch of its destination, in order, or makes it one no-destination error |
| ProxyBatches.GroupingLosesNothing | proxysrv/server.go:203-216 | under every measure of metrics, the batches and the undeliverable metrics make up the request: each metric is in one place only |
| ProxySend.StepKeeps | proxysrv/server.go:218-242 | every step of every goroutine keeps the wait group equal to the unfinished goroutines, and zero once the channel is closed |
| ProxySend.OnlyForwardWaits | proxysrv/server.go:218-242 | until the caller returns, some goroutine can move unless a forward call has not returned |
| ProxySend.SendSafe | proxysrv/server.go:218-242 | in no interleaving does a goroutine send on the closed channel or take the wait group below zero |
| ProxySend.SendEnds | proxysrv/server.go:218-242 | every interleaving is finite, and one that cannot go on has returned |
| ProxySend.SendAccounts | proxysrv/server.go:189-269 | in every interleaving, on return the errors are, under every measure, those without destination plus one per failed batch, and delivered plus failed metrics equal the request |
| ConnMap.StepOwns | proxysrv/client_conn_map.go:37-95 | every step of Add, Delete and Clear keeps each dialled connection in exactly one place |
| ConnMap.ConnectionsOwned | proxysrv/client_conn_map.go:37-95 | in every interleaving each dialled connection is in the map under its own destination, held by one pending Add, or closed, once |
| ProxyServer.ClientConnMap.Add | proxysrv/client_conn_map.go:37-57 | a connected destination is left alone; any other is dialled and filed, or nothing changes |
| ProxyServer.ClientConnMap.Delete | proxysrv/client_conn_map.go:61-70 | the destination goes and its connection is closed |
| ProxyServer.ClientConnMap.Keys | proxysrv/client_conn_map.go:73-83 | every destination once, in some order |
| ProxyServer.Server.Prune | proxysrv/server.go:157-163 | exactly the connections of neither ring are deleted, the others kept as they are; after every single call the active ring is connected as before |
| ProxyServer.Server.SetDestinations | proxysrv/server.go:147-175 | on success the new ring is active and connected; on failure half-way the old ring is still active; after every single call in between, every member of the old ring is connected over the very connection it had, which is open |
| DatadogChunks.ChunkArithmetic | sinks/datadog/datadog.go:127-131 | for n, m >= 1 the rounded-up divisions give as few chunks as possible and a size that fits |
| DatadogChunks.Chunks | sinks/datadog/datadog.go:127-144 | chunks are at most the limit, nonempty for a nonempty flush, as few as possible, and concatenate to the input; the division by zero happens exactly for an empty flush with a limit of one |
| SpanRing.WindowFilled | sinks/datadog/datadog.go:408-438 | the filled slots of the window are the latest spans |
| SpanRing.DatadogSpanSink.constructor | sinks/datadog/datadog.go:360-373 | an empty ring of the given size, or 16384 for size 0 |
| SpanRing.DatadogSpanSink.Ingest | sinks/datadog/datadog.go:387-397 | a valid span is the newest in the ring, an invalid one changes nothing |
| SpanRing.DatadogSpanSink.Flush | sinks/datadog/datadog.go:402-444 | hands out the last min(n, size) valid spans in order and starts a new ring |

## Left out

- IEEE rounding, overflow and the sign of zero: finite arithmetic on values, weights and rates is over `real`. Values and rates that are NaN or infinite are modelled up to where a digest would take a weight that is no finite number; what such a digest holds afterwards is not. Nor is a reciprocal sum after samples of both +0.0 and -0.0, which is NaN.
- Floating.Convert: where Go leaves the conversion to int64 to the implementation, the model does what amd64 does.
- HistoSampler.HistoSampler.Sample: says nothing of the digest after a weight of NaN or infinity.
- The arcsine itself, the debug lists of samples in centroids, and the digest's gob bytes (the encoded tuple is a value; a payload that does not decode is one of the wrong type).
- MergingDigest.MergingDigest.Add: a weight that is not positive, on which the source panics, is a precondition.
- MergingDigest.MergingDigest.Quantile: an argument outside [0, 1], on which the source panics, is a precondition.
- The worker's samplers are values in maps, not shared objects: aliasing between a flushed map and the worker's new one is left out, which the source avoids by handing the maps over whole. In the network a digest is a value; `HistoSampler` proves that the class, whose sort and shuffle are unspecified, always leaves one that the network's steps allow.
- The cardinality sketch of sets is the set of its members.
- Levels.LastSampleCounts: a global gauge has a level that was sampled, not the last one, since forwarded gauges may arrive in any order.
- InterMetric names, timestamps and sink routing, and tallyMetrics, which only counts and sizes a slice (and leaves out status checks).
- Type names of metrics are a datatype with one constructor per known name and one for all others.
- Network.OneWorkerPerKey: does not model importsrv, which hashes differently from packets and the JSON import.
- FNV-1a collisions and the spread of keys over workers.
- Varint.ReadVarint: lengths so near 2^63 that adding the index wraps around are not modelled; encodings are assumed shorter than 2^63 bytes.
- The other generated protobuf files, which repeat the patterns of ssf/sample.pb.go.
- SsfMarshal.SkipSample: gives an end of input for no bytes at all, on which the source panics; it is never called that way.
- FrameReader.Reader.Read: a reader that returns no bytes and no error for ever is not modelled.
- Sockets, TLS, HTTP handlers, contexts, timeouts and the dial backoff; the buffered writer is modelled by what bufio promises.
- The text that error messages quote from the input: errors of the parsers tell the messages apart, not what they quote.
- HistoSampler.HistoSampler.Combine: a tuple with a weight that is not positive, on which the source panics, is a precondition.
- MergingDigest.MergeLosesMinimum: the 100 is heavy enough if 4 and 6 together fall within one unit of the scale; some weight does for every scale that is continuous at 0, the arcsine among them, and `CrowdingHappens` names one.
- strconv's reading of floats is an arbitrary partial function; its reading of integers is modelled.
- Strings are sequences of characters standing for bytes; text encoding is left out. SSF samples reach `SsfMetrics` as text and numbers, without the byte-level decoding.
- ImportChunks.SortableMetrics.Sort: an insertion sort by swaps stands for sort.Sort, whose algorithm does not matter to its callers; the same holds for sorting centroids and tags.
- ProxyServer.ClientConnMap.Add: has no rival callers; these are in `ConnMap`.
- The consistent hash ring is a function from keys to an optional destination that does not change during a call.
- Datadog request bodies and JSON, flushing of other samples, and a negative or zero limit of metrics per body.
- ConvertMetrics, indicator and uniqueness metrics, trace clients, the remaining sinks and plugins, configuration and discovery: they would only add easy members.
