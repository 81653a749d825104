# A verified model of the scratchpad's media and arithmetic programs

This project models, in Dafny, the programs of the scratchpad that hold logic of their own.

- **`c/ffav/overlay_filter.c`, a filter-graph driver.** It parses a graph description. It attaches a buffer sink to every unconnected output and a buffer source to every unconnected input. It then pumps the graph: in each cycle it drains every sink and feeds every source a synthetic YUV 4:2:0 frame. At the end it sends one end-of-stream feed. Module `OverlayFilter`, with the frames in module `Yuv`.
- **`c/ffav/simple_video_filter.c` and `c/ffav/simple_audio_filter.c`, single-chain programs.** Each builds a source → filter → sink chain, pushes one frame and drains what comes out. The audio program also lays out stereo samples. Module `SimpleFilter`; the video program's frame fill and raw writer are in `Yuv`.
- **`c/ffav/save_livestream.c`, a two-input remuxer.** It maps input streams to output streams, then alternates reading a packet from each input, dropping or rewriting it. Module `Livestream`.
- **`python/date_algo.py`.** It converts a Gregorian date to a day number and back. Module `DateAlgo`.
- **`c/ffav/get_tag_from_err.c`.** It splits an FFmpeg error code into the four characters of its tag. Module `ErrTag`, with the error constants in `Averror`.
- **`asm/cpuid.c`.** It decodes the version-information fields of CPUID leaf 01H. Module `Cpuid`.

FFmpeg is never modelled itself. Each library call is an oracle: a value the model is given, such as a status, a parse result, a frame allocation or a packet. The drivers' own control flow is what the model states and proves. That covers their flags, counters, endpoint arrays, the order of their calls, which status they return, and what they write.

The C programs change state step by step, so they are modelled as classes whose methods change fields and arrays in place:

- `OverlayFilter.FilteringContext` (the `FilteringContext` struct);
- `Yuv.Frame` (an `AVFrame` with three plane buffers) and `Yuv.RawFile` (the output file as an appended byte sequence);
- `SimpleFilter.Chain`;
- `Livestream.Remuxer` (the globals `stream_mapping`, `stream_index` and `nb_pkts`).

Each method is proved against a specification function. Lemmas then prove what the program promises about that function. The Python and bit-field programs are pure, so they are modelled as functions and lemmas.

The date algorithm is written for Python 2, where `/` on integers is floor division. Every divisor in it is a positive constant. For a positive divisor, floor division equals Dafny's Euclidean `/` and `%`, so the model is exact for every integer.

## Model

| member | source | states |
|---|---|---|
| ErrTag.SplitTag | c/ffav/get_tag_from_err.c:12-15 | the characters a, b, c, d are bits 0-7, 8-15, 16-23 and 24-31 of the code |
| ErrTag.SplitOfMkTag | c/ffav/get_tag_from_err.c:12-15 | splitting MKTAG(a, b, c, d) gives back the four characters |
| ErrTag.MkTagOfSplit | c/ffav/get_tag_from_err.c:11-15 | packing the four split bytes with MKTAG gives back the 32-bit code, so the split loses nothing |
| ErrTag.DescribeError | c/ffav/get_tag_from_err.c:11-16 | the bytes are those of the negated argument (32-bit wrap-around), and av_strerror receives exactly the parsed argument |
| ErrTag.EofCode | c/ffav/get_tag_from_err.c:11-15 | AVERROR_EOF is -541478725, and given that code the program recovers the characters 'E', 'O', 'F', ' ' |
| Averror.CodesAreTags | c/ffav/save_livestream.c:226 | AVERROR_EOF and AVERROR_UNKNOWN are the FFERRTAG codes of their four characters; they are negative and differ from each other and from EAGAIN |
| Averror.RunSteps | c/ffav/simple_video_filter.c:88-125 | a chain of `goto end` checks returns a negative status exactly when some call fails, and then it is the first failure's status; otherwise it is the last call's status |
| Averror.FirstFailure | c/ffav/simple_video_filter.c:88-125 | the position of the first failing call; every earlier call succeeded |
| Averror.FirstFailureAt | c/ffav/simple_video_filter.c:88-125 | a call that fails after only successes is the first failure, and its status is the chain's status |
| Averror.NoFailure | c/ffav/simple_video_filter.c:88-125 | with no failure every call is made and the status is non-negative |
| Averror.RunStepsConcat | c/ffav/overlay_filter.c:220-245 | two checked chains run one after the other: the second starts only when the first did not fail, and then it decides the status |
| Cpuid.DecodeVersion | asm/cpuid.c:22-27 | stepping, model, family, processor type, extended model and extended family are bits 0-3, 4-7, 8-11, 12-13, 16-19 and 20-27 of EAX, each within its field's range |
| Cpuid.EncodeVersion | asm/cpuid.c:22-27 | packing the six fields leaves the reserved bits 14-15 and 28-31 zero |
| Cpuid.EncodeDecode | asm/cpuid.c:22-27 | when the reserved bits are zero, reassembling the decoded fields gives back EAX, so the fields are disjoint and cover every other bit |
| Cpuid.DecodeEncode | asm/cpuid.c:22-27 | decoding the packed fields gives back every field |
| DateAlgo.MarchBasedShift | python/date_algo.py:4-6 | March..December are months 0..9 of their own year; January and February are months 10 and 11 of the previous year |
| DateAlgo.MarchFirst | python/date_algo.py:6 | March 1 of year y has day number 365*y + y/4 - y/100 + y/400 |
| DateAlgo.NextDayInMonth | python/date_algo.py:6 | consecutive days of a month get consecutive day numbers |
| DateAlgo.YearLength | python/date_algo.py:6 | a March-based year has 366 days exactly when the February ending it is a Gregorian leap February (4/100/400 rule) |
| DateAlgo.EndOfFebruary | python/date_algo.py:4-6 | the last day of February, the leap day included, is immediately followed by March 1 |
| DateAlgo.EndOfYear | python/date_algo.py:4-6 | December 31 is immediately followed by January 1 of the next year |
| DateAlgo.YearAndDayOfYear | python/date_algo.py:9-13 | the day of year `d` settles on is the distance of the day number from March 1 of the year it settles on |
| DateAlgo.DayOfYearInRange | python/date_algo.py:9-13 | after the single correction the day of year is non-negative and shorter than that year's length: the estimate is never off by more than one year |
| DateAlgo.FromDayNumber | python/date_algo.py:14-18 | `d` always returns a month in 1..12 |
| DateAlgo.DayOfYearOfDate | python/date_algo.py:4-14 | a valid date is day `ddd` of its March-based year, within the year's length, and `d`'s month estimate recovers its month from `ddd` |
| DateAlgo.YearOf | python/date_algo.py:9-13 | `d` picks the March-based year whose days contain the day number |
| DateAlgo.DateOf | python/date_algo.py:14-18 | once year, day of year and month index are known, `d` assembles the date from them |
| DateAlgo.DateOfParts | python/date_algo.py:15-17 | shifting a date to March-based month and day of year and reassembling it gives the date back |
| DateAlgo.MonthShiftInverse | python/date_algo.py:15-16 | the month shift of `g` and the one of `d` are inverse, year correction included |
| DateAlgo.MarchMonthOfDate | python/date_algo.py:15-16 | March-based month mi of year y is calendar month (mi + 2) % 12 + 1 of year y + (mi + 2) / 12, with that month's length |
| DateAlgo.RoundTrip | python/date_algo.py:3-18 | d(g(date)) == date for every valid Gregorian date |
| DateAlgo.InverseRoundTrip | python/date_algo.py:3-18 | every day number gives a valid date, and g maps that date back to the day number |
| DateAlgo.DayNumberInjective | python/date_algo.py:3-6 | different valid dates have different day numbers |
| Yuv.Frame.constructor | c/ffav/overlay_filter.c:76-84 | a frame gets three distinct plane buffers whose lines hold a row of its picture |
| Yuv.FillYuv | c/ffav/simple_video_filter.c:55-64 | the planes become the pattern's samples (mod 256) in the picture area, and every padding byte keeps its value |
| Yuv.FillRows | c/ffav/overlay_filter.c:86-88 | the row-by-row luma loop writes the pattern to the first `width` bytes of each of `height` lines and nothing else |
| Yuv.FillChroma | c/ffav/overlay_filter.c:90-95 | the shared U/V loop writes both chroma patterns to the first `width / 2` bytes of `height / 2` lines and nothing else |
| Yuv.WriteCell | c/ffav/overlay_filter.c:88 | the store at `y * linesize + x` changes exactly the byte of row y, column x |
| Yuv.SaveYuvFrame | c/ffav/overlay_filter.c:34-64 | the file grows by exactly the packed picture: luma rows, then U rows, then V rows, without padding |
| Yuv.WriteRows | c/ffav/simple_video_filter.c:35-38 | one writer loop appends `n` rows of `w` bytes, each starting one line size after the previous |
| Yuv.RowsLength | c/ffav/overlay_filter.c:48-61 | the writer emits exactly `w` bytes per row |
| Yuv.RowsAt | c/ffav/overlay_filter.c:48-61 | byte x of written row i is byte x of line i of the plane: padding is skipped, not copied |
| Yuv.PackedLength | c/ffav/simple_video_filter.c:35-48 | a frame adds w*h + 2*(w/2)*(h/2) bytes to the file, whatever its line sizes |
| Yuv.RowsOfFill | c/ffav/simple_video_filter.c:55-64 | the written rows of a filled plane are the pattern's rows, whatever the padding held |
| Yuv.FillThenSave | c/ffav/overlay_filter.c:86-95 | filling a whole frame and writing it out gives exactly the pattern's file image |
| Yuv.ZeroValueChroma | c/ffav/overlay_filter.c:92-93 | with value 0, as for the probe frame and input 0, both chroma planes are all zero |
| Yuv.FillKeepsPadding | c/ffav/overlay_filter.c:86-95 | a byte past the picture width of its line is never changed by the fill |
| SimpleFilter.InitCalls | c/ffav/simple_video_filter.c:88-125 | the video program makes five checked calls (the sink pixel-format call included), the audio program four; both start with the source and end with the configuration |
| SimpleFilter.InitFiltersAsWritten | c/ffav/simple_video_filter.c:69-78 | once allocation succeeds, init_filters returns the status of its checked call chain |
| SimpleFilter.InitFiltersAllocationFailureIsSuccess | c/ffav/simple_audio_filter.c:42-49 | as written, a failed allocation of the in/out lists or of the graph is reported as success (0) |
| SimpleFilter.InitFilters | c/ffav/simple_video_filter.c:69-78 | corrected: a failed allocation is reported as ENOMEM |
| SimpleFilter.InitFiltersFailsIffStepFails | c/ffav/simple_video_filter.c:67-129 | corrected init_filters fails exactly when an allocation or a call fails, and a failing call's own status is reported |
| SimpleFilter.Quiet | c/ffav/simple_video_filter.c:148-151 | EAGAIN and EOF from the sink become 0; any other status is kept |
| SimpleFilter.Drain | c/ffav/simple_video_filter.c:141-161 | the drain takes frames from the front of the sink's queue until a shell-frame allocation fails (ENOMEM; the frames not yet taken stay queued, and the queue may already be empty) or the queue is empty (the quieted sink status); the caller holds the last frame taken, or the frame it held before when none is taken |
| SimpleFilter.DrainEmptiesSink | c/ffav/simple_audio_filter.c:126-146 | when every shell frame is allocated, every queued frame is taken, the caller holds the last, and the status is 0 unless the sink reports an error |
| SimpleFilter.DrainStopsAtAllocFailure | c/ffav/simple_video_filter.c:142-146 | a failed shell-frame allocation stops the drain with ENOMEM after exactly the frames taken before it |
| SimpleFilter.Chain.AllocFrame | c/ffav/simple_video_filter.c:142 | one av_frame_alloc: consumes one allocation answer |
| SimpleFilter.Chain.GetFrame | c/ffav/simple_video_filter.c:148 | the sink delivers its first queued frame with status 0, or its empty-queue status and no change |
| SimpleFilter.Chain.ApplyFilters | c/ffav/simple_video_filter.c:131-164 | a failed push returns its status and leaves the sink, allocations and frame untouched; a successful push feeds the frame and leaves the caller's reference blank, and the sink is then drained as `Drain` says from that blank frame |
| SimpleFilter.Chain.DrainInto | c/ffav/simple_audio_filter.c:126-146 | the drain loop's status, final frame, remaining queue and allocation count are those of `Drain` |
| SimpleFilter.Chain.DrainOnce | c/ffav/simple_video_filter.c:142-160 | one pass either ends the loop with the status `Drain` gives, changing nothing but the allocation count, or moves the first queued frame into the caller's frame and leaves the rest of `Drain` to do |
| SimpleFilter.Span | c/ffav/simple_audio_filter.c:29-32 | sample j fills nbChannels consecutive slots (one when nbChannels < 1) |
| SimpleFilter.Writer | c/ffav/simple_audio_filter.c:28-32 | the sample whose write an index ends with is the last one covering it, and none after it does |
| SimpleFilter.WriterStep | c/ffav/simple_audio_filter.c:28-32 | writing sample j changes the last writer exactly of the indices it covers |
| SimpleFilter.WriteSample | c/ffav/simple_audio_filter.c:29-32 | sample j goes to index 2j and is copied to the next nbChannels - 1 indices; nothing else changes |
| SimpleFilter.FillPass | c/ffav/simple_audio_filter.c:28-34 | one pass leaves every covered index with the tick of its last writer, every other index unchanged, and advances the tick by nbSamples |
| SimpleFilter.FillSamples | c/ffav/simple_audio_filter.c:21-36 | after the 200 passes the buffer holds the last pass's samples at the covered indices and its old bytes elsewhere |
| SimpleFilter.StereoLayout | c/ffav/simple_audio_filter.c:27-35 | for stereo, indices 0..2*nbSamples-1 hold sample index/2 of the last pass, each odd index equals the even one before it, and nothing beyond is written |
| Livestream.FailCode | c/ffav/save_livestream.c:87-98 | a failing stream gives AVERROR_UNKNOWN when no output stream is created, else the negative copy status |
| Livestream.FirstFail | c/ffav/save_livestream.c:73-100 | the position of the first stream whose output cannot be set up; every earlier stream's can |
| Livestream.MapPrefix | c/ffav/save_livestream.c:73-100 | the loop fails exactly when a stream fails, with that stream's code; entries up to and including that stream get the next counter value (copied kinds) or -1 (others); every other entry is unchanged; the counter grows by the copied streams handled |
| Livestream.MapPrefixStops | c/ffav/save_livestream.c:87-98 | after a failing stream the loop changes nothing more: later entries are left unwritten |
| Livestream.CopiedCountMonotone | c/ffav/save_livestream.c:85 | the number of copied streams grows along the list, strictly past a copied stream |
| Livestream.ConsecutiveIndices | c/ffav/save_livestream.c:85 | copied streams get strictly increasing output indices between the counter's old and new values, with no index skipped |
| Livestream.Remux | c/ffav/save_livestream.c:105-139 | a failed read returns its status; a packet whose stream index is past the mapping or mapped to -1 is dropped with 0; any other is written with the mapped stream index and position -1, and the write's failure is returned |
| Livestream.Remuxer.constructor | c/ffav/save_livestream.c:172-173 | the mapping is allocated zeroed, with the counters at 0 |
| Livestream.Remuxer.CreateStreams | c/ffav/save_livestream.c:70-103 | the in-place loop leaves the status, the mapping array and the counter `MapPrefix` gives |
| Livestream.Remuxer.RemuxPkt | c/ffav/save_livestream.c:105-139 | one read and at most one write, with the outcome `Remux` gives |
| Livestream.Remuxer.Pump | c/ffav/save_livestream.c:203-210 | the log is exactly the run `PumpRun` gives from the inputs' answers: the inputs alternate, first input first, each step is remux_pkt on that input's next answer; every status but the last is non-negative and the last is returned; the muxer's write count, both read cursors and nb_pkts (one more per completed pass) are those of the run; without a failure exactly 2 * (302 - nb_pkts) packets are handled; a first answer of AVERROR_EOF stops the pump at once with AVERROR_EOF, no write, nb_pkts unchanged and exit status 0 |
| Livestream.Remuxer.PumpLoop | c/ffav/save_livestream.c:203-210 | the `while (1)` loop: the log and writes are those of `PumpRun` after k steps, every step before the last succeeded, the last step's status is returned, the cursors and nb_pkts follow the steps |
| Livestream.Remuxer.RunPass | c/ffav/save_livestream.c:204-207 | one pass: the first input's remux_pkt, and the second's only when the first succeeded; the log grows by exactly the run's next one or two steps |
| Livestream.Remuxer.PumpStep | c/ffav/save_livestream.c:204-207 | one remux_pkt call inside the loop adds exactly the run's next step to the log and advances that input's cursor by one |
| Livestream.PumpRead | c/ffav/save_livestream.c:203-207 | step j reads the first input on even j and the second on odd j, each its next answer; a read failure is negative |
| Livestream.WritesIn | c/ffav/save_livestream.c:134 | the number of steps that hand a packet to the muxer is at most the number of steps |
| Livestream.PumpRun | c/ffav/save_livestream.c:203-210 | a run of k steps has k steps, and the reads alternate: the first input is read once more than the second or as often |
| Livestream.PumpRunPrefix | c/ffav/save_livestream.c:203-210 | a shorter run of the pump is a prefix of a longer one |
| Livestream.FirstInputStep | c/ffav/save_livestream.c:204-205 | step 2i of a run is remux_pkt on the first input's answer number i, the muxer answering as its write number after the earlier steps |
| Livestream.SecondInputStep | c/ffav/save_livestream.c:206-207 | step 2i + 1 of a run is remux_pkt on the second input's answer number i |
| Livestream.StepReads | c/ffav/save_livestream.c:203-207 | any step k of a run is remux_pkt on `PumpRead(k)` with the inputs' own mapping base |
| Livestream.RunWrites | c/ffav/save_livestream.c:134 | the muxer's write count after a run is the count before it plus the steps that wrote a packet |
| Livestream.RunOk | c/ffav/save_livestream.c:204-207 | a run succeeded exactly when every one of its steps returned a non-negative status |
| Livestream.RunNext | c/ffav/save_livestream.c:204-207 | one more step appends one step, adds one write exactly when it writes a packet, and its status becomes the run's |
| Livestream.RunEnd | c/ffav/save_livestream.c:204-207 | a run that breaks at its last step: every earlier step succeeded and the last decides the status |
| Livestream.PassLimit | c/ffav/save_livestream.c:208 | starting from nb_pkts = 0, the loop makes 302 passes when nothing fails |
| Livestream.ExitStatus | c/ffav/save_livestream.c:226-231 | the program exits 1 exactly for a negative status other than AVERROR_EOF |
| Livestream.EndOfInputExitsCleanly | c/ffav/save_livestream.c:111-113 | in any run the pump leaves (every step before the last succeeded), a step that reads AVERROR_EOF from either input is the last one: it writes nothing, the pump returns AVERROR_EOF and the program exits 0 |
| Livestream.FirstReadEndsPump | c/ffav/save_livestream.c:111-113 | when the first input's first answer is AVERROR_EOF, the pump makes that one step, writes nothing and returns AVERROR_EOF |
| Livestream.SetUpAsWritten | c/ffav/save_livestream.c:172-185 | the mapping has one entry per stream of both inputs |
| Livestream.SecondInputOverwritesFirst | c/ffav/save_livestream.c:181-185 | as written, the second input's entries overwrite the first's, so with one video stream each the packets of both inputs go to output stream 1 |
| Livestream.SecondInputOverwritesFirstAll | c/ffav/save_livestream.c:181-185 | as written, with every stream set up, the entries below the second input's stream count hold its output indices, the entries from there up to the first input's stream count keep the first input's, and the rest stay 0 |
| Livestream.SetUp | c/ffav/save_livestream.c:172-185 | corrected: the second input's entries follow the first's |
| Livestream.SetUpSeparatesInputs | c/ffav/save_livestream.c:181-185 | corrected: each input keeps its own entries, its streams are numbered after the first input's, and no two copied streams share an output stream |
| OverlayFilter.GetDummyFrame | c/ffav/overlay_filter.c:66-98 | a frame is returned exactly when the index is below FRAME_COUNT (100) and allocation succeeds, and its written image is the get_dummy_frame pattern |
| OverlayFilter.FilteringContext.constructor | c/ffav/overlay_filter.c:329 | a zeroed context: not initialized, not failed, no endpoints |
| OverlayFilter.FilteringContext.ReadInputPad | c/ffav/overlay_filter.c:100-106 | the probe frame is obtained exactly when its allocation succeeds |
| OverlayFilter.FilteringContext.BindOutput | c/ffav/overlay_filter.c:175-207 | with the sink type read from the output pad table (line 180 corrected): a pad neither video nor audio gives EINVAL; on success exactly one sink is appended after the earlier ones, and on failure nothing |
| OverlayFilter.FilteringContext.BindInput | c/ffav/overlay_filter.c:108-173 | the first failing step (no probe frame, parameters, type, allocation, parameter set, init, link) gives its status and appends nothing; success appends exactly one source last |
| OverlayFilter.FilteringContext.BindOutputs | c/ffav/overlay_filter.c:226-231 | the outputs are bound in order up to the first that fails, whose status is returned |
| OverlayFilter.FilteringContext.BindInputs | c/ffav/overlay_filter.c:233-239 | the inputs are bound in order up to the first that fails, whose status is returned |
| OverlayFilter.FilteringContext.InitGraph | c/ffav/overlay_filter.c:209-254 | the status, flags and endpoint arrays left by init_graph are those of `Setup` |
| OverlayFilter.SetupOrder | c/ffav/overlay_filter.c:220-247 | every output is bound before any input; the graph is initialized only when every pad has its endpoint and `failed` is clear |
| OverlayFilter.SetupStopsAtOutput | c/ffav/overlay_filter.c:226-231 | an output binding failure stops setup with its status, no input bound and `failed` clear |
| OverlayFilter.SetupStopsAtInput | c/ffav/overlay_filter.c:233-239 | an input binding failure stops setup with its status and `failed` set |
| OverlayFilter.SetupReachesConfigure | c/ffav/overlay_filter.c:241-247 | with every endpoint bound, the configuration decides `initialized` and `failed` |
| OverlayFilter.SetupReportsFirstFailure | c/ffav/overlay_filter.c:209-254 | init_graph returns the first failing step's status; it initializes exactly when no step fails; `failed` is set exactly when the parse, an input binding or the configuration fails |
| OverlayFilter.ParsedSteps | c/ffav/overlay_filter.c:226-245 | after the parse, the first failure is among the outputs, else among the inputs, else the configuration, and its status is reported |
| OverlayFilter.BoundEndpointsMatchPads | c/ffav/overlay_filter.c:120-139 | with line 180 corrected, every bound sink and source is linked to its own pad, which is video or audio, and is a "buffersink"/"abuffersink" or "buffer"/"abuffer" of that type |
| OverlayFilter.BoundSinksMatchPads | c/ffav/overlay_filter.c:182-204 | the k-th sink is the one for the k-th open output |
| OverlayFilter.BoundSourcesMatchPads | c/ffav/overlay_filter.c:121-170 | the k-th source is the one for the k-th open input |
| OverlayFilter.SinksAt | c/ffav/overlay_filter.c:202-204 | appending sinks keeps each earlier entry in place |
| OverlayFilter.SourcesAt | c/ffav/overlay_filter.c:168-170 | appending sources keeps each earlier entry in place |
| OverlayFilter.SinkKindAsWrittenMismatch | c/ffav/overlay_filter.c:180 | as written, a node with an audio input pad and a video output pad gets an audio sink on its video output |
| OverlayFilter.OutputStatusesAsWritten | c/ffav/overlay_filter.c:226-231 | one status per open output, each that of init_output_filter as written |
| OverlayFilter.BindOutputAsWrittenVersusCorrected | c/ffav/overlay_filter.c:175-200 | init_output_filter as written agrees with the corrected one when both pad tables give the same type at the pad's index, and fails (EINVAL from the type check or avfilter_link, or the creation's status) whenever they differ |
| OverlayFilter.AsWrittenRefusesMismatchedOutput | c/ffav/overlay_filter.c:175-231 | as written, init_graph stops with EINVAL at the first open output whose two pad tables disagree, while the corrected driver binds that output's sink |
| OverlayFilter.DrainStatus | c/ffav/overlay_filter.c:256-276 | read_output returns the last output's status, with EAGAIN reported as 0 (0 when there is no output) |
| OverlayFilter.DrainError | c/ffav/overlay_filter.c:269-272 | a cycle's drain is an error exactly when some pull returns neither a frame, EAGAIN nor EOF |
| OverlayFilter.FilteringContext.ReadOutput | c/ffav/overlay_filter.c:256-276 | every output is pulled once, in order; the status is `DrainStatus`; `failed` is set exactly when a pull is an error |
| OverlayFilter.EarlierEofIsOverwritten | c/ffav/overlay_filter.c:259-275 | an EOF from an earlier output is lost when the last output gives a frame or EAGAIN, so the loop does not stop on it |
| OverlayFilter.Feed | c/ffav/overlay_filter.c:281-294 | feed_input reaches inputs while pushes succeed; a negative status is the push of the last input reached |
| OverlayFilter.FilteringContext.FeedOne | c/ffav/overlay_filter.c:282-292 | one input: a probe read exactly when its source has failed requests, then one push of the frame (none at end of stream) |
| OverlayFilter.FilteringContext.FeedInput | c/ffav/overlay_filter.c:278-295 | the status is `Feed`'s, and exactly the inputs it reaches are pushed, in order |
| OverlayFilter.FeedStops | c/ffav/overlay_filter.c:289-292 | after a failed push no later input is fed |
| OverlayFilter.FeedWithoutFailure | c/ffav/overlay_filter.c:281-294 | with no failed push every input is fed and the last push is reported |
| OverlayFilter.FeedFailsAt | c/ffav/overlay_filter.c:289-292 | the first failing push ends the feed with its status, after exactly the inputs before it and itself |
| OverlayFilter.FeedReportsFirstFailure | c/ffav/overlay_filter.c:278-295 | the feed's status is the first failing push's (or the last push's), and it reaches the inputs up to that push |
| OverlayFilter.NoFramesAfterCount | c/ffav/overlay_filter.c:68-69 | from cycle 100 on every push is NULL |
| OverlayFilter.FramesBeforeCount | c/ffav/overlay_filter.c:286-288 | before cycle 100, input i is pushed the synthetic frame with value i whenever its allocation succeeds |
| OverlayFilter.FinalFeedPushesNull | c/ffav/overlay_filter.c:311-313 | the end-of-stream feed pushes NULL to every input it reaches |
| OverlayFilter.FilteringContext.RunCycle | c/ffav/overlay_filter.c:304-307 | one cycle drains every output, then feeds every input with frame `c`, and tells whether the loop breaks |
| OverlayFilter.FilteringContext.Pump | c/ffav/overlay_filter.c:302-309 | the loop runs cycles 0, 1, ... while initialized, each continuing cycle increments the frame index, and it stops at the first cycle whose drain and feed both fail or whose drain gives EOF |
| OverlayFilter.FilteringContext.Process | c/ffav/overlay_filter.c:297-314 | setup, then the cycles, then exactly one end-of-stream feed when `failed` is clear and none otherwise, with no pull after it |
| OverlayFilter.TraceIsCycles | c/ffav/overlay_filter.c:302-309 | every event the loop records belongs to one of its cycles, so the end-of-stream pushes come after all of them |
| OverlayFilter.UninitializedFeedsNothing | c/ffav/overlay_filter.c:311-313 | when setup fails, the final feed either is skipped (`failed`) or has no source to push to |

## Left out

- FFmpeg itself: graph parsing, configuration, buffer source and sink behaviour, codecs and muxing. Each call is an oracle answer (`Library`, `InitAnswers`, `InputStream`, `ReadResult`, write results).
- File and console I/O: `printf` logging, `fopen`/`fclose`, `unlink`, `atoi`. The YUV writers append to `Yuv.RawFile.bytes`; the decoders take their input as a parameter.
- The bytes of frames pulled from sinks. `read_output` writes each delivered frame with `save_yuv_frame`; the model records the pull (`Pulled`) but not the written bytes, because the sink's frames are library output.
- Memory management: frame and parameter frees, `av_realloc_array` failure, the probe frame that `feed_input` leaks, and the per-frame graphs of simple_video_filter.c.
- OverlayFilter.FilteringContext.Process and OverlayFilter.FilteringContext.Pump: the loop of `process` ends only when the library says so. The model is given at most `fuel` cycles; when they run out it stops before the final end-of-stream feed (`exhausted`).
- OverlayFilter.FilteringContext.BindOutput: the method, and through it InitGraph, Process, `Setup` and `BindOutputStatus`, reads the sink type from the output pad table, which is line 180 of overlay_filter.c corrected; the driver as written is modelled only at the level of statuses, by `BindOutputStatusAsWritten` and `OutputStatusesAsWritten` (see Findings).
- SimpleFilter.Chain.ApplyFilters: a failed `av_buffersrc_add_frame_flags` is modelled as leaving the caller's frame as it was.
- OverlayFilter.PadType: avfilter_pad_get_type with an index past the pad table is modelled as an unsupported type (the C reads past the table).
- Buffer-source parameters (format, time base, size, frame rate, sample rate, channel layout) and the name strings of the created filters are not modelled; only the chosen filter and the linked pad are.
- Livestream.Remux: on success `remux_pkt` falls off its end without a return statement. The model returns an unspecified non-negative `fallOff`.
- `open_input` in save_livestream.c, the output file opening, the header and the trailer are not modelled.
- Packet timestamps (save_livestream.c lines 127-129) use wall-clock time and rational rescaling; a packet's other fields are an opaque `payload`.
- The `codec_tag = 0` reset of each created output stream is library state and is not modelled.
- SimpleFilter.FillSamples: the sample values are the sine of a floating-point phase; the model keeps the index structure and abstracts each sample as `wave(tick)`.
- The `main` loops of simple_video_filter.c and simple_audio_filter.c (25 frames, chain rebuilt each time) are not modelled beyond their parts above.
- Frames are identified by number in `SimpleFilter`; their pixels and samples are not part of that module.
- Yuv.Frame.constructor: `av_frame_get_buffer` leaves the bytes unspecified; the model starts them at 0. No property depends on their value.
- The signedness of `char` in get_tag_from_err.c: the bytes are modelled as 0..255.
- The `cpuid` instruction itself (asm/cpuid.c lines 3-12): EAX is an input.

## Findings

| source | as written | input that shows it | evidently intended | confidence | as-written member | corrected member |
|---|---|---|---|---|---|---|
| c/ffav/simple_video_filter.c:69-78 | when allocating the in/out lists or the graph fails, init_filters jumps to `end` with `ret` still 0 and reports success (same at c/ffav/simple_audio_filter.c:42-49) | avfilter_graph_alloc returns NULL | an allocation failure returns a negative status, such as AVERROR(ENOMEM) | not executed; high | SimpleFilter.InitFiltersAsWritten, SimpleFilter.InitFiltersAllocationFailureIsSuccess | SimpleFilter.InitFilters, SimpleFilter.InitFiltersFailsIffStepFails |
| c/ffav/save_livestream.c:181-185 | both create_streams calls write `stream_mapping[i]` from index 0, and remux_pkt looks packets of both inputs up from index 0; in general the second input rewrites the entries below its stream count | each input has one video stream: the mapping ends as [1, 0], and packets of both inputs go to output stream 1. This shows only once open_input is fixed: it takes the context by value (lines 54-68), so ifmt1_ctx and ifmt2_ctx stay NULL and line 172 dereferences NULL first | the second input's entries follow the first's, so each input stream keeps its own output stream | not executed; high | Livestream.SetUpAsWritten, Livestream.SecondInputOverwritesFirst, Livestream.SecondInputOverwritesFirstAll | Livestream.SetUp, Livestream.SetUpSeparatesInputs |
| c/ffav/overlay_filter.c:180 | init_output_filter reads the type of an open output from the node's input pad table | an open output of a node whose input pad 0 is audio and output pad 0 is video: an "abuffersink" is chosen for a video output, avfilter_link refuses it with EINVAL, and init_graph fails although the graph is sound | the type of the output pad itself decides the sink | not executed; medium | OverlayFilter.SinkKindAsWrittenMismatch, OverlayFilter.AsWrittenRefusesMismatchedOutput | OverlayFilter.FilteringContext.BindOutput, OverlayFilter.BoundEndpointsMatchPads |
