/**
 * The filter-graph driver of c/ffav/overlay_filter.c: it parses a graph
 * description, attaches a buffer sink to every unconnected output and a buffer
 * source to every unconnected input, and then pumps the graph, draining every
 * sink and feeding every source once per cycle with a synthetic frame.
 *
 * libavfilter is seen only through its answers, which a `Library` value holds:
 * what parsing the description gives, the status of every setup call, and,
 * keyed by cycle and endpoint, what each sink, source and frame allocation
 * answers in the pump. The driver's control flow, its two flags, its endpoint
 * arrays and the order of its calls are what the model states.
 */
module OverlayFilter {
  import opened Averror
  import opened Wrappers
  import Yuv

  /** FRAME_WIDTH, FRAME_HEIGHT and FRAME_COUNT (lines 17-20). */
  const FrameWidth: nat := 1280
  const FrameHeight: nat := 720
  const FrameCount: nat := 100

  // ---------------------------------------------------------------------------
  // What libavfilter answers
  // ---------------------------------------------------------------------------

  /** The media type of a pad; `Other` stands for every type but video and audio. */
  datatype MediaKind = Video | Audio | Other

  /** A filter of the parsed graph, as far as the driver looks at it: the types of its pads. */
  datatype Node = Node(inputPads: seq<MediaKind>, outputPads: seq<MediaKind>)

  /** An AVFilterInOut: the pad `padIdx` of `node` that the description leaves unconnected. */
  datatype InOut = InOut(node: Node, padIdx: nat)

  /** avfilter_pad_get_type; an index past the pad table is modelled as an unsupported type. */
  function PadType(pads: seq<MediaKind>, idx: nat): MediaKind {
    if idx < |pads| then pads[idx] else Other
  }

  /** What av_frame_alloc and av_frame_get_buffer give: no frame, no buffer, or planes with these line sizes. */
  datatype FrameAlloc = NoFrame | NoBuffer(code: int) | Buffer(lsY: nat, lsU: nat, lsV: nat)

  /** av_frame_get_buffer gives every line room for a row of the picture. */
  predicate Fits(a: FrameAlloc)
    requires a.Buffer?
  {
    a.lsY >= FrameWidth && a.lsU >= FrameWidth / 2 && a.lsV >= FrameWidth / 2
  }

  /** What avfilter_graph_parse2 gives: a status, or the lists of open inputs and outputs. */
  datatype ParseAnswer = ParseFailed(code: int) | Parsed(inputs: seq<InOut>, outputs: seq<InOut>)

  /** The setup calls whose status the driver checks, with the position of the endpoint being bound.
      For an allocation a negative status stands for NULL. */
  datatype SetupCall =
    | SinkCreate(k: nat) | SinkLink(k: nat)
    | ParamsAlloc(k: nat) | SourceAlloc(k: nat) | ParamsSet(k: nat) | SourceInit(k: nat) | SourceLink(k: nat)
    | Configure

  /** When a pump call is made: in cycle `n` of the loop of `process`, or in its final feed. */
  datatype Phase = Cycle(n: nat) | Final

  datatype Library = Library(
    graphAllocated: bool,
    parse: ParseAnswer,
    /** The frame read_input_pad obtains while input `k` is bound. */
    probe: nat -> FrameAlloc,
    status: SetupCall -> int,
    /** av_buffersink_get_frame_flags on output `i` in cycle `c`: a frame (non-negative) or a status. */
    sink: (nat, nat) -> int,
    /** av_buffersrc_get_nb_failed_requests, the frame of get_dummy_frame and av_buffersrc_add_frame
        for input `i` in a phase. */
    requests: (Phase, nat) -> int,
    frames: (Phase, nat) -> FrameAlloc,
    push: (Phase, nat) -> int)
  {
    /** What the library guarantees: a failed parse has a negative status, and every buffer fits a frame. */
    ghost predicate Valid() {
      && (parse.ParseFailed? ==> parse.code < 0)
      && (forall k :: probe(k).Buffer? ==> Fits(probe(k)))
      && (forall p, i :: frames(p, i).Buffer? ==> Fits(frames(p, i)))
    }
  }

  // ---------------------------------------------------------------------------
  // Binding endpoints
  // ---------------------------------------------------------------------------

  /** A buffer source or sink the driver created, and the pad it is linked to. */
  datatype Endpoint = Endpoint(filter: string, pad: InOut)

  /** The type init_input_filter reads: that of the input pad it will feed. */
  function SourceKind(input: InOut): MediaKind {
    PadType(input.node.inputPads, input.padIdx)
  }

  /** The type init_output_filter reads as written (line 180): the node's INPUT pad table indexed
      with the number of an OUTPUT pad. */
  function SinkKindAsWritten(output: InOut): MediaKind {
    PadType(output.node.inputPads, output.padIdx)
  }

  /** The type the sink must have: that of the output pad it drains. */
  function SinkKind(output: InOut): MediaKind {
    PadType(output.node.outputPads, output.padIdx)
  }

  /** The sink chosen for an output of type `kind` (lines 182-186). */
  function SinkFilter(kind: MediaKind): string {
    if kind == Video then "buffersink" else "abuffersink"
  }

  /** The source chosen for an input of type `kind` (lines 121-135). */
  function SourceFilter(kind: MediaKind): string {
    if kind == Video then "buffer" else "abuffer"
  }

  function SinkFor(output: InOut): Endpoint {
    Endpoint(SinkFilter(SinkKind(output)), output)
  }

  function SourceFor(input: InOut): Endpoint {
    Endpoint(SourceFilter(SourceKind(input)), input)
  }

  /** The status init_output_filter returns for the `k`-th open output. */
  function BindOutputStatus(lib: Library, k: nat, output: InOut): int {
    if SinkKind(output) == Other then EINVAL
    else if lib.status(SinkCreate(k)) < 0 then lib.status(SinkCreate(k))
    else lib.status(SinkLink(k))
  }

  /** The status init_output_filter returns as written: the sink's type is the one read at line
      180, and avfilter_link refuses, with AVERROR(EINVAL), to connect an output pad to a sink of
      another media type. */
  function BindOutputStatusAsWritten(lib: Library, k: nat, output: InOut): int {
    var kind := SinkKindAsWritten(output);
    if kind == Other then EINVAL
    else if lib.status(SinkCreate(k)) < 0 then lib.status(SinkCreate(k))
    else if kind != SinkKind(output) then EINVAL
    else lib.status(SinkLink(k))
  }

  /** The status init_input_filter returns for the `k`-th open input. */
  function BindInputStatus(lib: Library, k: nat, input: InOut): int {
    if !lib.probe(k).Buffer? then EAGAIN
    else if lib.status(ParamsAlloc(k)) < 0 then ENOMEM
    else if SourceKind(input) == Other then EINVAL
    else if lib.status(SourceAlloc(k)) < 0 then -1
    else if lib.status(ParamsSet(k)) < 0 then lib.status(ParamsSet(k))
    else if lib.status(SourceInit(k)) < 0 then lib.status(SourceInit(k))
    else lib.status(SourceLink(k))
  }

  /** The sinks of the first `n` outputs, in order. */
  function Sinks(outs: seq<InOut>, n: nat): (r: seq<Endpoint>)
    requires n <= |outs|
    ensures |r| == n
  {
    if n == 0 then [] else Sinks(outs, n - 1) + [SinkFor(outs[n - 1])]
  }

  /** The sources of the first `n` inputs, in order. */
  function Sources(ins: seq<InOut>, n: nat): (r: seq<Endpoint>)
    requires n <= |ins|
    ensures |r| == n
  {
    if n == 0 then [] else Sources(ins, n - 1) + [SourceFor(ins[n - 1])]
  }

  // ---------------------------------------------------------------------------
  // init_graph, specified by its sequence of checked steps
  // ---------------------------------------------------------------------------

  /** The statuses init_output_filter returns for each open output. */
  function OutputStatuses(lib: Library, outs: seq<InOut>): (r: seq<int>)
    ensures |r| == |outs| && forall k :: 0 <= k < |outs| ==> r[k] == BindOutputStatus(lib, k, outs[k])
  {
    seq(|outs|, k requires 0 <= k < |outs| => BindOutputStatus(lib, k, outs[k]))
  }

  /** The statuses init_output_filter returns for each open output, as written. */
  function OutputStatusesAsWritten(lib: Library, outs: seq<InOut>): (r: seq<int>)
    ensures |r| == |outs| && forall k :: 0 <= k < |outs| ==> r[k] == BindOutputStatusAsWritten(lib, k, outs[k])
  {
    seq(|outs|, k requires 0 <= k < |outs| => BindOutputStatusAsWritten(lib, k, outs[k]))
  }

  /** The statuses init_input_filter returns for each open input. */
  function InputStatuses(lib: Library, ins: seq<InOut>): (r: seq<int>)
    ensures |r| == |ins| && forall k :: 0 <= k < |ins| ==> r[k] == BindInputStatus(lib, k, ins[k])
  {
    seq(|ins|, k requires 0 <= k < |ins| => BindInputStatus(lib, k, ins[k]))
  }

  /** The driver's state after init_graph. */
  datatype SetupState = SetupState(
    ret: int, initialized: bool, failed: bool, outputs: seq<Endpoint>, inputs: seq<Endpoint>)

  /** init_graph, step by step: a graph that cannot be allocated gives -1; a failed parse sets
      `failed`; the outputs are bound in order up to the first that fails, which leaves `failed`
      clear; then the inputs, whose failure sets it; then the configuration, whose failure sets it
      and whose success marks the graph initialized. */
  function Setup(lib: Library): SetupState {
    if !lib.graphAllocated then SetupState(-1, false, false, [], [])
    else match lib.parse
      case ParseFailed(code) => SetupState(code, false, true, [], [])
      case Parsed(ins, outs) =>
        var o := FirstFailure(OutputStatuses(lib, outs));
        if o < |outs| then SetupState(BindOutputStatus(lib, o, outs[o]), false, false, Sinks(outs, o), [])
        else
          var i := FirstFailure(InputStatuses(lib, ins));
          if i < |ins| then SetupState(BindInputStatus(lib, i, ins[i]), false, true, Sinks(outs, |outs|), Sources(ins, i))
          else
            var c := lib.status(Configure);
            SetupState(c, c >= 0, c < 0, Sinks(outs, |outs|), Sources(ins, |ins|))
  }

  /** The statuses of the steps of init_graph, in the order it makes them: the graph allocation
      (-1 when it fails), the parse, one binding per open output, one per open input, the
      configuration. */
  function SetupCalls(lib: Library): seq<int> {
    [if lib.graphAllocated then 0 else -1]
    + match lib.parse
      case ParseFailed(code) => [code]
      case Parsed(ins, outs) => [0] + OutputStatuses(lib, outs) + InputStatuses(lib, ins) + [lib.status(Configure)]
  }

  // ---------------------------------------------------------------------------
  // The pump, specified per cycle
  // ---------------------------------------------------------------------------

  /** What the pump did with one endpoint: a pull from output `output`, or a push to input `input`
      (after a probe read when the source had failed requests) of a synthetic frame or of NULL. */
  datatype Act =
    | Pulled(output: nat, status: int)
    | Fed(input: nat, probed: bool, frame: Option<Yuv.Pattern>, status: int)

  datatype Event = Event(phase: Phase, act: Act)

  /** A sink status read_output treats as an error: neither a frame, nor EAGAIN, nor EOF. */
  predicate IsPullError(status: int) {
    status < 0 && status != EAGAIN && status != EOF
  }

  /** The status read_output returns after pulling from `n` outputs in cycle `c`: that of the last
      output, with EAGAIN reported as 0. */
  function DrainStatus(lib: Library, c: nat, n: nat): (ret: int)
    ensures n == 0 ==> ret == 0
    ensures n > 0 ==> (ret < 0 <==> lib.sink(c, n - 1) < 0 && lib.sink(c, n - 1) != EAGAIN)
    ensures n > 0 && ret < 0 ==> ret == lib.sink(c, n - 1)
  {
    if n == 0 then 0
    else if lib.sink(c, n - 1) == EAGAIN then 0
    else lib.sink(c, n - 1)
  }

  /** Whether one of the first `n` pulls of cycle `c` is an error. */
  function DrainError(lib: Library, c: nat, n: nat): (e: bool)
    ensures e <==> exists i :: 0 <= i < n && IsPullError(lib.sink(c, i))
  {
    if n == 0 then false else DrainError(lib, c, n - 1) || IsPullError(lib.sink(c, n - 1))
  }

  /** The pulls of cycle `c` from the first `n` outputs. */
  function Drains(lib: Library, c: nat, n: nat): (r: seq<Event>)
    ensures |r| == n
  {
    if n == 0 then [] else Drains(lib, c, n - 1) + [Event(Cycle(c), Pulled(n - 1, lib.sink(c, n - 1)))]
  }

  /** The push statuses of the first `n` inputs in a phase. */
  function Pushes(lib: Library, phase: Phase, n: nat): (r: seq<int>)
    ensures |r| == n && forall i :: 0 <= i < n ==> r[i] == lib.push(phase, i)
  {
    seq(n, i requires 0 <= i < n => lib.push(phase, i))
  }

  /** What feed_input does over the first `n` inputs: how many it reaches and the status it returns. */
  datatype FeedResult = FeedResult(reached: nat, status: int)

  /** The loop of feed_input: each input is reached while every earlier push succeeded, and the
      status is that of the last push made (0 when there is none). */
  function Feed(lib: Library, phase: Phase, n: nat): (r: FeedResult)
    ensures r.reached <= n
    ensures r.status < 0 ==> 0 < r.reached && r.status == lib.push(phase, r.reached - 1)
    ensures r.status >= 0 ==> r.reached == n
  {
    if n == 0 then FeedResult(0, 0)
    else
      var p := Feed(lib, phase, n - 1);
      if p.status < 0 then p else FeedResult(n, lib.push(phase, n - 1))
  }

  /** The frame pushed to input `i`: none at end of stream, none once `frameIndex` reaches
      FRAME_COUNT or when allocation fails, and otherwise the get_dummy_frame picture with
      `value` = `i`. */
  function FedFrame(lib: Library, phase: Phase, eof: bool, frameIndex: int, i: nat): Option<Yuv.Pattern> {
    if eof || frameIndex >= FrameCount || !lib.frames(phase, i).Buffer? then None
    else Some(Yuv.Dummy(frameIndex, i))
  }

  /** The push of a phase to input `i`, after a probe read when its source had failed requests. */
  function FedEvent(lib: Library, phase: Phase, eof: bool, frameIndex: int, i: nat): Event {
    Event(phase, Fed(i, lib.requests(phase, i) > 0, FedFrame(lib, phase, eof, frameIndex, i), lib.push(phase, i)))
  }

  /** The pushes of a phase to the first `n` inputs. */
  function Feeds(lib: Library, phase: Phase, eof: bool, frameIndex: int, n: nat): (r: seq<Event>)
    ensures |r| == n
  {
    if n == 0 then []
    else
      Feeds(lib, phase, eof, frameIndex, n - 1) + [FedEvent(lib, phase, eof, frameIndex, n - 1)]
  }

  /** Whether cycle `c` ends the loop of `process`: draining and feeding both failed, or draining
      reported EOF. */
  predicate Stops(lib: Library, c: nat, nOut: nat, nIn: nat) {
    var o := DrainStatus(lib, c, nOut);
    var i := Feed(lib, Cycle(c), nIn).status;
    (o < 0 && i < 0) || o == EOF
  }

  /** Everything cycle `c` does: drain every output, then feed the inputs with frame `c`. */
  function CycleEvents(lib: Library, c: nat, nOut: nat, nIn: nat): seq<Event> {
    Drains(lib, c, nOut) + Feeds(lib, Cycle(c), false, c, Feed(lib, Cycle(c), nIn).reached)
  }

  /** The events of the first `n` cycles. */
  function Trace(lib: Library, n: nat, nOut: nat, nIn: nat): seq<Event> {
    if n == 0 then [] else Trace(lib, n - 1, nOut, nIn) + CycleEvents(lib, n - 1, nOut, nIn)
  }

  /** Whether a pull error happened in one of the first `n` cycles. */
  function ErrorIn(lib: Library, n: nat, nOut: nat): bool {
    if n == 0 then false else ErrorIn(lib, n - 1, nOut) || DrainError(lib, n - 1, nOut)
  }

  // ---------------------------------------------------------------------------
  // Synthetic frames
  // ---------------------------------------------------------------------------

  /** get_dummy_frame: no frame once `frameIndex` reaches FRAME_COUNT or when allocation fails;
      otherwise a fresh frame of the given size whose picture, as save_yuv_frame writes it, is the
      pattern's. */
  method GetDummyFrame(width: nat, height: nat, frameIndex: int, value: int, alloc: FrameAlloc)
    returns (f: Option<Yuv.Frame>)
    requires alloc.Buffer? ==> width <= alloc.lsY && width / 2 <= alloc.lsU && width / 2 <= alloc.lsV
    ensures f.Some? <==> frameIndex < FrameCount && alloc.Buffer?
    ensures f.Some? ==> && f.value.Valid() && f.value.width == width && f.value.height == height
                        && Yuv.Packed(f.value.Contents()) == Yuv.PatternFrame(Yuv.Dummy(frameIndex, value), width, height)
  {
    if frameIndex >= FrameCount {
      return None;
    }
    if !alloc.Buffer? {
      return None;
    }
    var frame := new Yuv.Frame(width, height, alloc.lsY, alloc.lsU, alloc.lsV);
    ghost var blank := frame.Contents();
    Yuv.FillYuv(frame, Yuv.Dummy(frameIndex, value), width, height);
    Yuv.FillThenSave(blank, Yuv.Dummy(frameIndex, value));
    f := Some(frame);
  }

  // ---------------------------------------------------------------------------
  // The driver's state
  // ---------------------------------------------------------------------------

  /** The FilteringContext, with the library it talks to and a record of the pump's calls. */
  class FilteringContext {
    const lib: Library
    var initialized: bool
    var failed: bool
    var hasGraph: bool
    var inputs: seq<Endpoint>
    var outputs: seq<Endpoint>
    var log: seq<Event>

    /** av_mallocz: every field zero. */
    constructor (lib: Library)
      ensures this.lib == lib && Fresh()
    {
      this.lib := lib;
      initialized, failed, hasGraph := false, false, false;
      inputs, outputs, log := [], [], [];
    }

    predicate Fresh()
      reads this
    {
      !initialized && !failed && !hasGraph && inputs == [] && outputs == [] && log == []
    }

    /** read_input_pad: the frame get_dummy_frame gives for index 0 and value 0. */
    method ReadInputPad(alloc: FrameAlloc) returns (f: Option<Yuv.Frame>)
      requires alloc.Buffer? ==> Fits(alloc)
      ensures f.Some? <==> alloc.Buffer?
    {
      f := GetDummyFrame(FrameWidth, FrameHeight, 0, 0, alloc);
    }

    /** init_output_filter for the `k`-th open output: a sink of the output pad's type is created and
        linked, and appended to `outputs`; an unsupported type gives EINVAL and appends nothing. */
    method BindOutput(k: nat, output: InOut) returns (ret: int)
      modifies this`outputs
      ensures ret == BindOutputStatus(lib, k, output)
      ensures SinkKind(output) == Other ==> ret == EINVAL
      ensures outputs == old(outputs) + (if ret >= 0 then [SinkFor(output)] else [])
    {
      var kind := PadType(output.node.outputPads, output.padIdx);
      if kind == Other {
        return EINVAL;
      }
      ret := lib.status(SinkCreate(k));
      if ret < 0 {
        return;
      }
      ret := lib.status(SinkLink(k));
      if ret < 0 {
        return;
      }
      outputs := outputs + [SinkFor(output)];
    }

    /** init_input_filter for the `k`-th open input: probe a frame, allocate the parameters, pick a
        source of the input pad's type, create, configure, initialize and link it, and append it to
        `inputs`; the first step that fails gives its status and appends nothing. */
    method BindInput(k: nat, input: InOut) returns (ret: int)
      requires lib.Valid()
      modifies this`inputs
      ensures ret == BindInputStatus(lib, k, input)
      ensures outputs == old(outputs)
      ensures inputs == old(inputs) + (if ret >= 0 then [SourceFor(input)] else [])
    {
      var frame := ReadInputPad(lib.probe(k));
      if frame.None? {
        return EAGAIN;
      }
      if lib.status(ParamsAlloc(k)) < 0 {
        return ENOMEM;
      }
      var kind := PadType(input.node.inputPads, input.padIdx);
      if kind == Other {
        return EINVAL;
      }
      if lib.status(SourceAlloc(k)) < 0 {
        return -1;
      }
      ret := lib.status(ParamsSet(k));
      if ret < 0 {
        return;
      }
      ret := lib.status(SourceInit(k));
      if ret < 0 {
        return;
      }
      ret := lib.status(SourceLink(k));
      if ret < 0 {
        return;
      }
      inputs := inputs + [SourceFor(input)];
    }

    /** The loop of init_graph over the open outputs: bind each in order, stopping at the first
        that fails, whose position is `o` and whose status is returned. */
    method BindOutputs(outs: seq<InOut>) returns (ret: int, ghost o: nat)
      requires outputs == []
      modifies this`outputs
      ensures o <= |outs| && outputs == Sinks(outs, o)
      ensures forall j :: 0 <= j < o ==> BindOutputStatus(lib, j, outs[j]) >= 0
      ensures o < |outs| ==> ret < 0 && ret == BindOutputStatus(lib, o, outs[o])
      ensures o == |outs| ==> ret >= 0
    {
      ret := 0;
      for k := 0 to |outs|
        invariant outputs == Sinks(outs, k) && ret >= 0
        invariant forall j :: 0 <= j < k ==> BindOutputStatus(lib, j, outs[j]) >= 0
      {
        ret := BindOutput(k, outs[k]);
        if ret < 0 {
          return ret, k;
        }
      }
      o := |outs|;
    }

    /** The loop of init_graph over the open inputs: bind each in order, stopping at the first that
        fails, whose position is `i` and whose status is returned. */
    method BindInputs(ins: seq<InOut>) returns (ret: int, ghost i: nat)
      requires lib.Valid() && inputs == []
      modifies this`inputs
      ensures i <= |ins| && inputs == Sources(ins, i)
      ensures forall j :: 0 <= j < i ==> BindInputStatus(lib, j, ins[j]) >= 0
      ensures i < |ins| ==> ret < 0 && ret == BindInputStatus(lib, i, ins[i])
      ensures i == |ins| ==> ret >= 0
    {
      ret := 0;
      for k := 0 to |ins|
        invariant inputs == Sources(ins, k) && ret >= 0
        invariant forall j :: 0 <= j < k ==> BindInputStatus(lib, j, ins[j]) >= 0
      {
        ret := BindInput(k, ins[k]);
        if ret < 0 {
          return ret, k;
        }
      }
      i := |ins|;
    }

    /** init_graph: allocate the graph, parse, bind every output, then every input, then configure,
        stopping at the first step that fails. */
    method InitGraph() returns (ret: int)
      requires lib.Valid() && !initialized && !failed && inputs == [] && outputs == []
      modifies this`hasGraph, this`failed, this`initialized, this`inputs, this`outputs
      ensures Setup(lib) == SetupState(ret, initialized, failed, outputs, inputs)
      ensures hasGraph == lib.graphAllocated
    {
      hasGraph := lib.graphAllocated;
      if !hasGraph {
        return -1;
      }
      if lib.parse.ParseFailed? {
        ret := lib.parse.code;
        failed := true;
        return;
      }
      var ins, outs := lib.parse.inputs, lib.parse.outputs;
      ghost var o, i;
      ret, o := BindOutputs(outs);
      if ret < 0 {
        SetupStopsAtOutput(lib, o);
        return;
      }
      ret, i := BindInputs(ins);
      if ret < 0 {
        SetupStopsAtInput(lib, i);
        failed := true;
        return;
      }
      SetupReachesConfigure(lib);
      ret := lib.status(Configure);
      if ret < 0 {
        failed := true;
        return;
      }
      initialized := true;
    }

    /** read_output in cycle `c`: pull once from every sink, in order; a frame goes to the writer,
        EAGAIN counts as 0, and an error other than EOF sets `failed`. */
    method ReadOutput(c: nat) returns (ret: int)
      modifies this`failed, this`log
      ensures ret == DrainStatus(lib, c, |outputs|)
      ensures failed == (old(failed) || DrainError(lib, c, |outputs|))
      ensures log == old(log) + Drains(lib, c, |outputs|)
    {
      ret := 0;
      for i := 0 to |outputs|
        invariant ret == DrainStatus(lib, c, i)
        invariant failed == (old(failed) || DrainError(lib, c, i))
        invariant log == old(log) + Drains(lib, c, i)
      {
        ret := lib.sink(c, i);
        log := log + [Event(Cycle(c), Pulled(i, ret))];
        if ret >= 0 {
        } else if ret == EAGAIN {
          ret := 0;
        } else if ret == EOF {
        } else {
          failed := true;
        }
      }
    }

    /** One iteration of feed_input, for input `i`: the probe read when the source has failed
        requests, the frame (none at end of stream), and the push, whose status is returned. */
    method FeedOne(phase: Phase, eof: bool, frameIndex: int, i: nat) returns (ret: int)
      requires lib.Valid()
      modifies this`log
      ensures ret == lib.push(phase, i)
      ensures log == old(log) + [FedEvent(lib, phase, eof, frameIndex, i)]
    {
      var requested := lib.requests(phase, i);
      var frame: Option<Yuv.Frame> := None;
      if !eof {
        frame := GetDummyFrame(FrameWidth, FrameHeight, frameIndex, i, lib.frames(phase, i));
      }
      ret := lib.push(phase, i);
      log := log + [Event(phase, Fed(i, requested > 0, if frame.Some? then Some(Yuv.Dummy(frameIndex, i)) else None, ret))];
    }

    /** feed_input: for every source in order, a probe read when it has failed requests, then a push
        of NULL at end of stream or else of the frame for `frameIndex`; the first push that fails
        ends the call with its status. */
    method FeedInput(phase: Phase, eof: bool, frameIndex: int) returns (ret: int)
      requires lib.Valid()
      modifies this`log
      ensures var r := Feed(lib, phase, |inputs|);
              ret == r.status && log == old(log) + Feeds(lib, phase, eof, frameIndex, r.reached)
    {
      ret := 0;
      var i := 0;
      while i < |inputs| && ret >= 0
        invariant i <= |inputs| && Feed(lib, phase, i) == FeedResult(i, ret)
        invariant log == old(log) + Feeds(lib, phase, eof, frameIndex, i)
      {
        ret := FeedOne(phase, eof, frameIndex, i);
        i := i + 1;
      }
      if ret < 0 {
        FeedStops(lib, phase, i, |inputs|);
      }
    }

    /** One cycle of the loop of `process`: read_output, then feed_input with frame `c`; `stop` tells
        whether the loop breaks after it. */
    method RunCycle(c: nat) returns (stop: bool)
      requires lib.Valid()
      modifies this`failed, this`log
      ensures stop == Stops(lib, c, |outputs|, |inputs|)
      ensures failed == (old(failed) || DrainError(lib, c, |outputs|))
      ensures log == old(log) + CycleEvents(lib, c, |outputs|, |inputs|)
      ensures old(log) == Trace(lib, c, |outputs|, |inputs|) ==> log == Trace(lib, c + 1, |outputs|, |inputs|)
    {
      var o := ReadOutput(c);
      var i := FeedInput(Cycle(c), false, c);
      stop := (o < 0 && i < 0) || o == EOF;
    }

    /** process, run on a fresh context as `main` does: init_graph, then cycles of drain and feed
        while the graph is initialized, until a cycle stops the loop; then one end-of-stream feed
        unless `failed` is set. The loop is given at most `fuel` cycles; when they run out the model
        stops there, before the final feed. */
    method Process(fuel: nat) returns (frameIndex: nat, exhausted: bool)
      requires lib.Valid() && Fresh()
      modifies this
      ensures var s := Setup(lib);
              && initialized == s.initialized && outputs == s.outputs && inputs == s.inputs
              && (!s.initialized ==> frameIndex == 0 && !exhausted)
              && (exhausted ==> frameIndex == fuel)
              && (forall c :: 0 <= c < frameIndex ==> !Stops(lib, c, |s.outputs|, |s.inputs|))
              && (s.initialized && !exhausted ==> Stops(lib, frameIndex, |s.outputs|, |s.inputs|))
      ensures var s := Setup(lib);
              var cycles := if s.initialized && !exhausted then frameIndex + 1 else frameIndex;
              && failed == (s.failed || ErrorIn(lib, cycles, |s.outputs|))
              && log == Trace(lib, cycles, |s.outputs|, |s.inputs|)
                        + (if failed || exhausted then []
                           else Feeds(lib, Final, true, frameIndex, Feed(lib, Final, |s.inputs|).reached))
    {
      if !initialized {
        var _ := InitGraph();
      }
      ghost var cycles;
      frameIndex, exhausted, cycles := Pump(fuel);
      if !failed && !exhausted {
        var _ := FeedInput(Final, true, frameIndex);
      }
    }

    /** The loop of `process`, cut off after `fuel` cycles: while the graph is initialized, run a
        cycle with the next frame index until one stops the loop. `cycles` counts the cycles run. */
    method Pump(fuel: nat) returns (frameIndex: nat, exhausted: bool, ghost cycles: nat)
      requires lib.Valid() && log == []
      modifies this`failed, this`log
      ensures !initialized ==> frameIndex == 0 && !exhausted
      ensures exhausted ==> frameIndex == fuel
      ensures cycles == if initialized && !exhausted then frameIndex + 1 else frameIndex
      ensures forall c :: 0 <= c < frameIndex ==> !Stops(lib, c, |outputs|, |inputs|)
      ensures initialized && !exhausted ==> Stops(lib, frameIndex, |outputs|, |inputs|)
      ensures failed == (old(failed) || ErrorIn(lib, cycles, |outputs|))
      ensures log == Trace(lib, cycles, |outputs|, |inputs|)
    {
      ghost var nOut, nIn := |outputs|, |inputs|;
      frameIndex, exhausted := 0, false;
      while initialized && frameIndex < fuel
        invariant frameIndex <= fuel && (!initialized ==> frameIndex == 0)
        invariant forall c :: 0 <= c < frameIndex ==> !Stops(lib, c, nOut, nIn)
        invariant failed == (old(failed) || ErrorIn(lib, frameIndex, nOut))
        invariant log == Trace(lib, frameIndex, nOut, nIn)
      {
        var stop := RunCycle(frameIndex);
        if stop {
          cycles := frameIndex + 1;
          return;
        }
        frameIndex := frameIndex + 1;
      }
      cycles, exhausted := frameIndex, initialized;
    }
  }

  // ---------------------------------------------------------------------------
  // Properties
  // ---------------------------------------------------------------------------

  /** init_graph binds every output before any input, and the graph is initialized only when every
      step succeeded, in which case every open pad has its endpoint and `failed` is clear. */
  lemma SetupOrder(lib: Library)
    requires lib.Valid()
    ensures var s := Setup(lib);
            && (|s.inputs| > 0 ==> lib.parse.Parsed? && |s.outputs| == |lib.parse.outputs|)
            && (s.initialized ==> && !s.failed && s.ret >= 0 && lib.parse.Parsed?
                                  && |s.outputs| == |lib.parse.outputs| && |s.inputs| == |lib.parse.inputs|)
  {
  }

  /** init_graph when the `o`-th output is the first whose binding fails. */
  lemma SetupStopsAtOutput(lib: Library, o: nat)
    requires lib.graphAllocated && lib.parse.Parsed? && o < |lib.parse.outputs|
    requires forall j :: 0 <= j < o ==> BindOutputStatus(lib, j, lib.parse.outputs[j]) >= 0
    requires BindOutputStatus(lib, o, lib.parse.outputs[o]) < 0
    ensures Setup(lib) == SetupState(BindOutputStatus(lib, o, lib.parse.outputs[o]), false, false,
                                     Sinks(lib.parse.outputs, o), [])
  {
    FirstFailureAt(OutputStatuses(lib, lib.parse.outputs), o);
  }

  /** init_graph when every output is bound and the `i`-th input is the first whose binding fails. */
  lemma SetupStopsAtInput(lib: Library, i: nat)
    requires lib.graphAllocated && lib.parse.Parsed? && i < |lib.parse.inputs|
    requires forall j :: 0 <= j < |lib.parse.outputs| ==> BindOutputStatus(lib, j, lib.parse.outputs[j]) >= 0
    requires forall j :: 0 <= j < i ==> BindInputStatus(lib, j, lib.parse.inputs[j]) >= 0
    requires BindInputStatus(lib, i, lib.parse.inputs[i]) < 0
    ensures Setup(lib) == SetupState(BindInputStatus(lib, i, lib.parse.inputs[i]), false, true,
                                     Sinks(lib.parse.outputs, |lib.parse.outputs|), Sources(lib.parse.inputs, i))
  {
    NoFailure(OutputStatuses(lib, lib.parse.outputs));
    FirstFailureAt(InputStatuses(lib, lib.parse.inputs), i);
  }

  /** init_graph when every output and every input is bound: the configuration decides. */
  lemma SetupReachesConfigure(lib: Library)
    requires lib.graphAllocated && lib.parse.Parsed?
    requires forall j :: 0 <= j < |lib.parse.outputs| ==> BindOutputStatus(lib, j, lib.parse.outputs[j]) >= 0
    requires forall j :: 0 <= j < |lib.parse.inputs| ==> BindInputStatus(lib, j, lib.parse.inputs[j]) >= 0
    ensures var c := lib.status(Configure);
            Setup(lib) == SetupState(c, c >= 0, c < 0, Sinks(lib.parse.outputs, |lib.parse.outputs|),
                                     Sources(lib.parse.inputs, |lib.parse.inputs|))
  {
    NoFailure(OutputStatuses(lib, lib.parse.outputs));
    NoFailure(InputStatuses(lib, lib.parse.inputs));
  }

  /** The step-by-step definition agrees with the `goto end` reading of init_graph: its status is
      that of the first step that fails (or of the last step); the graph is initialized exactly when
      no step fails; and `failed` is set exactly when the failing step is the parse, an input binding
      or the configuration, so neither a graph that cannot be allocated nor an output binding sets it. */
  lemma SetupReportsFirstFailure(lib: Library)
    requires lib.Valid()
    ensures var s, calls := Setup(lib), SetupCalls(lib);
            var f := FirstFailure(calls);
            && s.ret == RunSteps(calls)
            && (s.initialized <==> f == |calls|)
            && (s.failed <==> 0 < f < |calls| && !(lib.parse.Parsed? && 2 <= f < 2 + |lib.parse.outputs|))
  {
    var g := [if lib.graphAllocated then 0 else -1];
    match lib.parse
    case ParseFailed(code) =>
      RunStepsConcat(g, [code]);
    case Parsed(ins, outs) =>
      var oks, iks, c := OutputStatuses(lib, outs), InputStatuses(lib, ins), lib.status(Configure);
      ParsedSteps(oks, iks, c);
      RunStepsConcat(g, [0] + oks + iks + [c]);
  }

  /** The run of the steps after a successful parse: the output bindings, the input bindings and the
      configuration, in that order. */
  lemma ParsedSteps(oks: seq<int>, iks: seq<int>, c: int)
    ensures var steps, o, i := [0] + oks + iks + [c], FirstFailure(oks), FirstFailure(iks);
            && FirstFailure(steps) == (if o < |oks| then 1 + o else if i < |iks| then 1 + |oks| + i
                                       else if c < 0 then 1 + |oks| + |iks| else 2 + |oks| + |iks|)
            && RunSteps(steps) == (if o < |oks| then oks[o] else if i < |iks| then iks[i] else c)
  {
    RunStepsConcat([0], oks);
    RunStepsConcat([0] + oks, iks);
    RunStepsConcat([0] + oks + iks, [c]);
  }

  /** Every bound sink is linked to its output pad and matches that pad's type: "buffersink" for
      video, "abuffersink" for audio; every bound source likewise matches its input pad. */
  lemma BoundEndpointsMatchPads(lib: Library)
    requires lib.Valid()
    ensures var s := Setup(lib);
            && (forall k :: 0 <= k < |s.outputs| ==>
                  && lib.parse.Parsed? && s.outputs[k].pad == lib.parse.outputs[k]
                  && SinkKind(s.outputs[k].pad) != Other
                  && s.outputs[k].filter == (if SinkKind(s.outputs[k].pad) == Video then "buffersink" else "abuffersink"))
            && (forall k :: 0 <= k < |s.inputs| ==>
                  && lib.parse.Parsed? && s.inputs[k].pad == lib.parse.inputs[k]
                  && SourceKind(s.inputs[k].pad) != Other
                  && s.inputs[k].filter == (if SourceKind(s.inputs[k].pad) == Video then "buffer" else "abuffer"))
  {
    if lib.graphAllocated && lib.parse.Parsed? {
      BoundSinksMatchPads(lib);
      BoundSourcesMatchPads(lib);
    }
  }

  lemma BoundSinksMatchPads(lib: Library)
    requires lib.graphAllocated && lib.parse.Parsed?
    ensures var s, outs := Setup(lib), lib.parse.outputs;
            forall k :: 0 <= k < |s.outputs| ==> k < |outs| && s.outputs[k] == SinkFor(outs[k]) && SinkKind(outs[k]) != Other
  {
    var s, outs := Setup(lib), lib.parse.outputs;
    var oks := OutputStatuses(lib, outs);
    forall k | 0 <= k < |s.outputs|
      ensures k < |outs| && s.outputs[k] == SinkFor(outs[k]) && SinkKind(outs[k]) != Other
    {
      SinksAt(outs, |s.outputs|, k);
      assert oks[k] >= 0;
    }
  }

  lemma BoundSourcesMatchPads(lib: Library)
    requires lib.graphAllocated && lib.parse.Parsed?
    ensures var s, ins := Setup(lib), lib.parse.inputs;
            forall k :: 0 <= k < |s.inputs| ==> k < |ins| && s.inputs[k] == SourceFor(ins[k]) && SourceKind(ins[k]) != Other
  {
    var s, ins := Setup(lib), lib.parse.inputs;
    var iks := InputStatuses(lib, ins);
    forall k | 0 <= k < |s.inputs|
      ensures k < |ins| && s.inputs[k] == SourceFor(ins[k]) && SourceKind(ins[k]) != Other
    {
      SourcesAt(ins, |s.inputs|, k);
      assert iks[k] >= 0;
    }
  }

  lemma {:induction false} SinksAt(outs: seq<InOut>, n: nat, k: nat)
    requires k < n <= |outs|
    ensures Sinks(outs, n)[k] == SinkFor(outs[k])
    decreases n
  {
    if k < n - 1 {
      SinksAt(outs, n - 1, k);
    }
  }

  lemma {:induction false} SourcesAt(ins: seq<InOut>, n: nat, k: nat)
    requires k < n <= |ins|
    ensures Sources(ins, n)[k] == SourceFor(ins[k])
    decreases n
  {
    if k < n - 1 {
      SourcesAt(ins, n - 1, k);
    }
  }

  /** The discrepancy at line 180: for a node whose one input pad is audio and whose one output pad
      is video (an audio visualisation filter), the type read for the sink is audio, so an audio
      sink would be attached to a video output; the output pad's own type asks for "buffersink". */
  lemma SinkKindAsWrittenMismatch()
    ensures var out := InOut(Node([Audio], [Video]), 0);
            && SinkKindAsWritten(out) == Audio && SinkFilter(SinkKindAsWritten(out)) == "abuffersink"
            && SinkKind(out) == Video && SinkFor(out).filter == "buffersink"
  {
  }

  /** As written, binding an output agrees with the corrected binding when the two pad tables give
      the same type at the pad's index, and fails whenever they differ. */
  lemma BindOutputAsWrittenVersusCorrected(lib: Library, k: nat, output: InOut)
    ensures SinkKindAsWritten(output) == SinkKind(output) ==>
            BindOutputStatusAsWritten(lib, k, output) == BindOutputStatus(lib, k, output)
    ensures SinkKindAsWritten(output) != SinkKind(output) ==> BindOutputStatusAsWritten(lib, k, output) < 0
  {
  }

  /** As written, the output bindings stop at the first open output whose two pad tables disagree,
      with AVERROR(EINVAL), when every earlier one agrees and succeeds. */
  lemma AsWrittenOutputsStopAt(lib: Library, outs: seq<InOut>, o: nat)
    requires o < |outs|
    requires forall j :: 0 <= j < o ==>
               SinkKindAsWritten(outs[j]) == SinkKind(outs[j]) && BindOutputStatus(lib, j, outs[j]) >= 0
    requires SinkKindAsWritten(outs[o]) != SinkKind(outs[o]) && lib.status(SinkCreate(o)) >= 0
    ensures var w := OutputStatusesAsWritten(lib, outs);
            FirstFailure(w) == o && RunSteps(w) == EINVAL
  {
    var w := OutputStatusesAsWritten(lib, outs);
    forall j | 0 <= j < o
      ensures w[j] >= 0
    {
      BindOutputAsWrittenVersusCorrected(lib, j, outs[j]);
    }
    FirstFailureAt(w, o);
  }

  /** When the first `o` + 1 output bindings succeed, setup keeps at least `o` + 1 sinks. */
  lemma OutputsBoundPast(lib: Library, o: nat)
    requires lib.graphAllocated && lib.parse.Parsed? && o < |lib.parse.outputs|
    requires forall j :: 0 <= j <= o ==> BindOutputStatus(lib, j, lib.parse.outputs[j]) >= 0
    ensures |Setup(lib).outputs| > o
  {
    var oks := OutputStatuses(lib, lib.parse.outputs);
    assert o < FirstFailure(oks);
  }

  /** The discrepancy at line 180 in init_graph: when the `o`-th open output is the first whose two
      pad tables disagree, and the library accepts every sink up to it, init_graph as written stops
      there with AVERROR(EINVAL), while the corrected driver binds that output's sink. */
  lemma AsWrittenRefusesMismatchedOutput(lib: Library, o: nat)
    requires lib.graphAllocated && lib.parse.Parsed? && o < |lib.parse.outputs|
    requires forall j :: 0 <= j <= o ==>
               SinkKind(lib.parse.outputs[j]) != Other
               && lib.status(SinkCreate(j)) >= 0 && lib.status(SinkLink(j)) >= 0
    requires forall j :: 0 <= j < o ==> SinkKindAsWritten(lib.parse.outputs[j]) == SinkKind(lib.parse.outputs[j])
    requires SinkKindAsWritten(lib.parse.outputs[o]) != SinkKind(lib.parse.outputs[o])
    ensures var w := OutputStatusesAsWritten(lib, lib.parse.outputs);
            FirstFailure(w) == o && RunSteps(w) == EINVAL
    ensures |Setup(lib).outputs| > o && Setup(lib).outputs[o] == SinkFor(lib.parse.outputs[o])
  {
    var outs := lib.parse.outputs;
    assert forall j :: 0 <= j <= o ==> BindOutputStatus(lib, j, outs[j]) >= 0;
    AsWrittenOutputsStopAt(lib, outs, o);
    OutputsBoundPast(lib, o);
    BoundSinksMatchPads(lib);
  }

  /** The drain status is that of the last output alone: an EOF from an earlier output is lost
      when the last one has a frame or nothing yet, so the loop does not stop on it. */
  lemma EarlierEofIsOverwritten(lib: Library, c: nat, n: nat, j: nat)
    requires j < n - 1 && lib.sink(c, j) == EOF
    requires lib.sink(c, n - 1) >= 0 || lib.sink(c, n - 1) == EAGAIN
    ensures DrainStatus(lib, c, n) >= 0
    ensures forall nIn :: Feed(lib, Cycle(c), nIn).status >= 0 ==> !Stops(lib, c, n, nIn)
  {
  }

  /** Once a push has failed, feed_input makes no further push. */
  lemma {:induction false} FeedStops(lib: Library, phase: Phase, k: nat, n: nat)
    requires k <= n && Feed(lib, phase, k).status < 0
    ensures Feed(lib, phase, n) == Feed(lib, phase, k)
    decreases n
  {
    if k < n {
      FeedStops(lib, phase, k, n - 1);
    }
  }

  /** While no push fails, feed_input reaches every input and reports the last push. */
  lemma {:induction false} FeedWithoutFailure(lib: Library, phase: Phase, n: nat)
    requires forall j :: 0 <= j < n ==> lib.push(phase, j) >= 0
    ensures Feed(lib, phase, n) == FeedResult(n, if n == 0 then 0 else lib.push(phase, n - 1))
  {
    if n > 0 {
      FeedWithoutFailure(lib, phase, n - 1);
    }
  }

  /** The loop of feed_input agrees with the `return` reading of its body: its status is that of
      the first failing push (or of the last push), and it reaches the inputs up to and including
      that push, and no further. */
  lemma FeedReportsFirstFailure(lib: Library, phase: Phase, n: nat)
    ensures var pushes := Pushes(lib, phase, n);
            var f := FirstFailure(pushes);
            && Feed(lib, phase, n).status == RunSteps(pushes)
            && Feed(lib, phase, n).reached == (if f < n then f + 1 else n)
  {
    var pushes := Pushes(lib, phase, n);
    var f := FirstFailure(pushes);
    if f < n {
      FeedFailsAt(lib, phase, n, f);
      FirstFailureAt(pushes, f);
    } else {
      FeedWithoutFailure(lib, phase, n);
      NoFailure(pushes);
    }
  }

  /** When the push to input `f` is the first that fails, feed_input stops there with its status. */
  lemma FeedFailsAt(lib: Library, phase: Phase, n: nat, f: nat)
    requires f < n && lib.push(phase, f) < 0
    requires forall j :: 0 <= j < f ==> lib.push(phase, j) >= 0
    ensures Feed(lib, phase, n) == FeedResult(f + 1, lib.push(phase, f))
  {
    FeedWithoutFailure(lib, phase, f);
    FeedStops(lib, phase, f + 1, n);
  }

  /** The end-of-stream feed pushes NULL to every input it reaches, and no pull follows it. */
  lemma {:induction false} FinalFeedPushesNull(lib: Library, frameIndex: int, n: nat)
    ensures forall e :: e in Feeds(lib, Final, true, frameIndex, n) ==> e.phase == Final && e.act.Fed? && e.act.frame == None
  {
    if n > 0 {
      FinalFeedPushesNull(lib, frameIndex, n - 1);
    }
  }

  /** From cycle FRAME_COUNT on, get_dummy_frame yields no frame, so every push is NULL. */
  lemma {:induction false} NoFramesAfterCount(lib: Library, c: nat, n: nat)
    requires c >= FrameCount
    ensures forall e :: e in Feeds(lib, Cycle(c), false, c, n) ==> e.act.Fed? && e.act.frame == None
  {
    if n > 0 {
      NoFramesAfterCount(lib, c, n - 1);
    }
  }

  /** Before FRAME_COUNT, the frame pushed to input `i` is the synthetic picture with value `i`
      whenever its allocation succeeds. */
  lemma {:induction false} FramesBeforeCount(lib: Library, c: nat, n: nat, i: nat)
    requires c < FrameCount && i < n && lib.frames(Cycle(c), i).Buffer?
    ensures Feeds(lib, Cycle(c), false, c, n)[i].act == Fed(i, lib.requests(Cycle(c), i) > 0, Some(Yuv.Dummy(c, i)), lib.push(Cycle(c), i))
    decreases n
  {
    if i < n - 1 {
      FramesBeforeCount(lib, c, n - 1, i);
    }
  }

  /** Every event of the first `n` cycles belongs to one of those cycles, so the pump's record is
      its cycles in order followed only by the end-of-stream pushes. */
  lemma {:induction false} TraceIsCycles(lib: Library, n: nat, nOut: nat, nIn: nat)
    ensures forall e :: e in Trace(lib, n, nOut, nIn) ==> e.phase.Cycle? && e.phase.n < n
  {
    if n > 0 {
      TraceIsCycles(lib, n - 1, nOut, nIn);
      CycleEventsInCycle(lib, n - 1, nOut, nIn);
    }
  }

  lemma CycleEventsInCycle(lib: Library, c: nat, nOut: nat, nIn: nat)
    ensures forall e :: e in CycleEvents(lib, c, nOut, nIn) ==> e.phase == Cycle(c)
  {
    DrainsInCycle(lib, c, nOut);
    FeedsInPhase(lib, Cycle(c), false, c, Feed(lib, Cycle(c), nIn).reached);
  }

  lemma {:induction false} DrainsInCycle(lib: Library, c: nat, n: nat)
    ensures forall e :: e in Drains(lib, c, n) ==> e.phase == Cycle(c) && e.act.Pulled?
  {
    if n > 0 {
      DrainsInCycle(lib, c, n - 1);
    }
  }

  lemma {:induction false} FeedsInPhase(lib: Library, phase: Phase, eof: bool, frameIndex: int, n: nat)
    ensures forall e :: e in Feeds(lib, phase, eof, frameIndex, n) ==> e.phase == phase && e.act.Fed?
  {
    if n > 0 {
      FeedsInPhase(lib, phase, eof, frameIndex, n - 1);
    }
  }

  /** When init_graph fails the final feed reaches no source: either `failed` is set, or no input
      was bound. */
  lemma UninitializedFeedsNothing(lib: Library)
    requires lib.Valid() && !Setup(lib).initialized
    ensures Setup(lib).failed || Setup(lib).inputs == []
  {
  }
}
