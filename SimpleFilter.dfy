/**
 * The single-graph programs c/ffav/simple_video_filter.c and
 * c/ffav/simple_audio_filter.c: building the chain (init_filters), pushing one
 * frame through it and draining what comes out (apply_filters), and the
 * channel layout written by the audio program's fill_samples.
 *
 * libavfilter is seen only through its answers. The buffer sink holds a
 * finite queue of filtered frames and, once that queue is empty, reports a
 * fixed negative status (EAGAIN while more input is needed, EOF once the
 * chain is finished, or an error). Frames are identified by number; their
 * pixels and samples are not part of this module.
 */
module SimpleFilter {
  import opened Averror
  import opened Wrappers

  type FrameId = nat

  // ---------------------------------------------------------------------------
  // init_filters
  // ---------------------------------------------------------------------------

  /** What libavfilter answers while the chain is built: whether the two in/out lists and the
      graph could be allocated, and the status of each later call. */
  datatype InitAnswers = InitAnswers(
    listsAllocated: bool,  // avfilter_inout_alloc, twice
    graphAllocated: bool,  // avfilter_graph_alloc
    createSource: int,     // avfilter_graph_create_filter for "buffer" / "abuffer"
    createSink: int,       // avfilter_graph_create_filter for "buffersink" / "abuffersink"
    setFormats: int,       // av_opt_set_int_list on the sink (video only)
    parse: int,            // avfilter_graph_parse_ptr
    configure: int)        // avfilter_graph_config

  /** The calls init_filters makes once allocation has succeeded, in order; the video program
      restricts the sink's pixel formats, the audio program has that call commented out. */
  function InitCalls(a: InitAnswers, video: bool): (calls: seq<int>)
    ensures |calls| == if video then 5 else 4
    ensures calls[0] == a.createSource && calls[|calls| - 1] == a.configure
  {
    [a.createSource, a.createSink] + (if video then [a.setFormats] else []) + [a.parse, a.configure]
  }

  /** init_filters as written: when an allocation fails it jumps to the end with `ret` still 0. */
  function InitFiltersAsWritten(a: InitAnswers, video: bool): (ret: int)
    ensures a.listsAllocated && a.graphAllocated ==> ret == RunSteps(InitCalls(a, video))
  {
    if !a.listsAllocated || !a.graphAllocated then 0
    else RunSteps(InitCalls(a, video))
  }

  /** The discrepancy: a failure to allocate the in/out lists or the graph is reported as
      success, so `main` goes on to apply_filters with no source or sink. */
  lemma InitFiltersAllocationFailureIsSuccess(a: InitAnswers, video: bool)
    requires !a.listsAllocated || !a.graphAllocated
    ensures InitFiltersAsWritten(a, video) == 0
  {
  }

  /** init_filters with an allocation failure reported as AVERROR(ENOMEM). */
  function InitFilters(a: InitAnswers, video: bool): (ret: int)
    ensures !a.listsAllocated || !a.graphAllocated ==> ret == ENOMEM
  {
    if !a.listsAllocated || !a.graphAllocated then ENOMEM
    else RunSteps(InitCalls(a, video))
  }

  /** The chain is reported built exactly when every allocation and every call succeeded,
      and a failing call's own status is what is reported. */
  lemma InitFiltersFailsIffStepFails(a: InitAnswers, video: bool)
    ensures InitFilters(a, video) < 0 <==>
      !a.listsAllocated || !a.graphAllocated
      || a.createSource < 0 || a.createSink < 0 || (video && a.setFormats < 0)
      || a.parse < 0 || a.configure < 0
    ensures a.listsAllocated && a.graphAllocated && a.createSource < 0 ==> InitFilters(a, video) == a.createSource
  {
    var calls := InitCalls(a, video);
    if a.listsAllocated && a.graphAllocated {
      if video {
        assert calls == [a.createSource, a.createSink, a.setFormats, a.parse, a.configure];
        assert calls[2] == a.setFormats && calls[3] == a.parse && calls[4] == a.configure;
      } else {
        assert calls == [a.createSource, a.createSink, a.parse, a.configure];
        assert calls[2] == a.parse && calls[3] == a.configure;
      }
      assert calls[1] == a.createSink;
    }
  }

  // ---------------------------------------------------------------------------
  // apply_filters
  // ---------------------------------------------------------------------------

  /** A status the sink reports once it has no frame: EAGAIN and EOF are not errors. */
  function Quiet(status: int): (ret: int)
    ensures ret != EAGAIN && ret != EOF
    ensures ret == 0 || ret == status
  {
    if status == EAGAIN || status == EOF then 0 else status
  }

  /** The outcome of a drain: the status returned, the frame the caller holds (None: a blank
      frame), how many frames were taken from the sink and how many av_frame_alloc calls were made
      in all. */
  datatype Drained = Drained(ret: int, held: Option<FrameId>, taken: nat, allocs: nat)

  /** The drain loop from the `a`-th frame allocation on, with `ready` queued in the sink and the
      caller holding `held`: allocate a shell frame (stop with ENOMEM if that fails), ask the sink,
      and either move the frame it gives into the caller's frame or stop. */
  function Drain(ready: seq<FrameId>, whenEmpty: int, allocOk: nat -> bool, a: nat, held: Option<FrameId>): (d: Drained)
    ensures d.taken <= |ready| && d.allocs == a + d.taken + 1
    ensures d.taken == 0 ==> d.held == held
    ensures d.taken > 0 ==> d.held == Some(ready[d.taken - 1])
    ensures d.ret == ENOMEM || d.ret == Quiet(whenEmpty)
    ensures d.taken < |ready| ==> d.ret == ENOMEM
    decreases |ready|
  {
    if !allocOk(a) then Drained(ENOMEM, held, 0, a + 1)
    else if ready == [] then Drained(Quiet(whenEmpty), held, 0, a + 1)
    else
      var d := Drain(ready[1..], whenEmpty, allocOk, a + 1, Some(ready[0]));
      d.(taken := d.taken + 1)
  }

  /** A drain that started `t` frames earlier. */
  function Later(d: Drained, t: nat): Drained {
    d.(taken := d.taken + t)
  }

  /** When every shell frame can be allocated, the sink is emptied, the caller ends up holding the
      last frame it delivered, and the status is 0 unless the sink reports an error. */
  lemma {:induction false} DrainEmptiesSink(ready: seq<FrameId>, whenEmpty: int, allocOk: nat -> bool, a: nat, held: Option<FrameId>)
    requires forall k :: a <= k <= a + |ready| ==> allocOk(k)
    ensures var d := Drain(ready, whenEmpty, allocOk, a, held);
            && d.taken == |ready|
            && d.ret == Quiet(whenEmpty)
            && d.held == if ready == [] then held else Some(ready[|ready| - 1])
  {
    if ready != [] {
      DrainEmptiesSink(ready[1..], whenEmpty, allocOk, a + 1, Some(ready[0]));
    }
  }

  /** A failing shell-frame allocation stops the drain with ENOMEM, and exactly the frames
      delivered before it reach the caller. */
  lemma {:induction false} DrainStopsAtAllocFailure(ready: seq<FrameId>, whenEmpty: int, allocOk: nat -> bool, a: nat, held: Option<FrameId>, n: nat)
    requires n <= |ready| && !allocOk(a + n)
    requires forall k :: a <= k < a + n ==> allocOk(k)
    ensures var d := Drain(ready, whenEmpty, allocOk, a, held);
            d.ret == ENOMEM && d.taken == n
  {
    if n > 0 {
      DrainStopsAtAllocFailure(ready[1..], whenEmpty, allocOk, a + 1, Some(ready[0]), n - 1);
    }
  }

  /** The caller's AVFrame: the frame it references, or None once it has been reset to a blank
      frame; apply_filters hands it to the source and replaces what it references. */
  class FrameRef {
    var frame: Option<FrameId>

    constructor (f: FrameId)
      ensures frame == Some(f)
    {
      frame := Some(f);
    }
  }

  /** The chain as apply_filters sees it through buffersrc_ctx and buffersink_ctx. */
  class Chain {
    /** Frames the source has accepted (None: a blank frame). */
    var fed: seq<Option<FrameId>>
    /** Frames the sink will deliver, first to last. */
    var ready: seq<FrameId>
    /** What av_buffersink_get_frame returns once `ready` is empty. */
    const whenEmpty: int
    /** What av_buffersrc_add_frame_flags returns. */
    const feedResult: int
    /** Whether the k-th av_frame_alloc succeeds, and how many have been made. */
    const allocOk: nat -> bool
    var allocs: nat

    predicate Valid()
      reads this
    {
      whenEmpty < 0
    }

    constructor (ready: seq<FrameId>, whenEmpty: int, feedResult: int, allocOk: nat -> bool)
      requires whenEmpty < 0
      ensures Valid()
      ensures this.ready == ready && this.whenEmpty == whenEmpty && this.feedResult == feedResult
      ensures this.allocOk == allocOk && fed == [] && allocs == 0
    {
      this.ready, this.whenEmpty, this.feedResult, this.allocOk := ready, whenEmpty, feedResult, allocOk;
      fed, allocs := [], 0;
    }

    /** av_frame_alloc: whether a shell frame could be allocated. */
    method AllocFrame() returns (ok: bool)
      modifies this`allocs
      ensures ok == allocOk(old(allocs)) && allocs == old(allocs) + 1
    {
      ok := allocOk(allocs);
      allocs := allocs + 1;
    }

    /** av_buffersink_get_frame: the next queued frame with status 0, or the empty-sink status. */
    method GetFrame() returns (ret: int, f: FrameId)
      requires Valid()
      modifies this`ready
      ensures old(ready) == [] ==> ret == whenEmpty && ready == []
      ensures old(ready) != [] ==> ret == 0 && f == old(ready)[0] && ready == old(ready)[1..]
    {
      if ready == [] {
        ret, f := whenEmpty, 0;
      } else {
        ret, f := 0, ready[0];
        ready := ready[1..];
      }
    }

    /** apply_filters: push the caller's frame into the source; if that fails, return its status
        without touching the sink; otherwise the source has taken the caller's reference, leaving
        it a blank frame, and the sink is drained into it. */
    method ApplyFilters(frame: FrameRef) returns (ret: int)
      requires Valid()
      modifies this, frame
      ensures Valid()
      ensures feedResult < 0 ==>
        ret == feedResult && fed == old(fed) && ready == old(ready) && allocs == old(allocs)
        && frame.frame == old(frame.frame)
      ensures feedResult >= 0 ==>
        var d := Drain(old(ready), whenEmpty, allocOk, old(allocs), None);
        && fed == old(fed) + [old(frame.frame)]
        && ret == d.ret && frame.frame == d.held
        && ready == old(ready)[d.taken..] && allocs == d.allocs
    {
      ret := feedResult;
      if ret < 0 {
        return;
      }
      fed := fed + [frame.frame];
      frame.frame := None;
      ret := DrainInto(frame);
    }

    /** The drain loop of apply_filters: allocate a shell frame, ask the sink, move what it gives
        into the caller's frame, until an allocation fails or the sink has nothing. */
    method DrainInto(frame: FrameRef) returns (ret: int)
      requires Valid()
      modifies this`ready, this`allocs, frame
      ensures var d := Drain(old(ready), whenEmpty, allocOk, old(allocs), old(frame.frame));
              && ret == d.ret && frame.frame == d.held
              && ready == old(ready)[d.taken..] && allocs == d.allocs
    {
      ret := 0;
      ghost var ready0, held0, allocs0 := ready, frame.frame, allocs;
      ghost var d0 := Drain(ready0, whenEmpty, allocOk, allocs0, held0);
      ghost var taken := 0;
      var done := false;
      while !done
        invariant taken <= |ready0| && ready == ready0[taken..] && allocs == allocs0 + taken + (if done then 1 else 0)
        invariant !done ==> d0 == Later(Drain(ready, whenEmpty, allocOk, allocs, frame.frame), taken)
        invariant done ==> ret == d0.ret && frame.frame == d0.held && taken == d0.taken && allocs == d0.allocs
        decreases |ready|, if done then 0 else 1
      {
        ret, done := DrainOnce(frame);
        if !done {
          assert ready0[taken..][1..] == ready0[taken + 1..];
          taken := taken + 1;
        }
      }
    }

    /** One pass of the drain loop: allocate a shell frame and ask the sink; `done` when the
        allocation failed or the sink gave no frame, and otherwise the frame it gave is the caller's. */
    method DrainOnce(frame: FrameRef) returns (ret: int, done: bool)
      requires Valid()
      modifies this`ready, this`allocs, frame
      ensures var d := Drain(old(ready), whenEmpty, allocOk, old(allocs), old(frame.frame));
              if done then d == Drained(ret, old(frame.frame), 0, old(allocs) + 1)
                           && ready == old(ready) && allocs == old(allocs) + 1 && frame.frame == old(frame.frame)
              else && old(ready) != [] && ready == old(ready)[1..] && allocs == old(allocs) + 1
                   && d == Later(Drain(ready, whenEmpty, allocOk, allocs, frame.frame), 1)
    {
      var ok := AllocFrame();
      if !ok {
        return ENOMEM, true;
      }
      var status, f := GetFrame();
      if status < 0 {
        return Quiet(status), true;
      }
      frame.frame := Some(f);
      return status, false;
    }
  }

  // ---------------------------------------------------------------------------
  // fill_samples (c/ffav/simple_audio_filter.c)
  // ---------------------------------------------------------------------------

  /** The number of outer passes over the buffer. */
  const Passes: nat := 200

  /** How many consecutive slots sample `j` fills from index `2 * j`: the first channel and
      one copy for each of channels 1 .. nbChannels - 1. */
  function Span(nbChannels: int): (n: nat)
    ensures n >= 1 && (nbChannels >= 1 ==> n == nbChannels)
  {
    if nbChannels > 1 then nbChannels else 1
  }

  /** Sample `j` writes index `idx`. */
  predicate Covers(j: int, idx: int, nbChannels: int) {
    2 * j <= idx < 2 * j + Span(nbChannels)
  }

  /** The last of samples 0 .. n - 1 whose writes cover `idx`, or -1 when none does. */
  function Writer(idx: nat, n: nat, nbChannels: int): (j: int)
    ensures -1 <= j < n
    ensures j >= 0 ==> Covers(j, idx, nbChannels)
    ensures forall k :: j < k < n ==> !Covers(k, idx, nbChannels)
  {
    if n == 0 then -1
    else
      var j := if idx / 2 < n then idx / 2 else n - 1;
      if idx < 2 * j + Span(nbChannels) then j else -1
  }

  /** The buffer after a pass over `nb` samples: every index some sample covers holds the value of
      the last sample that covers it (tick `pass * nb + j` of the waveform); the others keep theirs. */
  function Filled(s: seq<bv16>, nb: nat, nbChannels: int, wave: nat -> bv16, pass: nat): (r: seq<bv16>)
    ensures |r| == |s|
  {
    seq(|s|, idx requires 0 <= idx < |s| =>
      var j := Writer(idx, nb, nbChannels);
      if j >= 0 then wave(pass * nb + j) else s[idx])
  }

  /** Adding sample `j` to the samples already written. */
  lemma WriterStep(idx: nat, j: nat, nbChannels: int)
    ensures Writer(idx, j + 1, nbChannels) == if Covers(j, idx, nbChannels) then j else Writer(idx, j, nbChannels)
  {
  }

  /** fill_samples: 200 passes; in each, sample `j` (one waveform tick, its value abstracted as
      `wave(tick)`) goes to index `2 * j` and is copied to the next nbChannels - 1 indices. */
  method FillSamples(samples: array<bv16>, nbSamples: nat, nbChannels: int, wave: nat -> bv16)
    requires nbSamples == 0 || 2 * (nbSamples - 1) + Span(nbChannels) <= samples.Length
    modifies samples
    ensures samples[..] == Filled(old(samples[..]), nbSamples, nbChannels, wave, Passes - 1)
  {
    ghost var s0 := samples[..];
    var t: nat := 0;
    for i := 0 to Passes
      invariant t == i * nbSamples
      invariant i > 0 ==> samples[..] == Filled(s0, nbSamples, nbChannels, wave, i - 1)
      invariant i == 0 ==> samples[..] == s0
    {
      ghost var start := samples[..];
      t := FillPass(samples, nbSamples, nbChannels, wave, t);
      forall idx | 0 <= idx < samples.Length
        ensures samples[idx] == Filled(s0, nbSamples, nbChannels, wave, i)[idx]
      {
      }
    }
  }

  /** One pass of the outer loop, starting at waveform tick `t0`; returns the tick after it. */
  method FillPass(samples: array<bv16>, nb: nat, nbChannels: int, wave: nat -> bv16, t0: nat) returns (t: nat)
    requires nb == 0 || 2 * (nb - 1) + Span(nbChannels) <= samples.Length
    modifies samples
    ensures t == t0 + nb
    ensures forall idx :: 0 <= idx < samples.Length ==>
      samples[idx] == (if Writer(idx, nb, nbChannels) >= 0 then wave(t0 + Writer(idx, nb, nbChannels)) else old(samples[idx]))
  {
    t := t0;
    for j := 0 to nb
      invariant t == t0 + j
      invariant forall idx :: 0 <= idx < samples.Length ==>
        samples[idx] == (if Writer(idx, j, nbChannels) >= 0 then wave(t0 + Writer(idx, j, nbChannels)) else old(samples[idx]))
    {
      WriteSample(samples, j, nbChannels, wave(t));
      forall idx | 0 <= idx < samples.Length
        ensures samples[idx] == (if Writer(idx, j + 1, nbChannels) >= 0 then wave(t0 + Writer(idx, j + 1, nbChannels)) else old(samples[idx]))
      {
        WriterStep(idx, j, nbChannels);
      }
      t := t + 1;
    }
  }

  /** The body of the inner loops: `v` to index `2 * j`, then copied to the next nbChannels - 1. */
  method WriteSample(samples: array<bv16>, j: nat, nbChannels: int, v: bv16)
    requires 2 * j + Span(nbChannels) <= samples.Length
    modifies samples
    ensures forall idx :: 0 <= idx < samples.Length ==>
      samples[idx] == if Covers(j, idx, nbChannels) then v else old(samples[idx])
  {
    samples[2 * j] := v;
    var k := 1;
    while k < nbChannels
      invariant 1 <= k <= Span(nbChannels)
      invariant forall idx :: 0 <= idx < samples.Length ==>
        samples[idx] == (if 2 * j <= idx < 2 * j + k then v else old(samples[idx]))
    {
      samples[2 * j + k] := samples[2 * j];
      k := k + 1;
    }
  }

  /** For the stereo layout the program uses: indices 0 .. 2 * nbSamples - 1 hold the last pass's
      samples, each odd index equal to the even index before it, and nothing beyond is written. */
  lemma StereoLayout(s: seq<bv16>, nb: nat, wave: nat -> bv16, pass: nat, idx: nat)
    requires 2 * nb <= |s| && idx < |s|
    ensures var r := Filled(s, nb, 2, wave, pass);
            && (idx < 2 * nb ==> r[idx] == wave(pass * nb + idx / 2))
            && (idx >= 2 * nb ==> r[idx] == s[idx])
            && (idx < 2 * nb && idx % 2 == 1 ==> r[idx] == r[idx - 1])
  {
    if idx < 2 * nb {
      assert Writer(idx, nb, 2) == idx / 2;
      if idx % 2 == 1 {
        assert Writer(idx - 1, nb, 2) == idx / 2;
      }
    }
  }
}
