/**
 * Stream remapping and the packet pump of c/ffav/save_livestream.c, which
 * remuxes two live inputs into one output.
 *
 * create_streams gives every audio, video or subtitle stream of an input the
 * next output stream index (the global counter `stream_index`) and marks the
 * others -1 in the global array `stream_mapping`; remux_pkt reads one packet,
 * drops it when its stream is not mapped and otherwise rewrites its stream
 * index and position before handing it to the muxer; `main` alternates the
 * two inputs until a read or write fails or 302 passes have been made.
 *
 * libavformat is seen only through its answers: each input stream says
 * whether an output stream could be created for it and what copying its
 * codec parameters returned, each input gives a sequence of read results,
 * and the muxer a sequence of write results.
 */
module Livestream {
  import opened Averror
  import opened Wrappers

  datatype MediaType = Video | Audio | Subtitle | Data | Attachment | Unknown

  /** The stream kinds the program copies to the output. */
  predicate Copied(t: MediaType) {
    t == Audio || t == Video || t == Subtitle
  }

  /** An input stream, with what libavformat answers when it is copied: whether
      avformat_new_stream succeeds, and the status of avcodec_parameters_copy. */
  datatype InputStream = InputStream(codecType: MediaType, outputCreated: bool, copyResult: int)

  /** A copied stream whose output could not be set up. */
  predicate Fails(s: InputStream) {
    Copied(s.codecType) && (!s.outputCreated || s.copyResult < 0)
  }

  /** The status create_streams returns for a stream that fails. */
  function FailCode(s: InputStream): (code: int)
    requires Fails(s)
    ensures code < 0
  {
    if !s.outputCreated then UNKNOWN else s.copyResult
  }

  // ---------------------------------------------------------------------------
  // create_streams
  // ---------------------------------------------------------------------------

  /** How many of the first `i` streams are copied. */
  function CopiedCount(streams: seq<InputStream>, i: nat): (n: nat)
    requires i <= |streams|
    ensures n <= i
  {
    if i == 0 then 0
    else CopiedCount(streams, i - 1) + (if Copied(streams[i - 1].codecType) then 1 else 0)
  }

  /** The index of the first stream that fails, or the number of streams when none does. */
  function FirstFail(streams: seq<InputStream>): (k: nat)
    ensures k <= |streams|
    ensures forall i :: 0 <= i < k ==> !Fails(streams[i])
    ensures k < |streams| ==> Fails(streams[k])
  {
    if streams == [] then 0
    else if Fails(streams[0]) then 0
    else 1 + FirstFail(streams[1..])
  }

  /** How many of the first `k` streams get an entry: up to and including the first that fails. */
  function Done(streams: seq<InputStream>, k: nat): (n: nat)
    requires k <= |streams|
    ensures n <= k
  {
    if FirstFail(streams) < k then FirstFail(streams) + 1 else k
  }

  /** The entry stream `i` gets when the counter started at `next0`: the next output index
      for a copied stream, -1 for any other. */
  function Assigned(streams: seq<InputStream>, i: nat, next0: int): int
    requires i < |streams|
  {
    if Copied(streams[i].codecType) then next0 + CopiedCount(streams, i) else -1
  }

  /** The status, mapping and counter after a run of create_streams. */
  datatype MapResult = MapResult(ret: int, mapping: seq<int>, next: int)

  /** The first `k` iterations of the create_streams loop over `streams`, whose entries start at
      `base` of the mapping `m`, with the counter at `next0`. The loop returns at the first
      stream that fails. */
  function MapPrefix(m: seq<int>, base: nat, streams: seq<InputStream>, k: nat, next0: int): (r: MapResult)
    requires k <= |streams| && base + |streams| <= |m|
    ensures |r.mapping| == |m|
    ensures r.ret < 0 <==> FirstFail(streams) < k
    ensures r.ret < 0 ==> r.ret == FailCode(streams[FirstFail(streams)])
    ensures r.next == next0 + CopiedCount(streams, Done(streams, k))
    ensures forall i :: 0 <= i < |m| && !(base <= i < base + Done(streams, k)) ==> r.mapping[i] == m[i]
    ensures forall i :: 0 <= i < Done(streams, k) ==> r.mapping[base + i] == Assigned(streams, i, next0)
  {
    if k == 0 then MapResult(0, m, next0)
    else
      var p := MapPrefix(m, base, streams, k - 1, next0);
      var s := streams[k - 1];
      if p.ret < 0 then p
      else if !Copied(s.codecType) then p.(mapping := p.mapping[base + k - 1 := -1])
      else
        var mapped := p.mapping[base + k - 1 := p.next];
        if !s.outputCreated then MapResult(UNKNOWN, mapped, p.next + 1)
        else MapResult(s.copyResult, mapped, p.next + 1)
  }

  /** Once a stream has failed, the loop makes no further change. */
  lemma {:induction false} MapPrefixStops(m: seq<int>, base: nat, streams: seq<InputStream>, k: nat, k': nat, next0: int)
    requires k <= k' <= |streams| && base + |streams| <= |m|
    requires MapPrefix(m, base, streams, k, next0).ret < 0
    ensures MapPrefix(m, base, streams, k', next0) == MapPrefix(m, base, streams, k, next0)
    decreases k'
  {
    if k < k' {
      MapPrefixStops(m, base, streams, k, k' - 1, next0);
    }
  }

  /** The copied-stream count grows with the prefix. */
  lemma {:induction false} CopiedCountMonotone(streams: seq<InputStream>, i: nat, j: nat)
    requires i <= j <= |streams|
    ensures CopiedCount(streams, i) <= CopiedCount(streams, j)
    ensures i < j && Copied(streams[i].codecType) ==> CopiedCount(streams, i) < CopiedCount(streams, j)
    decreases j
  {
    if i < j {
      CopiedCountMonotone(streams, i, j - 1);
      if i == j - 1 {
      }
    }
  }

  /** Copied streams get distinct, increasing output indices, all between the counter's value
      before the call and its value after, and no index is skipped. */
  lemma ConsecutiveIndices(streams: seq<InputStream>, next0: int, i: nat, j: nat)
    requires i < j < |streams|
    requires Copied(streams[i].codecType) && Copied(streams[j].codecType)
    ensures next0 <= Assigned(streams, i, next0) < Assigned(streams, j, next0) < next0 + CopiedCount(streams, |streams|)
    ensures CopiedCount(streams, j) == CopiedCount(streams, i) + 1 ==> Assigned(streams, j, next0) == Assigned(streams, i, next0) + 1
  {
    CopiedCountMonotone(streams, i, j);
    CopiedCountMonotone(streams, j, |streams|);
  }

  // ---------------------------------------------------------------------------
  // remux_pkt
  // ---------------------------------------------------------------------------

  /** The fields of an AVPacket the program looks at; `payload` stands for the rest. */
  datatype Packet = Packet(streamIndex: nat, pos: int, payload: nat)

  /** What av_read_frame gives: a packet, or a negative status. */
  datatype ReadResult = Got(pkt: Packet) | ReadFailed(code: int)

  /** What remux_pkt returns and what it hands to the muxer. */
  datatype Remuxed = Remuxed(ret: int, written: Option<Packet>)

  /** remux_pkt for an input whose entries start at `base` of `mapping`: a read failure is returned;
      a packet of an unmapped stream (index past the mapping, or entry -1) is dropped with status 0;
      any other gets the mapped stream index and position -1 and is written. On success the function
      falls off its end: the status is the unspecified non-negative `fallOff`. */
  function Remux(mapping: seq<int>, base: nat, read: ReadResult, writeResult: int, fallOff: nat): (r: Remuxed)
    requires read.ReadFailed? ==> read.code < 0
    ensures read.ReadFailed? ==> r == Remuxed(read.code, None)
    ensures read.Got? && (base + read.pkt.streamIndex >= |mapping| || mapping[base + read.pkt.streamIndex] < 0)
            ==> r == Remuxed(0, None)
    ensures r.written.Some? <==>
            read.Got? && base + read.pkt.streamIndex < |mapping| && mapping[base + read.pkt.streamIndex] >= 0
    ensures r.written.Some? ==>
            && r.written.value.streamIndex == mapping[base + read.pkt.streamIndex]
            && r.written.value.pos == -1
            && r.written.value.payload == read.pkt.payload
            && r.ret == (if writeResult < 0 then writeResult else fallOff)
  {
    match read
    case ReadFailed(code) => Remuxed(code, None)
    case Got(pkt) =>
      var i := base + pkt.streamIndex;
      if i >= |mapping| || mapping[i] < 0 then Remuxed(0, None)
      else
        var out := pkt.(streamIndex := mapping[i], pos := -1);
        Remuxed(if writeResult < 0 then writeResult else fallOff, Some(out))
  }

  // ---------------------------------------------------------------------------
  // The program's state and its two-input pump
  // ---------------------------------------------------------------------------

  /** One input: the answers of its av_read_frame calls, and where its entries start in the mapping. */
  class Demuxer {
    const answers: nat -> ReadResult
    const base: nat
    var cursor: nat

    ghost predicate Valid()
      reads this
    {
      forall k :: answers(k).ReadFailed? ==> answers(k).code < 0
    }

    constructor (answers: nat -> ReadResult, base: nat)
      requires forall k :: answers(k).ReadFailed? ==> answers(k).code < 0
      ensures Valid() && this.answers == answers && this.base == base && cursor == 0
    {
      this.answers, this.base, cursor := answers, base, 0;
    }
  }

  /** What the pump did with one packet: which input it came from and what remux_pkt did. */
  datatype Step = Step(input: nat, result: Remuxed)

  /** What the pump works with: the mapping, each input's answers, where its entries start and how
      many of its answers were read before, the muxer's answers, how many writes were made before,
      and remux_pkt's status on success. */
  datatype Session = Session(
    mapping: seq<int>,
    answers1: nat -> ReadResult, base1: nat, cursor1: nat,
    answers2: nat -> ReadResult, base2: nat, cursor2: nat,
    writeResults: nat -> int, writes0: nat, fallOff: nat)
  {
    /** Read failures are negative, as av_read_frame's are. */
    ghost predicate Valid() {
      && (forall k :: answers1(k).ReadFailed? ==> answers1(k).code < 0)
      && (forall k :: answers2(k).ReadFailed? ==> answers2(k).code < 0)
    }
  }

  /** The answer read by step `j` of the pump: even steps read the first input, odd steps the second,
      each its next unread answer. */
  function PumpRead(s: Session, j: nat): (r: ReadResult)
    requires s.Valid()
    ensures r.ReadFailed? ==> r.code < 0
  {
    if j % 2 == 0 then s.answers1(s.cursor1 + j / 2) else s.answers2(s.cursor2 + j / 2)
  }

  /** How many of `steps` handed a packet to the muxer. */
  function WritesIn(steps: seq<Step>): (n: nat)
    ensures n <= |steps|
  {
    if steps == [] then 0
    else WritesIn(steps[..|steps| - 1]) + (if steps[|steps| - 1].result.written.Some? then 1 else 0)
  }

  /** A run of the pump: its steps, the muxer's write count after them, whether every step
      succeeded, the status of the last step (0 before the first), and how many answers it read
      from each input. */
  datatype Run = Run(steps: seq<Step>, writes: nat, ok: bool, ret: int, reads1: nat, reads2: nat)

  /** The first `k` steps of the pump: the inputs take turns, the first input first; each step is
      remux_pkt with that input's next answer, the muxer answering as its write number `writes` of
      the run so far. */
  function PumpRun(s: Session, k: nat): (r: Run)
    requires s.Valid()
    ensures |r.steps| == k
    ensures r.reads1 + r.reads2 == k && r.reads2 <= r.reads1 <= r.reads2 + 1
  {
    if k == 0 then Run([], s.writes0, true, 0, 0, 0)
    else
      var p := PumpRun(s, k - 1);
      var first := p.reads1 == p.reads2;
      var read := if first then s.answers1(s.cursor1 + p.reads1) else s.answers2(s.cursor2 + p.reads2);
      var out := Remux(s.mapping, if first then s.base1 else s.base2, read, s.writeResults(p.writes), s.fallOff);
      Run(p.steps + [Step(if first then 1 else 2, out)],
          p.writes + (if out.written.Some? then 1 else 0), p.ok && out.ret >= 0, out.ret,
          p.reads1 + (if first then 1 else 0), p.reads2 + (if first then 0 else 1))
  }

  /** A shorter run of the pump is a prefix of a longer one. */
  lemma {:induction false} PumpRunPrefix(s: Session, m: nat, n: nat)
    requires s.Valid() && m <= n
    ensures PumpRun(s, m).steps == PumpRun(s, n).steps[..m]
    decreases n
  {
    if m < n {
      PumpRunPrefix(s, m, n - 1);
      assert PumpRun(s, n).steps[..n - 1] == PumpRun(s, n - 1).steps;
    }
  }

  /** Step `2 * i` of any run that reaches it is remux_pkt on the first input's answer number `i`
      (after those read before the run), the muxer answering as its write number after the steps
      before it. */
  lemma FirstInputStep(s: Session, i: nat, n: nat)
    requires s.Valid() && 2 * i < n
    ensures PumpRun(s, n).steps[2 * i]
            == Step(1, Remux(s.mapping, s.base1, s.answers1(s.cursor1 + i),
                             s.writeResults(PumpRun(s, 2 * i).writes), s.fallOff))
  {
    var p, q := PumpRun(s, 2 * i), PumpRun(s, 2 * i + 1);
    assert p.reads1 == i && p.reads2 == i;
    var st := Step(1, Remux(s.mapping, s.base1, s.answers1(s.cursor1 + i), s.writeResults(p.writes), s.fallOff));
    assert q.steps == p.steps + [st];
    assert q.steps[2 * i] == st;
    PumpRunPrefix(s, 2 * i + 1, n);
    assert PumpRun(s, n).steps[2 * i] == q.steps[2 * i];
  }

  /** Step `2 * i + 1` of any run that reaches it is remux_pkt on the second input's answer number
      `i`, the muxer answering as its write number after the steps before it. */
  lemma SecondInputStep(s: Session, i: nat, n: nat)
    requires s.Valid() && 2 * i + 1 < n
    ensures PumpRun(s, n).steps[2 * i + 1]
            == Step(2, Remux(s.mapping, s.base2, s.answers2(s.cursor2 + i),
                             s.writeResults(PumpRun(s, 2 * i + 1).writes), s.fallOff))
  {
    var p, q := PumpRun(s, 2 * i + 1), PumpRun(s, 2 * i + 2);
    assert p.reads1 == i + 1 && p.reads2 == i;
    var st := Step(2, Remux(s.mapping, s.base2, s.answers2(s.cursor2 + i), s.writeResults(p.writes), s.fallOff));
    assert q.steps == p.steps + [st];
    assert q.steps[2 * i + 1] == st;
    PumpRunPrefix(s, 2 * i + 2, n);
    assert PumpRun(s, n).steps[2 * i + 1] == q.steps[2 * i + 1];
  }

  /** A run's write count is the one it started from plus the steps that wrote a packet. */
  lemma {:induction false} RunWrites(s: Session, k: nat)
    requires s.Valid()
    ensures PumpRun(s, k).writes == s.writes0 + WritesIn(PumpRun(s, k).steps)
  {
    if k > 0 {
      RunWrites(s, k - 1);
      assert PumpRun(s, k).steps[..k - 1] == PumpRun(s, k - 1).steps;
    }
  }

  /** `ok` says that every step of the run has a non-negative status. */
  lemma {:induction false} RunOk(s: Session, k: nat)
    requires s.Valid()
    ensures PumpRun(s, k).ok <==> forall j :: 0 <= j < k ==> PumpRun(s, k).steps[j].result.ret >= 0
  {
    if k > 0 {
      var r, p := PumpRun(s, k), PumpRun(s, k - 1);
      RunOk(s, k - 1);
      assert r.steps == p.steps + [r.steps[k - 1]];
      assert r.ok == (p.ok && r.steps[k - 1].result.ret >= 0);
      assert forall j :: 0 <= j < k - 1 ==> r.steps[j] == p.steps[j];
    }
  }

  /** One more step of a run appends that step, counts its write and its status. */
  lemma RunNext(s: Session, j: nat)
    requires s.Valid()
    ensures var q, r := PumpRun(s, j), PumpRun(s, j + 1);
            && r.steps == q.steps + [r.steps[j]]
            && r.writes == q.writes + (if r.steps[j].result.written.Some? then 1 else 0)
            && r.ok == (q.ok && r.steps[j].result.ret >= 0)
            && r.ret == r.steps[j].result.ret
  {
    var q, r := PumpRun(s, j), PumpRun(s, j + 1);
    assert r.steps == q.steps + [r.steps[j]];
  }

  /** The end of a run of `k` steps whose steps before the last all succeeded, in the terms `Pump`
      promises. */
  lemma RunEnd(s: Session, k: nat, k0: nat)
    requires s.Valid() && k == k0 + 1 && PumpRun(s, k0).ok
    ensures forall j :: 0 <= j < k - 1 ==> PumpRun(s, k).steps[j].result.ret >= 0
    ensures PumpRun(s, k).ret == PumpRun(s, k).steps[k - 1].result.ret
    ensures PumpRun(s, k).writes == s.writes0 + WritesIn(PumpRun(s, k).steps)
  {
    RunOk(s, k0);
    var p, r := PumpRun(s, k0), PumpRun(s, k);
    PumpRunPrefix(s, k0, k);
    assert forall j :: 0 <= j < k0 ==> r.steps[j] == p.steps[j];
    RunNext(s, k0);
    RunWrites(s, k);
  }

  /** The globals `stream_mapping`, `stream_index` and `nb_pkts`, and the muxer. */
  class Remuxer {
    const streamMapping: array<int>
    var streamIndex: int
    var nbPkts: int
    /** The answers of av_interleaved_write_frame, and how many writes have been made. */
    const writeResults: nat -> int
    var writes: nat
    /** The unspecified non-negative status remux_pkt returns on success. */
    const fallOff: nat
    /** What the pump has done, one step per remux_pkt call. */
    var log: seq<Step>

    /** The log and the write count are those of `k` steps of the pump after `log0`. */
    ghost predicate Logged(log0: seq<Step>, s: Session, k: nat)
      reads this
      requires s.Valid()
    {
      log == log0 + PumpRun(s, k).steps && writes == PumpRun(s, k).writes
    }

    constructor (size: nat, writeResults: nat -> int, fallOff: nat)
      ensures fresh(streamMapping) && streamMapping.Length == size
      ensures streamMapping[..] == seq(size, _ => 0)
      ensures streamIndex == 0 && nbPkts == 0 && writes == 0 && log == []
      ensures this.writeResults == writeResults && this.fallOff == fallOff
    {
      streamMapping := new int[size](_ => 0);
      streamIndex, nbPkts, writes, log := 0, 0, 0, [];
      this.writeResults, this.fallOff := writeResults, fallOff;
    }

    /** create_streams for an input whose entries start at `base`. */
    method CreateStreams(base: nat, streams: seq<InputStream>) returns (ret: int)
      requires base + |streams| <= streamMapping.Length
      modifies streamMapping, this`streamIndex
      ensures var r := MapPrefix(old(streamMapping[..]), base, streams, |streams|, old(streamIndex));
              ret == r.ret && streamMapping[..] == r.mapping && streamIndex == r.next
    {
      ghost var m0 := streamMapping[..];
      ghost var next0 := streamIndex;
      ret := 0;
      for i := 0 to |streams|
        invariant var r := MapPrefix(m0, base, streams, i, next0);
                  r.ret >= 0 && ret == r.ret && streamMapping[..] == r.mapping && streamIndex == r.next
      {
        var s := streams[i];
        if !Copied(s.codecType) {
          streamMapping[base + i] := -1;
          continue;
        }
        streamMapping[base + i] := streamIndex;
        streamIndex := streamIndex + 1;
        if !s.outputCreated {
          ret := UNKNOWN;
          MapPrefixStops(m0, base, streams, i + 1, |streams|, next0);
          return;
        }
        ret := s.copyResult;
        if ret < 0 {
          MapPrefixStops(m0, base, streams, i + 1, |streams|, next0);
          return;
        }
      }
    }

    /** remux_pkt on input `input` (1 or 2): one read, and one write if the packet is kept. */
    method RemuxPkt(input: nat, d: Demuxer) returns (ret: int)
      requires d.Valid()
      modifies d, this`writes, this`log
      ensures var r := Remux(streamMapping[..], d.base, d.answers(old(d.cursor)), writeResults(old(writes)), fallOff);
              && ret == r.ret && log == old(log) + [Step(input, r)]
              && writes == old(writes) + (if r.written.Some? then 1 else 0)
      ensures d.cursor == old(d.cursor) + 1
    {
      var read := d.answers(d.cursor);
      d.cursor := d.cursor + 1;
      var r := Remux(streamMapping[..], d.base, read, writeResults(writes), fallOff);
      if r.written.Some? {
        writes := writes + 1;
      }
      log := log + [Step(input, r)];
      ret := r.ret;
    }

    /** The loop of `main`: a packet from the first input, then one from the second, stopping at
        the first negative status; after the pass on which `nb_pkts` (before its increment) exceeds
        300, it stops too. What it logs is the first `n` steps of `PumpRun`, run from the inputs'
        and the muxer's state at the call. */
    method Pump(in1: Demuxer, in2: Demuxer) returns (ret: int, ghost s: Session, ghost n: nat)
      requires in1.Valid() && in2.Valid() && in1 != in2 && nbPkts >= 0
      modifies in1, in2, this`writes, this`log, this`nbPkts
      ensures s == Session(streamMapping[..], in1.answers, in1.base, old(in1.cursor),
                           in2.answers, in2.base, old(in2.cursor), writeResults, old(writes), fallOff)
      ensures s.Valid() && n == |log| - |old(log)| && 0 < n <= 2 * PassLimit(old(nbPkts))
      ensures log == old(log) + PumpRun(s, n).steps
      ensures forall j :: 0 <= j < n - 1 ==> PumpRun(s, n).steps[j].result.ret >= 0
      ensures ret == PumpRun(s, n).steps[n - 1].result.ret
      ensures writes == PumpRun(s, n).writes == old(writes) + WritesIn(PumpRun(s, n).steps)
      ensures ret >= 0 ==> n == 2 * PassLimit(old(nbPkts))
      ensures in1.cursor == old(in1.cursor) + PumpRun(s, n).reads1
      ensures in2.cursor == old(in2.cursor) + PumpRun(s, n).reads2
      ensures nbPkts == old(nbPkts) + PumpRun(s, n).reads1 - (if ret < 0 then 1 else 0)
      ensures in1.answers(old(in1.cursor)) == ReadFailed(EOF) ==>
              && ret == EOF && ExitStatus(ret) == 0
              && log == old(log) + [Step(1, Remuxed(EOF, None))]
              && writes == old(writes) && nbPkts == old(nbPkts)
    {
      s := Session(streamMapping[..], in1.answers, in1.base, in1.cursor,
                   in2.answers, in2.base, in2.cursor, writeResults, writes, fallOff);
      ghost var k0;
      ret, n, k0 := PumpLoop(in1, in2, s);
      RunEnd(s, n, k0);
      if in1.answers(s.cursor1) == ReadFailed(EOF) {
        FirstReadEndsPump(s, n);
      }
    }

    /** The loop of `Pump`, for the session `s` describing the state at the call; `k` counts the
        steps made. */
    method PumpLoop(in1: Demuxer, in2: Demuxer, ghost s: Session) returns (ret: int, ghost k: nat, ghost k0: nat)
      requires in1.Valid() && in2.Valid() && in1 != in2 && nbPkts >= 0
      requires s == Session(streamMapping[..], in1.answers, in1.base, in1.cursor,
                            in2.answers, in2.base, in2.cursor, writeResults, writes, fallOff)
      modifies in1, in2, this`writes, this`log, this`nbPkts
      ensures s.Valid() && 0 < k <= 2 * PassLimit(old(nbPkts))
      ensures Logged(old(log), s, k)
      ensures k == k0 + 1 && PumpRun(s, k0).ok && ret == PumpRun(s, k).ret
      ensures ret >= 0 ==> k == 2 * PassLimit(old(nbPkts))
      ensures in1.cursor == s.cursor1 + PumpRun(s, k).reads1 && in2.cursor == s.cursor2 + PumpRun(s, k).reads2
      ensures nbPkts == old(nbPkts) + PumpRun(s, k).reads1 - (if ret < 0 then 1 else 0)
    {
      ghost var log0, n0 := log, nbPkts;
      k := 0;
      while true
        invariant in1.Valid() && in2.Valid() && s.Valid() && n0 <= nbPkts < n0 + PassLimit(n0)
        invariant k == 2 * (nbPkts - n0) && PumpRun(s, k).ok
        invariant Logged(log0, s, k)
        invariant in1.cursor == s.cursor1 + (nbPkts - n0) && in2.cursor == s.cursor2 + (nbPkts - n0)
        decreases n0 + PassLimit(n0) - nbPkts
      {
        ret, k, k0 := RunPass(in1, in2, s, log0, nbPkts - n0);
        if ret < 0 {
          return;
        }
        var last := nbPkts > 300;
        nbPkts := nbPkts + 1;
        if last {
          return;
        }
      }
    }

    /** Pass `p` of the pump: a packet from the first input and, if that succeeds, one from the
        second; `k` is the number of steps made so far, `k0` the number before the last. */
    method RunPass(in1: Demuxer, in2: Demuxer, ghost s: Session, ghost log0: seq<Step>, ghost p: nat)
      returns (ret: int, ghost k: nat, ghost k0: nat)
      requires in1.Valid() && in2.Valid() && in1 != in2 && s.Valid()
      requires s.mapping == streamMapping[..] && s.fallOff == fallOff && s.writeResults == writeResults
      requires in1.answers == s.answers1 && in1.base == s.base1 && in1.cursor == s.cursor1 + p
      requires in2.answers == s.answers2 && in2.base == s.base2 && in2.cursor == s.cursor2 + p
      requires Logged(log0, s, 2 * p) && PumpRun(s, 2 * p).ok
      modifies in1, in2, this`writes, this`log
      ensures k == k0 + 1 && (k0 == 2 * p || k0 == 2 * p + 1) && PumpRun(s, k0).ok
      ensures Logged(log0, s, k) && ret == PumpRun(s, k).ret
      ensures ret >= 0 ==> k0 == 2 * p + 1 && PumpRun(s, k).ok
      ensures in1.cursor == s.cursor1 + PumpRun(s, k).reads1 && in2.cursor == s.cursor2 + PumpRun(s, k).reads2
      ensures PumpRun(s, k).reads1 == p + 1
    {
      k0 := 2 * p;
      ret := PumpStep(1, in1, s, log0, p, k0);
      k := k0 + 1;
      if ret < 0 {
        return;
      }
      k0 := k;
      ret := PumpStep(2, in2, s, log0, p, k0);
      k := k0 + 1;
    }

    /** Step `j` of the pump, pass `p`'s read of input `input` (1 or 2): the log and the write
        count move on to those of one step more of `PumpRun`. */
    method PumpStep(input: nat, d: Demuxer, ghost s: Session, ghost log0: seq<Step>, ghost p: nat, ghost j: nat)
      returns (ret: int)
      requires d.Valid() && s.Valid() && s.mapping == streamMapping[..] && s.fallOff == fallOff
      requires s.writeResults == writeResults && (input == 1 || input == 2) && j == 2 * p + input - 1
      requires Logged(log0, s, j)
      requires if input == 1
               then d.answers == s.answers1 && d.base == s.base1 && d.cursor == s.cursor1 + p
               else d.answers == s.answers2 && d.base == s.base2 && d.cursor == s.cursor2 + p
      modifies d, this`writes, this`log
      ensures Logged(log0, s, j + 1)
      ensures ret == PumpRun(s, j + 1).ret && d.cursor == old(d.cursor) + 1
      ensures PumpRun(s, j + 1).ok == (PumpRun(s, j).ok && ret >= 0)
    {
      RunNext(s, j);
      ghost var q := PumpRun(s, j);
      assert q.reads1 == p + input - 1 && q.reads2 == p;
      assert PumpRun(s, j + 1).steps[j]
             == Step(input, Remux(s.mapping, d.base, d.answers(d.cursor), s.writeResults(q.writes), s.fallOff));
      ret := RemuxPkt(input, d);
    }
  }

  /** The number of passes the loop makes when nothing fails, with `nb_pkts` starting at `n0`. */
  function PassLimit(n0: int): (n: nat)
    ensures n >= 1
    ensures n0 == 0 ==> n == 302
  {
    if n0 <= 301 then 302 - n0 else 1
  }

  /** The exit status of `main`: 1 for an error, 0 otherwise; an input that ended (AVERROR_EOF)
      is not an error. */
  function ExitStatus(ret: int): (code: int)
    ensures code == 0 || code == 1
    ensures code == 0 <==> ret >= 0 || ret == EOF
  {
    if ret < 0 && ret != EOF then 1 else 0
  }

  /** In a run of `n` steps of the pump whose steps before the last succeed, as `Pump` leaves it, a
      step whose read answers AVERROR_EOF is the last one: the pump returns AVERROR_EOF, that step
      writes nothing, and the program exits 0. */
  lemma EndOfInputExitsCleanly(s: Session, n: nat, k: nat)
    requires s.Valid() && k < n
    requires forall j :: 0 <= j < n - 1 ==> PumpRun(s, n).steps[j].result.ret >= 0
    requires PumpRead(s, k) == ReadFailed(EOF)
    ensures n == k + 1 && PumpRun(s, n).steps[k].result == Remuxed(EOF, None)
    ensures PumpRun(s, n).writes == PumpRun(s, k).writes
    ensures ExitStatus(PumpRun(s, n).steps[k].result.ret) == 0
  {
    StepReads(s, k, n);
    var r := PumpRun(s, n).steps[k].result;
    assert r == Remuxed(EOF, None);
    assert n == k + 1;
    RunNext(s, k);
  }

  /** A pump whose first read answers AVERROR_EOF stops after that one step, having written nothing. */
  lemma FirstReadEndsPump(s: Session, n: nat)
    requires s.Valid() && 0 < n
    requires forall j :: 0 <= j < n - 1 ==> PumpRun(s, n).steps[j].result.ret >= 0
    requires s.answers1(s.cursor1) == ReadFailed(EOF)
    ensures n == 1 && PumpRun(s, n).steps == [Step(1, Remuxed(EOF, None))]
    ensures PumpRun(s, n).writes == s.writes0 && PumpRun(s, n).ret == EOF
  {
    assert PumpRead(s, 0) == ReadFailed(EOF);
    EndOfInputExitsCleanly(s, n, 0);
    FirstInputStep(s, 0, n);
    RunNext(s, 0);
  }

  /** Step `k` of any run that reaches it is remux_pkt on the answer `PumpRead` gives for it. */
  lemma StepReads(s: Session, k: nat, n: nat)
    requires s.Valid() && k < n
    ensures PumpRun(s, n).steps[k].result
            == Remux(s.mapping, if k % 2 == 0 then s.base1 else s.base2, PumpRead(s, k),
                     s.writeResults(PumpRun(s, k).writes), s.fallOff)
  {
    var i, read := k / 2, PumpRead(s, k);
    if k % 2 == 0 {
      assert read == s.answers1(s.cursor1 + i);
      FirstInputStep(s, i, n);
      assert k == 2 * i;
    } else {
      assert read == s.answers2(s.cursor2 + i);
      SecondInputStep(s, i, n);
      assert k == 2 * i + 1;
    }
  }

  // ---------------------------------------------------------------------------
  // Setting up both inputs
  // ---------------------------------------------------------------------------

  /** `main` as written: a zeroed mapping of |s1| + |s2| entries, then create_streams for each
      input, both writing their entries from index 0. */
  function SetUpAsWritten(s1: seq<InputStream>, s2: seq<InputStream>): (r: MapResult)
    ensures |r.mapping| == |s1| + |s2|
  {
    var m0 := seq(|s1| + |s2|, _ => 0);
    var r1 := MapPrefix(m0, 0, s1, |s1|, 0);
    if r1.ret < 0 then r1 else MapPrefix(r1.mapping, 0, s2, |s2|, r1.next)
  }

  /** The discrepancy: with one video stream in each input, the second input's entry overwrites the
      first's, so packets of both inputs go to output stream 1 and output stream 0 receives none. */
  lemma SecondInputOverwritesFirst(pkt1: Packet, pkt2: Packet, w: int, fallOff: nat)
    requires pkt1.streamIndex == 0 && pkt2.streamIndex == 0 && w >= 0
    ensures var s := [InputStream(Video, true, 0)];
            var r := SetUpAsWritten(s, s);
            && r.ret >= 0 && r.mapping == [1, 0] && r.next == 2
            && Remux(r.mapping, 0, Got(pkt1), w, fallOff).written == Some(pkt1.(streamIndex := 1, pos := -1))
            && Remux(r.mapping, 0, Got(pkt2), w, fallOff).written == Some(pkt2.(streamIndex := 1, pos := -1))
  {
    var s := [InputStream(Video, true, 0)];
    var m0 := seq(2, _ => 0);
    assert FirstFail(s) == 1;
    var r1 := MapPrefix(m0, 0, s, 1, 0);
    assert r1.mapping[0] == Assigned(s, 0, 0) == 0;
    assert r1.mapping == [0, 0];
    var r2 := MapPrefix(r1.mapping, 0, s, 1, 1);
    assert r2.mapping[0] == Assigned(s, 0, 1) == 1;
    assert r2.mapping == [1, 0];
  }

  /** The discrepancy in general: when every stream of both inputs is set up, the second input's
      create_streams rewrites entries 0 to |s2| - 1 with its own output indices, entries from |s2|
      up to |s1| keep the first input's, and the rest stay zero. */
  lemma SecondInputOverwritesFirstAll(s1: seq<InputStream>, s2: seq<InputStream>, i: nat)
    requires FirstFail(s1) == |s1| && FirstFail(s2) == |s2| && i < |s1| + |s2|
    ensures SetUpAsWritten(s1, s2).ret >= 0
    ensures i < |s2| ==> SetUpAsWritten(s1, s2).mapping[i] == Assigned(s2, i, CopiedCount(s1, |s1|))
    ensures |s2| <= i < |s1| ==> SetUpAsWritten(s1, s2).mapping[i] == Assigned(s1, i, 0)
    ensures |s1| <= i && |s2| <= i ==> SetUpAsWritten(s1, s2).mapping[i] == 0
  {
    var m0 := seq(|s1| + |s2|, _ => 0);
    var r1 := MapPrefix(m0, 0, s1, |s1|, 0);
    assert Done(s1, |s1|) == |s1| && Done(s2, |s2|) == |s2|;
    var r2 := MapPrefix(r1.mapping, 0, s2, |s2|, r1.next);
    assert SetUpAsWritten(s1, s2) == r2;
    if i < |s2| {
      assert r2.mapping[0 + i] == Assigned(s2, i, r1.next);
    } else if i < |s1| {
      assert r1.mapping[0 + i] == Assigned(s1, i, 0);
    }
  }

  /** `main` with the second input's entries placed after the first's (base |s1|), which is what its
      packets are then looked up with. */
  function SetUp(s1: seq<InputStream>, s2: seq<InputStream>): (r: MapResult)
    ensures |r.mapping| == |s1| + |s2|
  {
    var m0 := seq(|s1| + |s2|, _ => 0);
    var r1 := MapPrefix(m0, 0, s1, |s1|, 0);
    if r1.ret < 0 then r1 else MapPrefix(r1.mapping, |s1|, s2, |s2|, r1.next)
  }

  /** With the entries kept apart and every output stream set up, every copied stream of either input keeps its own output index:
      the first input's streams get 0, 1, ..., the second's continue from there, so no two copied
      streams share an output stream. */
  lemma SetUpSeparatesInputs(s1: seq<InputStream>, s2: seq<InputStream>, i: nat, j: nat)
    requires FirstFail(s1) == |s1| && FirstFail(s2) == |s2| && i < |s1| && j < |s2|
    ensures SetUp(s1, s2).mapping[i] == Assigned(s1, i, 0)
    ensures SetUp(s1, s2).mapping[|s1| + j] == Assigned(s2, j, CopiedCount(s1, |s1|))
    ensures Copied(s1[i].codecType) && Copied(s2[j].codecType)
            ==> SetUp(s1, s2).mapping[i] < SetUp(s1, s2).mapping[|s1| + j]
  {
    var m0 := seq(|s1| + |s2|, _ => 0);
    var r1 := MapPrefix(m0, 0, s1, |s1|, 0);
    var r2 := MapPrefix(r1.mapping, |s1|, s2, |s2|, r1.next);
    assert SetUp(s1, s2) == r2;
    assert Done(s1, |s1|) == |s1| && Done(s2, |s2|) == |s2|;
    assert r2.mapping[i] == r1.mapping[i];
    assert r2.mapping[|s1| + j] == Assigned(s2, j, r1.next) by {
      var k := |s1| + j;
      assert k - |s1| == j;
    }
    if Copied(s1[i].codecType) {
      CopiedCountMonotone(s1, i, |s1|);
    }
  }
}
