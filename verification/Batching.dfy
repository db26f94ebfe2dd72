/** The scheduler's state and one scheduling round, as values
    (src/scheduler/scheduler.cpp, src/scheduler/sequence.cpp). */
module Batching {
  import opened Basics

  /** A sequence: its lengths, how far it has come, and what it processes in this round. */
  datatype Request = Request(
    id: nat, input: nat, output: nat, total: nat, current: nat, process: nat,
    record: bool, sumStage: bool, numSumIter: nat,
    genStart: real, firstTokenTime: real, endTokenTime: real)

  type Batch = seq<Request>

  /** The fixed sizes. Every batch may hold totalBatch / dp sequences. */
  datatype Params = Params(totalBatch: nat, dp: nat, maxProcess: nat) {
    ghost predicate Valid() {
      dp >= 1 && totalBatch / dp >= 1
    }

    /** A full batch can give every one of its sequences a token. */
    ghost predicate Serves() {
      dp >= 1 && totalBatch / dp <= maxProcess
    }

    function Cap(): nat
      requires dp >= 1
    {
      totalBatch / dp
    }
  }

  datatype State = State(batches: seq<Batch>, queue: seq<Request>, rotate: nat, now: real)

  // -------------------------------------------------------------- requests

  datatype Workload = Workload(inputLen: int, outputLen: int, maxSeqLen: int, prefillMode: bool, decodeMode: bool,
                               reuse: Option<real>)

  /** The output length a push uses: cut so that the sequence fits. */
  function ClampedOutput(w: Workload): int {
    if w.inputLen + w.outputLen > w.maxSeqLen then w.maxSeqLen - w.inputLen else w.outputLen
  }

  /** One synthetic sequence; none when nothing is to be generated. */
  function PushDummySeq(w: Workload, id: nat): Result<Option<Request>> {
    if w.inputLen >= w.maxSeqLen then Failure("Invalid input_len")
    else if ClampedOutput(w) == 0 then Success(None)
    else if w.inputLen <= 0 then Failure("input len is not valid")
    else if ClampedOutput(w) < 0 then Failure("output len is not valid")
    else
      var reused := match w.reuse case None => 0 case Some(rate) => Truncate(w.inputLen as real * rate);
      var output := ClampedOutput(w);
      if reused < 0 then Failure("negative reuse rate")
      else
        var r := Request(id, w.inputLen, output, w.inputLen + output - 1, reused, 0, false, true, 0, 0.0, 0.0, 0.0);
        Success(Some(
          if w.prefillMode then r.(output := w.inputLen, total := w.inputLen)
          else if w.decodeMode then r.(current := w.inputLen)
          else r))
  }

  /** Conversion of a real number to an integer drops the fraction. */
  function Truncate(x: real): int {
    if x >= 0.0 then x.Floor else -((-x).Floor)
  }

  // ----------------------------------------------------------------- round

  predicate Prefilling(s: Request) {
    s.current < s.input
  }

  function CountPrefilling(b: Batch): nat {
    if b == [] then 0 else (if Prefilling(b[0]) then 1 else 0) + CountPrefilling(b[1..])
  }

  predicate HasPrefill(bs: seq<Batch>) {
    exists k | 0 <= k < |bs| :: CountPrefilling(bs[k]) > 0
  }

  /** The tokens a sequence may process in this round. */
  function Assign(s: Request, prefill: bool, share: nat, now: real): Request {
    if Prefilling(s) then
      if prefill then s.(process := MinNat(share, s.input - s.current)) else s
    else
      if !prefill && (s.genStart == 0.0 || s.genStart <= now) then s.(process := 1) else s
  }

  function Share(p: Params, b: Batch): nat {
    var n := CountPrefilling(b);
    if n == 0 then 0 else p.maxProcess / n
  }

  function AssignBatch(b: Batch, prefill: bool, share: nat, now: real): (r: Batch)
    ensures |r| == |b| && forall i | 0 <= i < |b| :: r[i] == Assign(b[i], prefill, share, now)
  {
    seq(|b|, i requires 0 <= i < |b| => Assign(b[i], prefill, share, now))
  }

  function SetMetadata(p: Params, st: State): State {
    var prefill := HasPrefill(st.batches);
    st.(batches := seq(|st.batches|, k requires 0 <= k < |st.batches| =>
      AssignBatch(st.batches[k], prefill, Share(p, st.batches[k]), st.now)))
  }

  function Update(s: Request, time: real): Request {
    s.(current := s.current + s.process,
       process := 0,
       endTokenTime := s.endTokenTime + time,
       firstTokenTime := if s.sumStage then s.firstTokenTime + time else s.firstTokenTime,
       numSumIter := if s.sumStage then s.numSumIter + 1 else s.numSumIter,
       sumStage := s.sumStage && s.current + s.process != s.input)
  }

  function UpdateBatch(b: Batch, time: real): (r: Batch)
    ensures |r| == |b| && forall i | 0 <= i < |b| :: r[i] == Update(b[i], time)
  {
    seq(|b|, i requires 0 <= i < |b| => Update(b[i], time))
  }

  predicate Done(s: Request) {
    s.current == s.total
  }

  /** A sequence that has just read its last input token, and is not done. */
  predicate Starts(s: Request) {
    !Done(s) && s.current == s.input && !s.record
  }

  function Recorded(s: Request): Request {
    if Starts(s) then s.(record := true) else s
  }

  /** The sequences that stay after an update. */
  function Remaining(b: Batch): Batch {
    if b == [] then [] else (if Done(b[0]) then [] else [Recorded(b[0])]) + Remaining(b[1..])
  }

  /** The sequences reported after an update: those done, and those with their first token. */
  function Listed(b: Batch): seq<Request> {
    if b == [] then [] else (if Done(b[0]) || Starts(b[0]) then [Recorded(b[0])] else []) + Listed(b[1..])
  }

  function ListedAll(bs: seq<Batch>): seq<Request> {
    if bs == [] then [] else Listed(bs[0]) + ListedAll(bs[1..])
  }

  function UpdateBatches(bs: seq<Batch>, time: real): (r: seq<Batch>)
    ensures |r| == |bs| && forall k | 0 <= k < |bs| :: r[k] == UpdateBatch(bs[k], time)
  {
    seq(|bs|, k requires 0 <= k < |bs| => UpdateBatch(bs[k], time))
  }

  function RemainingAll(bs: seq<Batch>): (r: seq<Batch>)
    ensures |r| == |bs| && forall k | 0 <= k < |bs| :: r[k] == Remaining(bs[k])
  {
    seq(|bs|, k requires 0 <= k < |bs| => Remaining(bs[k]))
  }

  function UpdateScheduler(st: State, time: real): State {
    st.(batches := RemainingAll(UpdateBatches(st.batches, time)))
  }

  function Reported(st: State, time: real): seq<Request> {
    ListedAll(UpdateBatches(st.batches, time))
  }

  /** Decoding of the reported sequences may start now. */
  function StampOne(s: Request, listed: seq<Request>, now: real): Request {
    if exists i | 0 <= i < |listed| :: listed[i].id == s.id then s.(genStart := now) else s
  }

  function AddLatency(st: State, listed: seq<Request>, now: real): State {
    st.(now := now, batches := seq(|st.batches|, k requires 0 <= k < |st.batches| =>
      seq(|st.batches[k]|, i requires 0 <= i < |st.batches[k]| => StampOne(st.batches[k][i], listed, now))))
  }

  // ------------------------------------------------------------- admission

  function BatchSize(bs: seq<Batch>): nat {
    if bs == [] then 0 else |bs[0]| + BatchSize(bs[1..])
  }

  /** Round-robin search for a batch with room, giving up after the given number of tries. */
  function Place(bs: seq<Batch>, rotate: nat, s: Request, cap: nat, tries: nat): (r: (seq<Batch>, nat, bool))
    requires tries > 0 ==> bs != []
    ensures |r.0| == |bs|
    decreases tries
  {
    if tries == 0 then (bs, rotate, false)
    else
      var k := rotate % |bs|;
      if |bs[k]| < cap then (bs[k := bs[k] + [s]], rotate + 1, true)
      else Place(bs, rotate + 1, s, cap, tries - 1)
  }

  function Admit(st: State, cap: nat, attempts: nat): State
    requires attempts <= |st.queue|
    decreases attempts
  {
    if attempts == 0 then st
    else
      var (bs, rotate, placed) := Place(st.batches, st.rotate, st.queue[0], cap, |st.batches|);
      Admit(st.(batches := bs, rotate := rotate, queue := if placed then st.queue[1..] else st.queue), cap,
            attempts - 1)
  }

  function FillRunningQueue(p: Params, st: State): State
    requires p.dp >= 1
  {
    var empty := p.totalBatch - BatchSize(st.batches);
    if empty <= 0 then st else Admit(st, p.Cap(), MinNat(empty, |st.queue|))
  }

  // ------------------------------------------------------------------ runs

  function Tokens(b: Batch): nat {
    if b == [] then 0 else b[0].process + Tokens(b[1..])
  }

  /** The tokens processed in this round. */
  function AllTokens(bs: seq<Batch>): nat {
    if bs == [] then 0 else Tokens(bs[0]) + AllTokens(bs[1..])
  }

  /** Warm-up rounds take no time and leave the start times alone; timed rounds are skipped when there is nothing to
      do. */
  datatype Mode = WarmUp | Timed(time: real)

  /** One round and the sequences pushed in it. */
  datatype Input = Input(mode: Mode, arrivals: seq<Request>)

  predicate Skipped(p: Params, st: State, mode: Mode) {
    mode.Timed? && AllTokens(SetMetadata(p, st).batches) == 0
  }

  function TimeOf(mode: Mode): real {
    match mode case WarmUp => 0.0 case Timed(time) => time
  }

  function ReportedIn(p: Params, st: State, mode: Mode): seq<Request> {
    if Skipped(p, st, mode) then [] else Reported(SetMetadata(p, st), TimeOf(mode))
  }

  /** The state before the queue is filled. */
  function Processed(p: Params, st: State, mode: Mode): State {
    var ready := SetMetadata(p, st);
    var updated := UpdateScheduler(ready, TimeOf(mode));
    match mode
    case WarmUp => updated
    case Timed(time) => AddLatency(updated, Reported(ready, time), st.now + time)
  }

  function Round(p: Params, st: State, i: Input): State
    requires p.dp >= 1
  {
    if Skipped(p, st, i.mode) then SetMetadata(p, st)
    else
      var processed := Processed(p, st, i.mode);
      FillRunningQueue(p, processed.(queue := processed.queue + i.arrivals))
  }

  function Run(p: Params, st: State, inputs: seq<Input>): State
    requires p.dp >= 1
    decreases |inputs|
  {
    if inputs == [] then st else Run(p, Round(p, st, inputs[0]), inputs[1..])
  }

  /** What the rounds of a run report. */
  function Reports(p: Params, st: State, inputs: seq<Input>): (log: seq<seq<Request>>)
    requires p.dp >= 1
    ensures |log| == |inputs|
    decreases |inputs|
  {
    if inputs == [] then []
    else [ReportedIn(p, st, inputs[0].mode)] + Reports(p, Round(p, st, inputs[0]), inputs[1..])
  }
}
