/**
 * The pipeline orchestrator: `createChannels` lays out the channels and
 * `ExecutePipeline` wires job idx to channels idx and idx + 1, runs the jobs,
 * closes each job's output channel once the job has returned, and waits on a
 * WaitGroup-style counter.
 *
 * Goroutines are run one after another in data-flow order: job idx starts
 * once job idx - 1 has returned and closed its output, so job idx sees the
 * complete stream written on its input channel. A job is a function from that
 * complete stream to what it writes on its output channel, or to a panic.
 */
module Pipeline {

  /** The values that travel on channels (Go's `interface{}` as used here). */
  datatype Payload = PInt(i: int) | PStr(s: string)

  /** What a job does with its whole input stream: write a stream, or panic. */
  datatype StageResult = Done(out: seq<Payload>) | Panic(message: string)

  type Job = seq<Payload> -> StageResult

  /** Capacity of every interior channel. */
  const MaxInputs: nat := 100

  /** A channel: its buffer capacity, everything ever sent on it, and how often it was closed. */
  datatype Channel = Channel(capacity: nat, items: seq<Payload>, closes: nat)

  /** The channels a launched job is bound to, by index. */
  datatype Wiring = Wiring(input: nat, output: nat)

  datatype Event =
    | Launched(job: nat)    // wg.Add(1) and the go statement for the job
    | Returned(job: nat)    // the job function returned
    | Closed(channel: nat)  // close(out)
    | Finished(job: nat)    // wg.Done()

  datatype Execution =
    | Completed(channels: seq<Channel>, wiring: seq<Wiring>, trace: seq<Event>, pending: nat)
    | Aborted(job: nat, message: string)

  /**
   * createChannels: an unbuffered channel, one buffered channel per pair of
   * neighbouring jobs, and a final unbuffered channel. With no job at all there
   * are still two channels.
   */
  method CreateChannels(numJobs: nat, maxInputs: nat) returns (channels: seq<Channel>)
    ensures |channels| == if numJobs >= 1 then numJobs + 1 else 2
    ensures channels[0].capacity == 0 && channels[|channels| - 1].capacity == 0
    ensures forall k :: 0 < k < |channels| - 1 ==> channels[k].capacity == maxInputs
    ensures forall k :: 0 <= k < |channels| ==> channels[k].items == [] && channels[k].closes == 0
  {
    channels := [Channel(0, [], 0)];
    var i := 1;
    while i < numJobs
      invariant 1 <= i <= (if numJobs >= 1 then numJobs else 1)
      invariant |channels| == i
      invariant channels[0].capacity == 0
      invariant forall k :: 0 < k < i ==> channels[k].capacity == maxInputs
      invariant forall k :: 0 <= k < i ==> channels[k].items == [] && channels[k].closes == 0
    {
      channels := channels + [Channel(maxInputs, [], 0)];
      i := i + 1;
    }
    channels := channels + [Channel(0, [], 0)];
  }

  /**
   * What is written on channel k when the jobs run in data-flow order: nothing
   * on channel 0 (no job writes it), then the output of each job applied to the
   * stream of the channel before it. A panic anywhere ends the run.
   */
  function Stream(jobs: seq<Job>, k: nat): StageResult
    requires k <= |jobs|
  {
    if k == 0 then Done([])
    else match Stream(jobs, k - 1)
      case Panic(m) => Panic(m)
      case Done(s) => jobs[k - 1](s)
  }

  /** Once a run has panicked, no later channel gets a stream. */
  lemma {:induction false} PanicPersists(jobs: seq<Job>, j: nat, k: nat)
    requires j <= k <= |jobs|
    requires Stream(jobs, j).Panic?
    ensures Stream(jobs, k).Panic?
    decreases k - j
  {
    if j < k {
      PanicPersists(jobs, j + 1, k);
    }
  }

  function LaunchEvents(n: nat): seq<Event> {
    if n == 0 then [] else LaunchEvents(n - 1) + [Launched(n - 1)]
  }

  function CompletionEvents(k: nat): seq<Event> {
    if k == 0 then [] else CompletionEvents(k - 1) + [Returned(k - 1), Closed(k), Finished(k - 1)]
  }

  /** Every job launched, then every job returning, getting its output closed and marked done. */
  function Schedule(n: nat): seq<Event> {
    LaunchEvents(n) + CompletionEvents(n)
  }

  function Delta(e: Event): int {
    match e
    case Launched(_) => 1
    case Finished(_) => -1
    case _ => 0
  }

  /** The WaitGroup counter after the events of t: one up per launch, one down per finish. */
  function Pending(t: seq<Event>): int {
    if t == [] then 0 else Pending(t[..|t| - 1]) + Delta(t[|t| - 1])
  }

  lemma {:induction false} PendingAppend(t: seq<Event>, u: seq<Event>)
    ensures Pending(t + u) == Pending(t) + Pending(u)
    decreases |u|
  {
    if u == [] {
      assert t + u == t;
    } else {
      assert (t + u)[..|t + u| - 1] == t + u[..|u| - 1];
      PendingAppend(t, u[..|u| - 1]);
    }
  }

  lemma PendingOfCompletion(k: nat, c: nat)
    ensures Pending([Returned(k), Closed(c), Finished(k)]) == -1
  {
    var u1, u2, u3 := [Returned(k)], [Returned(k), Closed(c)], [Returned(k), Closed(c), Finished(k)];
    assert u1[..0] == [] && u2[..1] == u1 && u3[..2] == u2;
    assert Pending(u1) == 0;
    assert Pending(u2) == 0;
  }

  /** The counter rises to n while launching and is back at zero once all jobs are done. */
  lemma {:induction false} ScheduleBalanced(n: nat)
    ensures Pending(LaunchEvents(n)) == n
    ensures Pending(CompletionEvents(n)) == -(n as int)
    ensures Pending(Schedule(n)) == 0
  {
    if n > 0 {
      ScheduleBalanced(n - 1);
      PendingAppend(LaunchEvents(n - 1), [Launched(n - 1)]);
      PendingAppend(CompletionEvents(n - 1), [Returned(n - 1), Closed(n), Finished(n - 1)]);
      PendingOfCompletion(n - 1, n);
      assert Pending([Launched(n - 1)]) == 1 by {
        assert [Launched(n - 1)][..0] == [];
      }
    }
    PendingAppend(LaunchEvents(n), CompletionEvents(n));
  }

  lemma {:induction false} LaunchEventsAt(n: nat)
    ensures |LaunchEvents(n)| == n
    ensures forall j :: 0 <= j < n ==> LaunchEvents(n)[j] == Launched(j)
  {
    if n > 0 {
      LaunchEventsAt(n - 1);
    }
  }

  lemma {:induction false} CompletionEventsAt(k: nat)
    ensures |CompletionEvents(k)| == 3 * k
    ensures forall j :: 0 <= j < k ==>
      CompletionEvents(k)[3 * j] == Returned(j) &&
      CompletionEvents(k)[3 * j + 1] == Closed(j + 1) &&
      CompletionEvents(k)[3 * j + 2] == Finished(j)
  {
    if k > 0 {
      CompletionEventsAt(k - 1);
    }
  }

  /** How many times e occurs in t. */
  function Occurrences(t: seq<Event>, e: Event): nat {
    if t == [] then 0 else Occurrences(t[..|t| - 1], e) + (if t[|t| - 1] == e then 1 else 0)
  }

  lemma {:induction false} OccurrencesAppend(t: seq<Event>, u: seq<Event>, e: Event)
    ensures Occurrences(t + u, e) == Occurrences(t, e) + Occurrences(u, e)
    decreases |u|
  {
    if u == [] {
      assert t + u == t;
    } else {
      assert (t + u)[..|t + u| - 1] == t + u[..|u| - 1];
      OccurrencesAppend(t, u[..|u| - 1], e);
    }
  }

  lemma {:induction false} LaunchEventsClose(n: nat, c: nat)
    ensures Occurrences(LaunchEvents(n), Closed(c)) == 0
  {
    if n > 0 {
      LaunchEventsClose(n - 1, c);
    }
  }

  lemma {:induction false} CompletionClosesOnce(k: nat, c: nat)
    ensures Occurrences(CompletionEvents(k), Closed(c)) == if 1 <= c <= k then 1 else 0
  {
    if k > 0 {
      var u1, u2, u3 := [Returned(k - 1)], [Returned(k - 1), Closed(k)], [Returned(k - 1), Closed(k), Finished(k - 1)];
      assert u1[..0] == [] && u2[..1] == u1 && u3[..2] == u2;
      assert Occurrences(u1, Closed(c)) == 0;
      assert Occurrences(u2, Closed(c)) == if c == k then 1 else 0;
      assert Occurrences(u3, Closed(c)) == if c == k then 1 else 0;
      CompletionClosesOnce(k - 1, c);
      OccurrencesAppend(CompletionEvents(k - 1), u3, Closed(c));
    }
  }

  /**
   * Channel c is closed exactly once for 1 <= c <= n, and never otherwise;
   * in particular channel 0 is never closed.
   */
  lemma ScheduleClosesOnce(n: nat, c: nat)
    ensures Occurrences(Schedule(n), Closed(c)) == if 1 <= c <= n then 1 else 0
  {
    LaunchEventsClose(n, c);
    CompletionClosesOnce(n, c);
    OccurrencesAppend(LaunchEvents(n), CompletionEvents(n), Closed(c));
  }

  /** In the completion phase, a close at position q comes right after the return of the channel's writer. */
  lemma {:induction false} CompletionCloseAt(k: nat, q: nat)
    requires q < |CompletionEvents(k)| && CompletionEvents(k)[q].Closed?
    ensures 1 <= CompletionEvents(k)[q].channel <= k && q > 0
    ensures CompletionEvents(k)[q - 1] == Returned(CompletionEvents(k)[q].channel - 1)
  {
    var prev := CompletionEvents(k - 1);
    var t := CompletionEvents(k);
    assert t == prev + [Returned(k - 1), Closed(k), Finished(k - 1)];
    if q < |prev| {
      assert t[q] == prev[q];
      CompletionCloseAt(k - 1, q);
      assert t[q - 1] == prev[q - 1];
    } else {
      assert q == |prev| + 1;
    }
  }

  /** Every close comes straight after the return of the job that writes that channel. */
  lemma CloseFollowsReturn(n: nat)
    ensures forall p :: 0 <= p < |Schedule(n)| && Schedule(n)[p].Closed? ==>
      var c := Schedule(n)[p].channel;
      1 <= c <= n && p > 0 && Schedule(n)[p - 1] == Returned(c - 1)
  {
    LaunchEventsAt(n);
    var s, t := Schedule(n), CompletionEvents(n);
    forall p | 0 <= p < |s| && s[p].Closed?
      ensures 1 <= s[p].channel <= n && p > 0 && s[p - 1] == Returned(s[p].channel - 1)
    {
      assert p >= n;
      assert s[p] == t[p - n];
      CompletionCloseAt(n, p - n);
      assert s[p - 1] == t[p - n - 1];
    }
  }

  /** What the running goroutines share: what was sent on each channel, close counts, events, the counter. */
  datatype Progress = Progress(sent: seq<seq<Payload>>, closes: seq<nat>, trace: seq<Event>, pending: nat)

  /**
   * The body of the goroutine launched for job idx: run the job on its input
   * channel, close its output channel, and lower the counter. A job that
   * panics never returns, so nothing after it happens.
   */
  method RunJob(job: Job, idx: nat, w: Wiring, p: Progress) returns (result: StageResult, q: Progress)
    requires w.input < |p.sent| && w.output < |p.sent| == |p.closes|
    requires p.pending >= 1 && p.pending == Pending(p.trace)
    ensures result == job(p.sent[w.input])
    ensures result.Panic? ==> q == p
    ensures result.Done? ==>
      && q.sent == p.sent[w.output := result.out]
      && q.closes == p.closes[w.output := p.closes[w.output] + 1]
      && q.trace == p.trace + [Returned(idx), Closed(w.output), Finished(idx)]
      && q.pending == p.pending - 1 == Pending(q.trace)
  {
    result := job(p.sent[w.input]);
    q := p;
    if result.Done? {
      var events := [Returned(idx), Closed(w.output), Finished(idx)];
      PendingAppend(p.trace, events);
      PendingOfCompletion(idx, w.output);
      q := Progress(p.sent[w.output := result.out], p.closes[w.output := p.closes[w.output] + 1],
                    p.trace + events, p.pending - 1);
    }
  }

  /** The launch loop of ExecutePipeline: wg.Add(1) and a goroutine bound to channels idx and idx + 1. */
  method LaunchJobs(n: nat) returns (wiring: seq<Wiring>, trace: seq<Event>, pending: nat)
    ensures |wiring| == n && forall i :: 0 <= i < n ==> wiring[i] == Wiring(i, i + 1)
    ensures trace == LaunchEvents(n)
    ensures pending == Pending(trace) == n
  {
    wiring, trace, pending := [], [], 0;
    var idx := 0;
    while idx < n
      invariant 0 <= idx <= n
      invariant |wiring| == idx && forall i :: 0 <= i < idx ==> wiring[i] == Wiring(i, i + 1)
      invariant trace == LaunchEvents(idx)
      invariant pending == Pending(trace) == idx
    {
      PendingAppend(trace, [Launched(idx)]);
      assert Pending([Launched(idx)]) == 1 by {
        assert [Launched(idx)][..0] == [];
      }
      pending := pending + 1;
      wiring := wiring + [Wiring(idx, idx + 1)];
      trace := trace + [Launched(idx)];
      idx := idx + 1;
    }
  }

  /** The state once jobs 0 .. idx - 1 have run, had their outputs closed and finished. */
  ghost predicate Reached(jobs: seq<Job>, p: Progress, idx: nat) {
    && idx <= |jobs| && |p.sent| == |p.closes| > |jobs|
    && (forall k :: 0 <= k <= idx ==> Stream(jobs, k).Done? && p.sent[k] == Stream(jobs, k).out)
    && (forall k :: idx < k < |p.sent| ==> p.sent[k] == [])
    && (forall k :: 0 <= k < |p.sent| ==> p.closes[k] == if 1 <= k <= idx then 1 else 0)
    && p.trace == LaunchEvents(|jobs|) + CompletionEvents(idx)
    && p.pending == Pending(p.trace) == |jobs| - idx
  }

  lemma ReachedStep(jobs: seq<Job>, p: Progress, idx: nat, out: seq<Payload>, q: Progress)
    requires Reached(jobs, p, idx) && idx < |jobs|
    requires jobs[idx](p.sent[idx]) == Done(out)
    requires q.sent == p.sent[idx + 1 := out]
    requires q.closes == p.closes[idx + 1 := p.closes[idx + 1] + 1]
    requires q.trace == p.trace + [Returned(idx), Closed(idx + 1), Finished(idx)]
    requires q.pending == p.pending - 1 == Pending(q.trace)
    ensures Reached(jobs, q, idx + 1)
  {
    assert Stream(jobs, idx + 1) == Done(out);
  }

  /** A job that panics on the stream it was given ends the sequential run with that panic. */
  lemma PanicStops(jobs: seq<Job>, idx: nat)
    requires idx < |jobs| && Stream(jobs, idx).Done?
    requires jobs[idx](Stream(jobs, idx).out).Panic?
    ensures Stream(jobs, |jobs|).Panic?
  {
    assert Stream(jobs, idx + 1).Panic?;
    PanicPersists(jobs, idx + 1, |jobs|);
  }

  /**
   * The launched goroutines, run in data-flow order until all have finished
   * (wg.Wait()) or one has panicked, which ends the process.
   */
  method AwaitJobs(jobs: seq<Job>, wiring: seq<Wiring>, p0: Progress) returns (failure: StageResult, p: Progress)
    requires |wiring| == |jobs| && forall i :: 0 <= i < |jobs| ==> wiring[i] == Wiring(i, i + 1)
    requires Reached(jobs, p0, 0)
    ensures failure.Panic? ==>
      exists j :: 0 <= j < |jobs| && Stream(jobs, j).Done? && jobs[j](Stream(jobs, j).out) == failure
    ensures failure.Panic? <==> Stream(jobs, |jobs|).Panic?
    ensures failure.Done? ==> Reached(jobs, p, |jobs|) && |p.sent| == |p0.sent|
  {
    p := p0;
    failure := Done([]);
    var idx := 0;
    while idx < |jobs|
      invariant Reached(jobs, p, idx) && |p.sent| == |p0.sent|
    {
      var result, q := RunJob(jobs[idx], idx, wiring[idx], p);
      if result.Panic? {
        failure := result;
        assert Stream(jobs, idx).Done? && p.sent[idx] == Stream(jobs, idx).out;
        PanicStops(jobs, idx);
        return;
      }
      ReachedStep(jobs, p, idx, result.out, q);
      p := q;
      idx := idx + 1;
    }
  }

  /** The capacities createChannels lays out for numJobs jobs. */
  ghost predicate Layout(channels: seq<Channel>, numJobs: nat, maxInputs: nat) {
    && |channels| == (if numJobs >= 1 then numJobs + 1 else 2)
    && channels[0].capacity == 0 && channels[|channels| - 1].capacity == 0
    && forall k :: 0 < k < |channels| - 1 ==> channels[k].capacity == maxInputs
  }

  /**
   * Each channel carries what its writer produced from the stream before it
   * (channel 0 carries nothing) and was closed once if a job writes it, never otherwise.
   */
  ghost predicate Delivered(jobs: seq<Job>, channels: seq<Channel>) {
    && |channels| > |jobs|
    && (forall k :: 0 <= k <= |jobs| ==> Stream(jobs, k).Done? && channels[k].items == Stream(jobs, k).out)
    && (forall k :: |jobs| < k < |channels| ==> channels[k].items == [])
    && (forall k :: 0 <= k < |channels| ==> channels[k].closes == if 1 <= k <= |jobs| then 1 else 0)
  }

  /** Job i reads channel i and writes channel i + 1, so each job's output is the next job's input. */
  ghost predicate Chained(wiring: seq<Wiring>, n: nat) {
    && |wiring| == n
    && (forall i :: 0 <= i < n ==> wiring[i] == Wiring(i, i + 1))
    && (forall i :: 0 <= i < n - 1 ==> wiring[i].output == wiring[i + 1].input)
  }

  /** The channels once the run is over: what was sent on each, and how often it was closed. */
  function Settle(channels: seq<Channel>, p: Progress): (r: seq<Channel>)
    requires |p.sent| == |p.closes| == |channels|
    ensures |r| == |channels|
    ensures forall k :: 0 <= k < |r| ==> r[k] == channels[k].(items := p.sent[k], closes := p.closes[k])
  {
    seq(|channels|, k requires 0 <= k < |channels| => channels[k].(items := p.sent[k], closes := p.closes[k]))
  }

  /** Before any job has run: nothing sent, nothing closed, every job launched. */
  lemma StartReached(jobs: seq<Job>, p: Progress)
    requires |p.sent| == |p.closes| > |jobs|
    requires forall k :: 0 <= k < |p.sent| ==> p.sent[k] == [] && p.closes[k] == 0
    requires p.trace == LaunchEvents(|jobs|) && p.pending == Pending(p.trace) == |jobs|
    ensures Reached(jobs, p, 0)
  {
    assert p.trace == LaunchEvents(|jobs|) + CompletionEvents(0);
  }

  /** Settling the channels keeps the capacities createChannels gave them. */
  lemma SettleLayout(channels: seq<Channel>, p: Progress, numJobs: nat, maxInputs: nat)
    requires Layout(channels, numJobs, maxInputs)
    requires |p.sent| == |p.closes| == |channels|
    ensures Layout(Settle(channels, p), numJobs, maxInputs)
  {
    var r := Settle(channels, p);
    assert forall k :: 0 <= k < |r| ==> r[k].capacity == channels[k].capacity;
  }

  /** Once every job has run, the settled channels carry the streams of the sequential run. */
  lemma SettleDelivers(jobs: seq<Job>, channels: seq<Channel>, p: Progress)
    requires Reached(jobs, p, |jobs|) && |p.sent| == |channels|
    ensures Delivered(jobs, Settle(channels, p))
  {
    var r := Settle(channels, p);
    assert forall k :: 0 <= k < |r| ==> r[k].items == p.sent[k] && r[k].closes == p.closes[k];
  }

  /** What wg.Wait() returns to once every job has finished: the facts ExecutePipeline promises. */
  lemma AllFinished(jobs: seq<Job>, channels: seq<Channel>, wiring: seq<Wiring>, p: Progress)
    requires Layout(channels, |jobs|, MaxInputs)
    requires |wiring| == |jobs| && forall i :: 0 <= i < |jobs| ==> wiring[i] == Wiring(i, i + 1)
    requires Reached(jobs, p, |jobs|) && |p.sent| == |channels|
    ensures Stream(jobs, |jobs|).Done?
    ensures Layout(Settle(channels, p), |jobs|, MaxInputs)
    ensures Delivered(jobs, Settle(channels, p))
    ensures Chained(wiring, |jobs|)
    ensures p.trace == Schedule(|jobs|) && p.pending == Pending(p.trace) == 0
  {
    ScheduleBalanced(|jobs|);
    SettleLayout(channels, p, |jobs|, MaxInputs);
    SettleDelivers(jobs, channels, p);
  }

  /**
   * ExecutePipeline: lays out the channels, launches every job bound to
   * (channels[idx], channels[idx + 1]) with the counter raised once per job,
   * and returns once every job has returned, had its output closed and
   * lowered the counter back to zero. A panicking job aborts the whole run.
   */
  method ExecutePipeline(jobs: seq<Job>) returns (r: Execution)
    ensures r.Aborted? ==>
      r.job < |jobs| && Stream(jobs, r.job).Done? &&
      jobs[r.job](Stream(jobs, r.job).out) == Panic(r.message)
    ensures r.Completed? <==> Stream(jobs, |jobs|).Done?
    ensures r.Completed? ==>
      && Layout(r.channels, |jobs|, MaxInputs)
      && Delivered(jobs, r.channels)
      && Chained(r.wiring, |jobs|)
      && r.trace == Schedule(|jobs|)
      && r.pending == Pending(r.trace) == 0
  {
    var channels := CreateChannels(|jobs|, MaxInputs);
    assert Layout(channels, |jobs|, MaxInputs);
    var wiring, trace, pending := LaunchJobs(|jobs|);
    var p0 := Progress(seq(|channels|, k => []), seq(|channels|, k => 0), trace, pending);
    StartReached(jobs, p0);
    var failure, p := AwaitJobs(jobs, wiring, p0);
    if failure.Panic? {
      var j :| 0 <= j < |jobs| && Stream(jobs, j).Done? && jobs[j](Stream(jobs, j).out) == failure;
      return Aborted(j, failure.message);
    }
    AllFinished(jobs, channels, wiring, p);
    r := Completed(Settle(channels, p), wiring, p.trace, p.pending);
  }
}
