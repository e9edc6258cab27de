/** Detections in, results out: the service's shared state and its threads (AnalysisService). */
module AnalysisService {
  import opened Options
  import opened Results

  const COOLDOWN: int := 300000
  const MAX_DEPTH: nat := 6
  const WORKERS: nat := 2

  /** content stands for everything the model does not look into. */
  datatype Detection = Detection(freq: real, content: nat)

  /** The 100 kHz bucket of a frequency; the conversion to an integer drops the fraction. */
  function Bucket(freq: real): int {
    if freq >= 0.0 then (freq / 100000.0).Floor else -((-freq / 100000.0).Floor)
  }

  // ----- the state under the service's mutex, and the critical sections

  datatype Core = Core(
    running: bool, queue: seq<Detection>, stamps: map<int, int>, results: map<int, AnalysisResult>)

  datatype Verdict = Suppressed | Dropped | Enqueued

  function VerdictFor(c: Core, d: Detection, now: int): Verdict {
    var b := Bucket(d.freq);
    if b in c.stamps && now - c.stamps[b] < COOLDOWN then Suppressed
    else if |c.queue| < MAX_DEPTH then Enqueued
    else Dropped
  }

  /** A detection that is not suppressed is stamped, whether or not the queue has room for it. */
  function AfterDetection(c: Core, d: Detection, now: int): Core {
    match VerdictFor(c, d, now)
    case Suppressed => c
    case Dropped => c.(stamps := c.stamps[Bucket(d.freq) := now])
    case Enqueued => c.(stamps := c.stamps[Bucket(d.freq) := now], queue := c.queue + [d])
  }

  /** What a worker does when its wait for work ends. */
  datatype Next = Exit | Retry | Take(detection: Detection)

  function NextFor(c: Core): Next {
    if c.queue != [] then Take(c.queue[0]) else if c.running then Retry else Exit
  }

  function AfterNext(c: Core): Core {
    if c.queue != [] then c.(queue := c.queue[1..]) else c
  }

  function AfterPublish(c: Core, r: AnalysisResult): Core {
    c.(results := c.results[Bucket(r.freq) := r])
  }

  datatype Kind = RequestDemod | StartDemodStream | StopDemodStream

  datatype Command = Command(kind: Kind, freq: real, streamId: string)

  datatype Forward =
    | StopStream(streamId: string)
    | Demodulate(kind: Kind, result: AnalysisResult, modulation: string, streamId: string)

  /** What a demodulation command sends on, if anything. */
  function ForwardFor(c: Core, m: Command): Option<Forward> {
    if m.kind.StopDemodStream? then (if m.streamId == "" then None else Some(StopStream(m.streamId)))
    else if m.freq <= 0.0 || Bucket(m.freq) !in c.results then None
    else
      var r := c.results[Bucket(m.freq)];
      if r.Modulation() == "" then None else Some(Demodulate(m.kind, r, r.Modulation(), m.streamId))
  }

  class AnalysisService {
    var running: bool
    var queue: seq<Detection>
    var recentAnalyzed: map<int, int>
    var recentResults: map<int, AnalysisResult>
    /** Commands sent on to the demodulator, oldest first. */
    var forwarded: seq<Forward>

    ghost function View(): Core
      reads this
    {
      Core(running, queue, recentAnalyzed, recentResults)
    }

    constructor ()
      ensures View() == Core(true, [], map[], map[]) && forwarded == []
    {
      running := true;
      queue := [];
      recentAnalyzed := map[];
      recentResults := map[];
      forwarded := [];
    }

    /** One detection from the broker; now is whatever the clock says. */
    method OnDetection(d: Detection, now: int)
      modifies this
      ensures View() == AfterDetection(old(View()), d, now) && forwarded == old(forwarded)
    {
      var bucket := Bucket(d.freq);
      if bucket in recentAnalyzed && now - recentAnalyzed[bucket] < COOLDOWN {
        return;
      }
      recentAnalyzed := recentAnalyzed[bucket := now];
      if |queue| < MAX_DEPTH {
        queue := queue + [d];
      }
    }

    /** A worker's turn in the mutex once its wait has ended. */
    method NextDetection() returns (next: Next)
      modifies this
      ensures next == NextFor(old(View())) && View() == AfterNext(old(View())) && forwarded == old(forwarded)
    {
      if !running && queue == [] {
        return Exit;
      }
      if queue == [] {
        return Retry;
      }
      next := Take(queue[0]);
      queue := queue[1..];
    }

    method CacheResult(r: AnalysisResult)
      modifies this
      ensures View() == AfterPublish(old(View()), r) && forwarded == old(forwarded)
    {
      recentResults := recentResults[Bucket(r.freq) := r];
    }

    method OnDemodCommand(m: Command)
      modifies this
      ensures View() == old(View())
      ensures forwarded == old(forwarded) + match ForwardFor(View(), m) { case None => [] case Some(f) => [f] }
      // stopping a stream looks up no result
      ensures m.kind.StopDemodStream? ==>
                forwarded == old(forwarded) + if m.streamId == "" then [] else [StopStream(m.streamId)]
    {
      if m.kind.StopDemodStream? {
        if m.streamId == "" {
          return;
        }
        forwarded := forwarded + [StopStream(m.streamId)];
        return;
      }
      if m.freq <= 0.0 {
        return;
      }
      var bucket := Bucket(m.freq);
      if bucket !in recentResults {
        return;
      }
      var result := recentResults[bucket];
      var modulation := if result.digital == "" then result.analog else result.digital;
      if modulation == "" {
        return;
      }
      forwarded := forwarded + [Demodulate(m.kind, result, modulation, m.streamId)];
    }

    method Stop()
      modifies this
      ensures View() == old(View()).(running := false) && forwarded == old(forwarded)
    {
      running := false;
    }
  }

  // ----- every interleaving of the subscriber, the workers, the commands and stop

  datatype Phase = AtTop | Waiting | Processing(detection: Detection) | Exited

  datatype Event =
    | Detected(d: Detection, now: int)
    | TestRunning(w: nat)
    | WaitEnded(w: nat)
    | Published(w: nat, r: AnalysisResult)
    | Unpublished(w: nat)
    | Commanded(m: Command)
    | StopCalled

  datatype Stamp = Stamp(bucket: int, time: int, verdict: Verdict)

  /**
   What has happened so far, for stating properties; no step reads it. Since stop was called: left is
   the queue it found and waiting how many workers it found waiting; since are the detections admitted
   afterwards, lateTakes those taken afterwards, and lastTakes how many of these each worker took.
   */
  datatype History = History(
    received: seq<Detection>, suppressed: seq<Detection>, dropped: seq<Detection>, admitted: seq<Detection>,
    taken: seq<Detection>, stamps: seq<Stamp>, published: seq<AnalysisResult>, lastTakes: seq<nat>,
    left: seq<Detection>, waiting: nat, since: seq<Detection>, lateTakes: seq<Detection>)

  datatype World = World(core: Core, phases: seq<Phase>, history: History)

  const START := World(
    Core(true, [], map[], map[]), [AtTop, AtTop], History([], [], [], [], [], [], [], [0, 0], [], 0, [], []))

  ghost predicate Enabled(s: World, e: Event) {
    && |s.phases| == WORKERS
    && match e
       case TestRunning(w) => w < WORKERS && s.phases[w].AtTop?
       case WaitEnded(w) => w < WORKERS && s.phases[w].Waiting?
       case Published(w, r) => w < WORKERS && s.phases[w].Processing? && r.freq == s.phases[w].detection.freq
       case Unpublished(w) => w < WORKERS && s.phases[w].Processing?
       case _ => true
  }

  function Remember(h: History, d: Detection, now: int, v: Verdict, running: bool): History {
    var g := h.(received := h.received + [d]);
    match v
    case Suppressed => g.(suppressed := h.suppressed + [d])
    case Dropped => g.(dropped := h.dropped + [d], stamps := h.stamps + [Stamp(Bucket(d.freq), now, v)])
    case Enqueued =>
      g.(admitted := h.admitted + [d], stamps := h.stamps + [Stamp(Bucket(d.freq), now, v)],
         since := if running then h.since else h.since + [d])
  }

  /** How many workers are waiting for work. */
  function Waiters(phases: seq<Phase>): nat
    requires |phases| == WORKERS
  {
    (if phases[0].Waiting? then 1 else 0) + if phases[1].Waiting? then 1 else 0
  }

  function PhaseAfter(n: Next): Phase {
    match n case Exit => Exited case Retry => AtTop case Take(d) => Processing(d)
  }

  function TakeStep(s: World, w: nat): World
    requires w < |s.phases| && w < |s.history.lastTakes|
  {
    var next, h := NextFor(s.core), s.history;
    World(AfterNext(s.core), s.phases[w := PhaseAfter(next)],
          if next.Take? then
            h.(taken := h.taken + [next.detection],
               lateTakes := if s.core.running then h.lateTakes else h.lateTakes + [next.detection],
               lastTakes := if s.core.running then h.lastTakes else h.lastTakes[w := h.lastTakes[w] + 1])
          else h)
  }

  ghost function After(s: World, e: Event): World
    requires Enabled(s, e) && |s.history.lastTakes| == WORKERS
  {
    match e
    case Detected(d, now) =>
      World(AfterDetection(s.core, d, now), s.phases,
            Remember(s.history, d, now, VerdictFor(s.core, d, now), s.core.running))
    case TestRunning(w) => s.(phases := s.phases[w := if s.core.running then Waiting else Exited])
    case WaitEnded(w) => TakeStep(s, w)
    case Published(w, r) =>
      World(AfterPublish(s.core, r), s.phases[w := AtTop],
            s.history.(published := s.history.published + [r]))
    case Unpublished(w) => s.(phases := s.phases[w := AtTop])
    case Commanded(m) => s
    case StopCalled =>
      s.(core := s.core.(running := false),
         history := if !s.core.running then s.history
                    else s.history.(left := s.core.queue, waiting := Waiters(s.phases)))
  }

  /** run leads from the start to s. */
  ghost predicate Reaches(run: seq<Event>, s: World)
    decreases |run|
  {
    if run == [] then s == START
    else exists before ::
      Reaches(run[..|run| - 1], before) && |before.history.lastTakes| == WORKERS
      && Enabled(before, run[|run| - 1]) && s == After(before, run[|run| - 1])
  }

  // ----- what every reachable state satisfies

  /** No detection is lost or doubled between arriving, being refused, waiting and being taken. */
  ghost predicate Conserved(s: World) {
    var h := s.history;
    && Accounted(h)
    && h.admitted == h.taken + s.core.queue
    && |s.core.queue| <= MAX_DEPTH
  }

  ghost predicate Fits(s: World) {
    |s.phases| == WORKERS && |s.history.lastTakes| == WORKERS
  }

  /** Once stopped, a worker takes at most one more detection and does not wait again after it. */
  ghost predicate Stopping(s: World) {
    && Fits(s)
    && (forall w :: 0 <= w < WORKERS ==> s.history.lastTakes[w] <= 1)
    && (s.core.running ==> forall w :: 0 <= w < WORKERS ==> s.history.lastTakes[w] == 0)
    && (forall w :: 0 <= w < WORKERS && s.history.lastTakes[w] == 1 ==> !s.phases[w].Waiting?)
  }

  /**
   After stop: what it left, followed by what came since, is what was taken late, followed by the queue.
   Only workers it found waiting take late, each of them unless it finds the queue empty.
   */
  ghost predicate Winding(s: World) {
    var h := s.history;
    && Fits(s)
    && (s.core.running ==> h.since == [] && h.lateTakes == [])
    && (!s.core.running ==>
          && h.left + h.since == h.lateTakes + s.core.queue
          && |h.lateTakes| + Waiters(s.phases) <= h.waiting <= WORKERS
          && (h.since == [] && |h.lateTakes| + Waiters(s.phases) < h.waiting ==> s.core.queue == []))
  }

  /** The stamp times of one bucket, in the order they were set. */
  function TimesOf(stamps: seq<Stamp>, b: int): seq<int> {
    if stamps == [] then []
    else
      var n := |stamps| - 1;
      TimesOf(stamps[..n], b) + if stamps[n].bucket == b then [stamps[n].time] else []
  }

  ghost predicate Spaced(times: seq<int>) {
    forall i :: 0 < i < |times| ==> times[i] - times[i - 1] >= COOLDOWN
  }

  /** The map holds the bucket's last stamp, and its stamps are a cooldown apart. */
  ghost predicate BucketTracked(s: World, b: int) {
    var times := TimesOf(s.history.stamps, b);
    && Spaced(times)
    && (b in s.core.stamps <==> times != [])
    && (times != [] ==> s.core.stamps[b] == times[|times| - 1])
  }

  ghost predicate Tracked(s: World) {
    forall b :: BucketTracked(s, b)
  }

  /** The last result published in a bucket. */
  function LastIn(published: seq<AnalysisResult>, b: int): (r: Option<AnalysisResult>)
    ensures r.Some? ==> r.value in published && Bucket(r.value.freq) == b
  {
    if published == [] then None
    else
      var n := |published| - 1;
      if Bucket(published[n].freq) == b then Some(published[n]) else LastIn(published[..n], b)
  }

  ghost predicate BucketCached(s: World, b: int) {
    LastIn(s.history.published, b) == if b in s.core.results then Some(s.core.results[b]) else None
  }

  /** The cache is, bucket by bucket, the last result published there. */
  ghost predicate Cached(s: World) {
    forall b :: BucketCached(s, b)
  }

  ghost predicate HasFreq(ds: seq<Detection>, freq: real) {
    exists d :: d in ds && d.freq == freq
  }

  /** Every result belongs to a detection that was taken from the queue. */
  ghost predicate Sourced(s: World) {
    && (forall w :: 0 <= w < |s.phases| && s.phases[w].Processing? ==>
          HasFreq(s.history.taken, s.phases[w].detection.freq))
    && (forall k :: 0 <= k < |s.history.published| ==> HasFreq(s.history.taken, s.history.published[k].freq))
  }

  ghost predicate Sound(s: World) {
    Conserved(s) && Stopping(s) && Winding(s) && Tracked(s) && Cached(s) && Sourced(s)
  }

  /** Every detection received is in exactly one of the three lists. */
  ghost predicate Accounted(h: History) {
    multiset(h.received) == multiset(h.suppressed) + multiset(h.dropped) + multiset(h.admitted)
  }

  lemma RememberAccounts(h: History, d: Detection, now: int, v: Verdict, running: bool)
    requires Accounted(h)
    ensures Accounted(Remember(h, d, now, v, running))
  {
    assert multiset(h.received + [d]) == multiset(h.received) + multiset{d};
    match v
    case Suppressed => assert multiset(h.suppressed + [d]) == multiset(h.suppressed) + multiset{d};
    case Dropped => assert multiset(h.dropped + [d]) == multiset(h.dropped) + multiset{d};
    case Enqueued => assert multiset(h.admitted + [d]) == multiset(h.admitted) + multiset{d};
  }

  lemma DetectionConserves(s: World, d: Detection, now: int)
    requires Conserved(s)
    ensures Conserved(World(AfterDetection(s.core, d, now), s.phases,
                            Remember(s.history, d, now, VerdictFor(s.core, d, now), s.core.running)))
  {
    hide Bucket, Accounted;
    RememberAccounts(s.history, d, now, VerdictFor(s.core, d, now), s.core.running);
    var q := s.core.queue;
    assert s.history.taken + (q + [d]) == (s.history.taken + q) + [d];
  }

  lemma TakeConserves(s: World, w: nat)
    requires Conserved(s) && Fits(s) && w < WORKERS
    ensures Conserved(TakeStep(s, w))
  {
    var q := s.core.queue;
    if q != [] {
      assert q == [q[0]] + q[1..];
    }
  }

  lemma ConservedStep(s: World, e: Event)
    requires Fits(s) && Conserved(s) && Enabled(s, e)
    ensures Conserved(After(s, e))
  {
    hide VerdictFor, Bucket, AfterDetection, Remember, TakeStep;
    if e.Detected? {
      DetectionConserves(s, e.d, e.now);
    } else if e.WaitEnded? {
      TakeConserves(s, e.w);
    }
  }

  lemma TakeStops(s: World, w: nat)
    requires Stopping(s) && w < WORKERS && s.phases[w].Waiting?
    ensures Stopping(TakeStep(s, w))
  {
  }

  lemma StoppingStep(s: World, e: Event)
    requires Stopping(s) && Enabled(s, e)
    ensures Stopping(After(s, e))
  {
    hide VerdictFor, Bucket, TakeStep;
    if e.WaitEnded? {
      TakeStops(s, e.w);
    }
  }

  lemma DetectionWinds(s: World, d: Detection, now: int)
    requires Winding(s)
    ensures Winding(World(AfterDetection(s.core, d, now), s.phases,
                          Remember(s.history, d, now, VerdictFor(s.core, d, now), s.core.running)))
  {
    hide Bucket;
    var h, q := s.history, s.core.queue;
    assert h.left + (h.since + [d]) == (h.left + h.since) + [d];
    assert h.lateTakes + (q + [d]) == (h.lateTakes + q) + [d];
  }

  lemma TakeWinds(s: World, w: nat)
    requires Winding(s) && w < WORKERS && s.phases[w].Waiting?
    ensures Winding(TakeStep(s, w))
  {
    var q := s.core.queue;
    if q != [] {
      assert q == [q[0]] + q[1..];
      assert (s.history.lateTakes + [q[0]]) + q[1..] == s.history.lateTakes + q;
    }
  }

  lemma WindingStep(s: World, e: Event)
    requires Winding(s) && Enabled(s, e)
    ensures Winding(After(s, e))
  {
    hide VerdictFor, Bucket, AfterDetection, Remember, TakeStep;
    if e.Detected? {
      DetectionWinds(s, e.d, e.now);
    } else if e.WaitEnded? {
      TakeWinds(s, e.w);
    }
  }

  lemma TimesStep(stamps: seq<Stamp>, st: Stamp, b: int)
    ensures TimesOf(stamps + [st], b) == TimesOf(stamps, b) + if st.bucket == b then [st.time] else []
  {
    assert (stamps + [st])[..|stamps|] == stamps;
  }

  lemma SpacedStep(times: seq<int>, t: int)
    requires Spaced(times) && (times != [] ==> t - times[|times| - 1] >= COOLDOWN)
    ensures Spaced(times + [t])
  {
  }

  lemma StampStep(s: World, d: Detection, now: int, b: int)
    requires BucketTracked(s, Bucket(d.freq)) && BucketTracked(s, b) && VerdictFor(s.core, d, now) != Suppressed
    ensures var st := Stamp(Bucket(d.freq), now, VerdictFor(s.core, d, now));
            BucketTracked(s.(core := AfterDetection(s.core, d, now),
                             history := s.history.(stamps := s.history.stamps + [st])), b)
  {
    hide Bucket, Spaced, TimesOf;
    var times := TimesOf(s.history.stamps, b);
    TimesStep(s.history.stamps, Stamp(Bucket(d.freq), now, VerdictFor(s.core, d, now)), b);
    if Bucket(d.freq) == b {
      SpacedStep(times, now);
    } else {
      assert times + [] == times;
    }
  }

  lemma TrackedStep(s: World, e: Event)
    requires Fits(s) && Tracked(s) && Enabled(s, e)
    ensures Tracked(After(s, e))
  {
    hide Bucket, Spaced, TimesOf;
    forall b
      ensures BucketTracked(After(s, e), b)
    {
      assert BucketTracked(s, b);
      if e.Detected? && VerdictFor(s.core, e.d, e.now) != Suppressed {
        assert BucketTracked(s, Bucket(e.d.freq));
        StampStep(s, e.d, e.now, b);
      }
    }
  }

  lemma LastStep(p: seq<AnalysisResult>, r: AnalysisResult, b: int)
    ensures LastIn(p + [r], b) == if Bucket(r.freq) == b then Some(r) else LastIn(p, b)
  {
    assert (p + [r])[..|p|] == p;
  }

  lemma CachedStep(s: World, e: Event)
    requires Fits(s) && Cached(s) && Enabled(s, e)
    ensures Cached(After(s, e))
  {
    hide Bucket, LastIn;
    forall b
      ensures BucketCached(After(s, e), b)
    {
      assert BucketCached(s, b);
      if e.Published? {
        LastStep(s.history.published, e.r, b);
      }
    }
  }

  lemma SourcedStep(s: World, e: Event)
    requires Fits(s) && Sourced(s) && Enabled(s, e)
    ensures Sourced(After(s, e))
  {
    var t := After(s, e);
    forall f | HasFreq(s.history.taken, f)
      ensures HasFreq(t.history.taken, f)
    {
      var d :| d in s.history.taken && d.freq == f;
      assert d in t.history.taken;
    }
    if e.WaitEnded? && s.core.queue != [] {
      assert s.core.queue[0] in t.history.taken;
      assert HasFreq(t.history.taken, s.core.queue[0].freq);
    }
  }

  lemma StartSound()
    ensures Sound(START)
  {
    forall b
      ensures BucketTracked(START, b) && BucketCached(START, b)
    {
    }
  }

  /** Conservation, FIFO order, the queue bound, the stop bound, spacing and the cache hold in every run. */
  lemma {:induction false} EveryRunSound(run: seq<Event>, s: World)
    requires Reaches(run, s)
    ensures Sound(s)
    decreases |run|
  {
    hide Conserved, Stopping, Winding, Tracked, Cached, Sourced, After, Enabled;
    if run == [] {
      StartSound();
    } else {
      var e := run[|run| - 1];
      var before :| Reaches(run[..|run| - 1], before) && |before.history.lastTakes| == WORKERS
                    && Enabled(before, e) && s == After(before, e);
      EveryRunSound(run[..|run| - 1], before);
      StepSound(before, e);
    }
  }

  lemma StepSound(s: World, e: Event)
    requires Sound(s) && |s.history.lastTakes| == WORKERS && Enabled(s, e)
    ensures Sound(After(s, e))
  {
    assert Fits(s);
    hide Conserved, Stopping, Winding, Tracked, Cached, Sourced, After;
    ConservedStep(s, e);
    StoppingStep(s, e);
    WindingStep(s, e);
    TrackedStep(s, e);
    CachedStep(s, e);
    SourcedStep(s, e);
  }

  // ----- consequences

  /** In every run each detection received is accounted for once, and detections are taken in order. */
  lemma NothingLost(run: seq<Event>, s: World)
    requires Reaches(run, s)
    ensures |s.history.received| == |s.history.suppressed| + |s.history.dropped| + |s.history.admitted|
    ensures s.history.taken <= s.history.admitted && s.history.admitted[|s.history.taken|..] == s.core.queue
    ensures |s.core.queue| <= MAX_DEPTH
  {
    EveryRunSound(run, s);
    var h := s.history;
    assert |multiset(h.received)| == |multiset(h.suppressed)| + |multiset(h.dropped)| + |multiset(h.admitted)|;
  }

  /** In every run stamps i and j of a bucket are j - i cooldowns apart, whatever the clock did. */
  lemma StampSpacing(run: seq<Event>, s: World, b: int, i: nat, j: nat)
    requires Reaches(run, s) && i <= j < |TimesOf(s.history.stamps, b)|
    ensures TimesOf(s.history.stamps, b)[j] - TimesOf(s.history.stamps, b)[i] >= COOLDOWN * (j - i)
  {
    EveryRunSound(run, s);
    assert BucketTracked(s, b);
    StampsApart(TimesOf(s.history.stamps, b), i, j);
  }

  /** In a spaced sequence, entries i and j are j - i cooldowns apart. */
  lemma {:induction false} StampsApart(times: seq<int>, i: nat, j: nat)
    requires Spaced(times) && i <= j < |times|
    ensures times[j] - times[i] >= COOLDOWN * (j - i)
    decreases j
  {
    if i == j {
    } else {
      StampsApart(times, i, j - 1);
    }
  }

  function CountWithin(times: seq<int>, lo: int, hi: int): nat {
    if times == [] then 0
    else
      var n := |times| - 1;
      CountWithin(times[..n], lo, hi) + if lo <= times[n] <= hi then 1 else 0
  }

  lemma {:induction false} NoneBelow(times: seq<int>, lo: int, hi: int)
    requires Spaced(times) && times != [] && times[|times| - 1] < lo
    ensures CountWithin(times, lo, hi) == 0
  {
    var n := |times| - 1;
    if n == 0 {
    } else {
      NoneBelow(times[..n], lo, hi);
    }
  }

  lemma {:induction false} CountUpTo(times: seq<int>, lo: int, hi: int, last: int)
    requires forall i :: 0 <= i < |times| ==> times[i] <= last
    requires last <= hi
    ensures CountWithin(times, lo, hi) == CountWithin(times, lo, last)
  {
    if times == [] {
    } else {
      CountUpTo(times[..|times| - 1], lo, hi, last);
    }
  }

  lemma {:induction false} LastIsLatest(times: seq<int>)
    requires Spaced(times) && times != []
    ensures forall i :: 0 <= i < |times| ==> times[i] <= times[|times| - 1]
  {
    forall i | 0 <= i < |times|
      ensures times[i] <= times[|times| - 1]
    {
      StampsApart(times, i, |times| - 1);
    }
  }

  /** A window of the clock of length hi - lo holds at most (hi - lo) / COOLDOWN + 1 stamps of a bucket. */
  lemma {:induction false} WindowBound(times: seq<int>, lo: int, hi: int)
    requires Spaced(times) && lo <= hi
    ensures CountWithin(times, lo, hi) * COOLDOWN <= hi - lo + COOLDOWN
    decreases |times|
  {
    if times == [] {
    } else {
      var n := |times| - 1;
      var rest, t := times[..n], times[n];
      assert Spaced(rest);
      if t < lo {
        NoneBelow(times, lo, hi);
      } else if t > hi {
        WindowBound(rest, lo, hi);
      } else if n > 0 {
        LastIsLatest(rest);
        if t - COOLDOWN < lo {
          NoneBelow(rest, lo, hi);
        } else {
          CountUpTo(rest, lo, hi, t - COOLDOWN);
          WindowBound(rest, lo, t - COOLDOWN);
        }
      }
    }
  }

  /** The stamps that put a detection into the queue. */
  function AdmittedTimes(stamps: seq<Stamp>, b: int): seq<int> {
    if stamps == [] then []
    else
      var n := |stamps| - 1;
      AdmittedTimes(stamps[..n], b)
      + if stamps[n].bucket == b && stamps[n].verdict == Enqueued then [stamps[n].time] else []
  }

  lemma {:induction false} AdmittedBelowStamped(stamps: seq<Stamp>, b: int, lo: int, hi: int)
    ensures CountWithin(AdmittedTimes(stamps, b), lo, hi) <= CountWithin(TimesOf(stamps, b), lo, hi)
  {
    if stamps == [] {
    } else {
      var n := |stamps| - 1;
      AdmittedBelowStamped(stamps[..n], b, lo, hi);
      CountStep(AdmittedTimes(stamps[..n], b), stamps[n].time, lo, hi);
      CountStep(TimesOf(stamps[..n], b), stamps[n].time, lo, hi);
    }
  }

  lemma CountStep(times: seq<int>, t: int, lo: int, hi: int)
    ensures CountWithin(times + [t], lo, hi) == CountWithin(times, lo, hi) + if lo <= t <= hi then 1 else 0
    ensures times + [] == times
  {
    assert (times + [t])[..|times|] == times;
  }

  /** In every run, a bucket is analysed at most once per cooldown, by the readings of the clock. */
  lemma AdmissionRate(run: seq<Event>, s: World, b: int, lo: int, hi: int)
    requires Reaches(run, s) && lo <= hi
    ensures CountWithin(AdmittedTimes(s.history.stamps, b), lo, hi) <= (hi - lo) / COOLDOWN + 1
  {
    EveryRunSound(run, s);
    assert BucketTracked(s, b);
    WindowBound(TimesOf(s.history.stamps, b), lo, hi);
    AdmittedBelowStamped(s.history.stamps, b, lo, hi);
  }

  lemma {:induction false} StampListed(stamps: seq<Stamp>, k: nat)
    requires k < |stamps|
    ensures stamps[k].time in TimesOf(stamps, stamps[k].bucket)
  {
    if k == |stamps| - 1 {
    } else {
      StampListed(stamps[..|stamps| - 1], k);
    }
  }

  /**
   A detection dropped because the queue was full still silences its bucket: until a cooldown has
   passed on the clock since it, every further detection of the bucket is suppressed.
   */
  lemma DroppedSilencesBucket(run: seq<Event>, s: World, k: nat, d: Detection, now: int)
    requires Reaches(run, s) && k < |s.history.stamps| && s.history.stamps[k].verdict == Dropped
    requires Bucket(d.freq) == s.history.stamps[k].bucket && now < s.history.stamps[k].time + COOLDOWN
    ensures VerdictFor(s.core, d, now) == Suppressed
  {
    hide *;
    EveryRunSound(run, s);
    StampListed(s.history.stamps, k);
    StampedSince(s, s.history.stamps[k].bucket, s.history.stamps[k].time);
    SuppressedWithin(s.core, d, now, s.history.stamps[k].time);
  }

  lemma StampedSince(s: World, b: int, t: int)
    requires Sound(s) && t in TimesOf(s.history.stamps, b)
    ensures b in s.core.stamps && s.core.stamps[b] >= t
  {
    hide Spaced, TimesOf;
    assert BucketTracked(s, b);
    LastIsLatest(TimesOf(s.history.stamps, b));
  }

  lemma SuppressedWithin(c: Core, d: Detection, now: int, t: int)
    requires Bucket(d.freq) in c.stamps && c.stamps[Bucket(d.freq)] >= t && now < t + COOLDOWN
    ensures VerdictFor(c, d, now) == Suppressed
  {
  }

  ghost predicate LastOfBucket(stamps: seq<Stamp>, k: nat) {
    k < |stamps| && forall j :: k < j < |stamps| ==> stamps[j].bucket != stamps[k].bucket
  }

  lemma {:induction false} LastTime(stamps: seq<Stamp>, k: nat)
    requires LastOfBucket(stamps, k)
    ensures var times := TimesOf(stamps, stamps[k].bucket);
            times != [] && times[|times| - 1] == stamps[k].time
  {
    if k == |stamps| - 1 {
    } else {
      LastTime(stamps[..|stamps| - 1], k);
    }
  }

  /**
   Exactly when the bucket speaks again: what a detection meets is decided by the bucket's last stamp,
   dropped or not. Within a cooldown of it the detection is suppressed; afterwards the queue decides.
   */
  lemma LastStampDecides(run: seq<Event>, s: World, k: nat, d: Detection, now: int)
    requires Reaches(run, s) && LastOfBucket(s.history.stamps, k) && Bucket(d.freq) == s.history.stamps[k].bucket
    ensures VerdictFor(s.core, d, now) == Suppressed <==> now < s.history.stamps[k].time + COOLDOWN
    ensures VerdictFor(s.core, d, now) == Enqueued <==>
            now >= s.history.stamps[k].time + COOLDOWN && |s.core.queue| < MAX_DEPTH
  {
    assert k < |s.history.stamps|;
    hide *;
    EveryRunSound(run, s);
    LastTime(s.history.stamps, k);
    LastStampKept(s, s.history.stamps[k].bucket, s.history.stamps[k].time);
    StampDecides(s.core, d, now, s.history.stamps[k].time);
  }

  lemma LastStampKept(s: World, b: int, t: int)
    requires Sound(s)
    requires TimesOf(s.history.stamps, b) != []
    requires TimesOf(s.history.stamps, b)[|TimesOf(s.history.stamps, b)| - 1] == t
    ensures b in s.core.stamps && s.core.stamps[b] == t
  {
    hide Spaced, TimesOf, Conserved, Stopping, Winding, Cached, Sourced;
    assert BucketTracked(s, b);
  }

  lemma StampDecides(c: Core, d: Detection, now: int, t: int)
    requires Bucket(d.freq) in c.stamps && c.stamps[Bucket(d.freq)] == t
    ensures VerdictFor(c, d, now) == Suppressed <==> now < t + COOLDOWN
    ensures VerdictFor(c, d, now) == Enqueued <==> now >= t + COOLDOWN && |c.queue| < MAX_DEPTH
  {
    hide Bucket;
  }

  /**
   Five minutes pass before a bucket is looked at again, and a queue of six is full: once a detection has
   not been suppressed, another in its 100 kHz bucket is until then.
   */
  lemma FiveMinutes(c: Core, d: Detection, t: int, e: Detection, now: int)
    requires VerdictFor(c, d, t) != Suppressed
    requires d.freq > 0.0 && e.freq > 0.0 && (d.freq / 100000.0).Floor == (e.freq / 100000.0).Floor
    ensures var after := AfterDetection(c, d, t);
            && (VerdictFor(c, d, t) == Enqueued <==> |c.queue| < 6)
            && (VerdictFor(after, e, now) == Suppressed <==> now - t < 300000)
            && (VerdictFor(after, e, now) == Enqueued <==> now - t >= 300000 && |after.queue| < 6)
  {
  }

  // ----- what stop leaves behind

  /**
   stop() does not drain the queue: afterwards each worker takes one detection at most, and the queue
   starts with whatever is left of what stop found, in order.
   */
  lemma StopDoesNotDrain(run: seq<Event>, s: World)
    requires Reaches(run, s) && !s.core.running
    ensures s.history.left + s.history.since == s.history.lateTakes + s.core.queue
    ensures |s.history.lateTakes| <= s.history.waiting <= WORKERS
    ensures forall w :: 0 <= w < |s.history.lastTakes| ==> s.history.lastTakes[w] <= 1
    ensures |s.history.lateTakes| <= |s.history.left| ==>
              s.core.queue == s.history.left[|s.history.lateTakes|..] + s.history.since
    ensures |s.history.left| - |s.core.queue| <= WORKERS
  {
    EveryRunSound(run, s);
    var h, n := s.history, |s.history.lateTakes|;
    assert (h.lateTakes + s.core.queue)[n..] == s.core.queue;
    assert |h.left + h.since| == |h.lateTakes + s.core.queue|;
    if n <= |h.left| {
      assert (h.left + h.since)[n..] == h.left[n..] + h.since;
    }
  }

  /**
   When stop drains the queue: once both workers have exited with nothing admitted since, the queue is
   empty exactly if stop found no more detections queued than workers waiting.
   */
  lemma StopDrainsExactlyWhen(run: seq<Event>, s: World)
    requires Reaches(run, s) && !s.core.running && s.phases == [Exited, Exited] && s.history.since == []
    ensures s.core.queue == [] <==> |s.history.left| <= s.history.waiting
  {
    EveryRunSound(run, s);
    hide Conserved, Stopping, Tracked, Cached, Sourced;
    assert |s.history.left + s.history.since| == |s.history.lateTakes + s.core.queue|;
  }

  // ----- runs in which it happens

  lemma ReachesNext(run: seq<Event>, s: World, e: Event)
    requires Reaches(run, s) && Fits(s) && Enabled(s, e)
    ensures Reaches(run + [e], After(s, e))
  {
    assert (run + [e])[..|run|] == run;
  }

  /** A signal in bucket k. */
  function SignalIn(k: nat): Detection {
    Detection(k as real * 100000.0, k)
  }

  lemma SignalBucket(k: nat)
    ensures Bucket(SignalIn(k).freq) == k
  {
  }

  /** The service just started, with the signals of buckets 0 .. k-1 queued. */
  ghost predicate Holds(s: World, k: nat) {
    && s.core.running && s.phases == [AtTop, AtTop] && s.history.lastTakes == [0, 0]
    && |s.core.queue| == k && (forall i :: 0 <= i < k ==> s.core.queue[i] == SignalIn(i))
    && (forall b :: b in s.core.stamps ==> b < k)
    && s.history.suppressed == s.history.dropped == s.history.since == [] && s.history.admitted == s.core.queue
  }

  lemma {:induction false} QueueFills(k: nat) returns (run: seq<Event>, s: World)
    requires k <= MAX_DEPTH
    ensures Reaches(run, s) && Holds(s, k)
  {
    if k == 0 {
      run, s := [], START;
    } else {
      var before;
      run, before := QueueFills(k - 1);
      hide Reaches, After;
      ReachesNext(run, before, Detected(SignalIn(k - 1), 0));
      HoldsOneMore(before, k - 1);
      s := After(before, Detected(SignalIn(k - 1), 0));
      run := run + [Detected(SignalIn(k - 1), 0)];
    }
  }

  lemma HoldsOneMore(s: World, k: nat)
    requires k < MAX_DEPTH && Holds(s, k)
    ensures Holds(After(s, Detected(SignalIn(k), 0)), k + 1)
  {
    SignalBucket(k);
    hide Bucket;
  }

  /** A full queue, and a seventh signal twice: it is dropped, then suppressed, and never admitted. */
  lemma DropIsNotPickedUp() returns (run: seq<Event>, s: World)
    ensures Reaches(run, s) && s.history.dropped == [SignalIn(6)] && s.history.suppressed == [SignalIn(6)]
    ensures SignalIn(6) !in s.history.admitted
  {
    run, s := QueueFills(6);
    SignalBucket(6);
    hide Bucket, Reaches;
    ReachesNext(run, s, Detected(SignalIn(6), 0));
    run, s := run + [Detected(SignalIn(6), 0)], After(s, Detected(SignalIn(6), 0));
    ReachesNext(run, s, Detected(SignalIn(6), 1));
    run, s := run + [Detected(SignalIn(6), 1)], After(s, Detected(SignalIn(6), 1));
  }

  /** Three signals queued, stop, and both workers see it at the top of their loop: all three stay. */
  lemma StopLeavesWork() returns (run: seq<Event>, s: World)
    ensures Reaches(run, s) && !s.core.running && s.phases == [Exited, Exited] && s.history.since == []
    ensures s.core.queue == s.history.left == [SignalIn(0), SignalIn(1), SignalIn(2)]
  {
    run, s := QueueFills(3);
    hide Reaches, After;
    ReachesNext(run, s, StopCalled);
    StopThenExit(s);
    var stopped := After(s, StopCalled);
    ReachesNext(run + [StopCalled], stopped, TestRunning(0));
    var oneOut := After(stopped, TestRunning(0));
    ReachesNext(run + [StopCalled] + [TestRunning(0)], oneOut, TestRunning(1));
    run, s := run + [StopCalled] + [TestRunning(0)] + [TestRunning(1)], After(oneOut, TestRunning(1));
  }

  lemma StopThenExit(s: World)
    requires Holds(s, 3)
    ensures var t := After(s, StopCalled);
            && Fits(t) && Enabled(t, TestRunning(0))
            && var u := After(t, TestRunning(0));
               && Fits(u) && Enabled(u, TestRunning(1))
               && var v := After(u, TestRunning(1));
                  && !v.core.running && v.phases == [Exited, Exited] && v.history.since == []
                  && v.core.queue == v.history.left == [SignalIn(0), SignalIn(1), SignalIn(2)]
  {
  }

  predicate Close(f: real, g: real, distance: real) {
    -distance < f - g < distance
  }

  lemma FloorPositive(q: real, f: real)
    requires q == f / 100000.0
    ensures q.Floor as real * 100000.0 <= f < (q.Floor as real + 1.0) * 100000.0
  {
  }

  /** Frequencies of one bucket: under 200 kHz apart, and under 100 kHz unless they straddle zero. */
  lemma SameBucketClose(f: real, g: real)
    requires Bucket(f) == Bucket(g)
    ensures Close(f, g, 200000.0)
    ensures Bucket(f) != 0 || (f >= 0.0 && g >= 0.0) ==> Close(f, g, 100000.0)
  {
    FloorPositive(f / 100000.0, f);
    FloorPositive(g / 100000.0, g);
    FloorPositive(-f / 100000.0, -f);
    FloorPositive(-g / 100000.0, -g);
  }

  /** The bucket around zero is twice as wide: these two frequencies share it, 110 kHz apart. */
  lemma BucketZeroIsWide()
    ensures Bucket(-50000.0) == Bucket(60000.0)
    ensures !Close(-50000.0, 60000.0, 100000.0)
  {
  }

  /** Every frequency a command can ask for that shares f's bucket is within 100 kHz of f. */
  ghost predicate RequestsClose(f: real) {
    forall g: real :: g > 0.0 && Bucket(g) == Bucket(f) ==> Close(f, g, 100000.0)
  }

  /** That holds exactly for the frequencies outside the negative half of the bucket around zero. */
  lemma RequestsCloseExactly(f: real)
    ensures RequestsClose(f) <==> f >= 0.0 || Bucket(f) != 0
  {
    forall g: real | g > 0.0 && Bucket(g) == Bucket(f) && (f >= 0.0 || Bucket(f) != 0)
      ensures Close(f, g, 100000.0)
    {
      SameBucketClose(f, g);
    }
    if f < 0.0 && Bucket(f) == 0 {
      WideBucketPartner(f);
      assert !Close(f, f + 100000.0, 100000.0);
    }
  }

  lemma WideBucketPartner(f: real)
    requires f < 0.0 && Bucket(f) == 0
    ensures f + 100000.0 > 0.0 && Bucket(f + 100000.0) == 0
  {
    FloorPositive(-f / 100000.0, -f);
    var g := f + 100000.0;
    FloorPositive(g / 100000.0, g);
  }

  /**
   In every run a command is forwarded exactly when its frequency is positive and the last result of
   its bucket has a modulation. What is forwarded is that result; it lies within 100 kHz of the request
   if its frequency is not negative, and it came from a detection that was received.
   */
  lemma {:induction false} ForwardsLastResult(run: seq<Event>, s: World, m: Command)
    requires Reaches(run, s) && !m.kind.StopDemodStream?
    ensures var last := LastIn(s.history.published, Bucket(m.freq));
            && (ForwardFor(s.core, m).Some? <==> m.freq > 0.0 && last.Some? && last.value.Modulation() != "")
            && (ForwardFor(s.core, m).Some? ==>
                  && ForwardFor(s.core, m).value == Demodulate(m.kind, last.value, last.value.Modulation(), m.streamId)
                  && (last.value.freq >= 0.0 ==> Close(last.value.freq, m.freq, 100000.0))
                  && HasFreq(s.history.received, last.value.freq))
  {
    hide Bucket;
    EveryRunSound(run, s);
    var b := Bucket(m.freq);
    assert BucketCached(s, b);
    if ForwardFor(s.core, m).Some? {
      var r := LastIn(s.history.published, b).value;
      SameBucketClose(r.freq, m.freq);
      TakenWasReceived(s, r.freq);
    }
  }

  lemma TakenWasReceived(s: World, freq: real)
    requires Conserved(s) && HasFreq(s.history.taken, freq)
    ensures HasFreq(s.history.received, freq)
  {
    var h := s.history;
    var d :| d in h.taken && d.freq == freq;
    assert d in h.admitted;
    assert d in multiset(h.received);
  }
}
