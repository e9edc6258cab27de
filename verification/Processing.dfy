/** What a worker does with one detection: fast path, collection, publication (processDetection). */
module Processing {
  import opened Options
  import opened Results
  import opened AnalysisService
  import Channel = TaskChannel
  import Collector
  import UdpReceiver
  import SignalTable

  /** Results whose confidence is below this are not published from the snapshot alone. */
  const FAST_PATH_THRESHOLD: real := 0.75

  /** What the worker reads of a detection beyond its frequency. */
  datatype Snapshot = Snapshot(samples: seq<real>, sampleRate: real)

  /** An engine answer: the result, and how sure the network was of it (0 when it was not asked). */
  datatype Analysis = Analysis(result: AnalysisResult, confidence: real)

  /** The analysis engine: from samples, their rate and the centre frequency. */
  datatype Engine = Engine(
    onnxLoaded: bool,
    snapshot: (seq<real>, real, real) -> Analysis,
    full: (seq<UdpReceiver.Sample>, real, real) -> Analysis)

  /** The engine copies the centre frequency it is given into its result. */
  ghost predicate KeepsFrequency(e: Engine) {
    && (forall x, rate, freq :: e.snapshot(x, rate, freq).result.freq == freq)
    && (forall x, rate, freq :: e.full(x, rate, freq).result.freq == freq)
  }

  function SnapshotRate(s: Snapshot, configured: real): real {
    if s.sampleRate > 0.0 then s.sampleRate else configured
  }

  predicate FastPath(e: Engine, s: Snapshot, configured: real, freq: real) {
    && s.samples != [] && e.onnxLoaded
    && e.snapshot(s.samples, SnapshotRate(s, configured), freq).confidence >= FAST_PATH_THRESHOLD
  }

  /** Caches a result and writes it to the table; sending it to subscribers changes neither. */
  method Publish(service: AnalysisService, table: SignalTable.Table, r: AnalysisResult, now: int)
    requires table.Valid()
    modifies service, table
    ensures table.Valid() && service.View() == AfterPublish(old(service.View()), r)
    ensures exists b :: SignalTable.Persists(old(table.rows), r, now, b, table.rows)
  {
    hide SignalTable.Persists;
    service.CacheResult(r);
    var b := table.PersistResult(r, now);
  }

  /**
   observedRate is what reading the collector's last sample rate yields: it is read outside the
   collector's mutex, so it may belong to another worker's collection.
   */
  method ProcessDetection(service: AnalysisService, table: SignalTable.Table, collector: Collector.IqCollector,
                          engine: Engine, d: Detection, snapshot: Snapshot, requestId: string,
                          env: Collector.Environment, observedRate: real, now: int)
    returns (published: Option<AnalysisResult>)
    requires table.Valid() && collector.Valid() && UdpReceiver.Fits(env.arrivals) && KeepsFrequency(engine)
    requires Collector.Fresh(env.first, Collector.OpenAfter(collector.log))
    requires Collector.Fresh(env.second, Collector.OpenAfter(collector.log))
    modifies service, table, collector`log, collector`lastRate, collector.channel
    ensures table.Valid() && collector.Valid()
    ensures Collector.OpenAfter(collector.log) == Collector.OpenAfter(old(collector.log))
    // the receiver is borrowed only off the fast path
    ensures FastPath(engine, snapshot, collector.sampleRate, d.freq) ==>
              published.Some? && collector.log == old(collector.log)
              && collector.channel.sent == old(collector.channel.sent)
    // what is published is the engine's result, for the snapshot or for the samples received
    ensures snapshot.samples != [] && engine.onnxLoaded ==>
              var rate := if snapshot.sampleRate > 0.0 then snapshot.sampleRate else collector.sampleRate;
              var fast := engine.snapshot(snapshot.samples, rate, d.freq);
              if fast.confidence >= 0.75 then published == Some(fast.result)
              else !FastPath(engine, snapshot, collector.sampleRate, d.freq)
    ensures snapshot.samples == [] || !engine.onnxLoaded ==> !FastPath(engine, snapshot, collector.sampleRate, d.freq)
    ensures !FastPath(engine, snapshot, collector.sampleRate, d.freq) && published.Some? ==>
              exists iq :: UdpReceiver.Receives(env.arrivals, collector.samples, iq) && iq != []
                           && published.value == engine.full(iq, if observedRate > 0.0 then observedRate
                                                                 else collector.sampleRate, d.freq).result
    // off the fast path there is a result exactly when samples could be received
    ensures !FastPath(engine, snapshot, collector.sampleRate, d.freq) ==>
              var grant := Collector.GrantFor(old(collector.channel.View()), env, requestId, collector.sampleRate);
              published.Some? <==>
              Collector.Streaming(grant, env)
              && !UdpReceiver.Receives(env.arrivals, collector.samples, [])
    // a result is cached under the detection's own bucket and written to the table, and only then do they change
    ensures published.Some? ==>
              && published.value.freq == d.freq && service.View() == AfterPublish(old(service.View()), published.value)
              && exists b :: SignalTable.Persists(old(table.rows), published.value, now, b, table.rows)
    ensures published.None? ==> service.View() == old(service.View()) && table.rows == old(table.rows)
  {
    hide Collector.OpenAfter, Collector.GrantFor, Collector.Streaming, Collector.RateAfter,
      UdpReceiver.Receives, UdpReceiver.Fits, Bucket, Channel.DeliverAll, Collector.Legal, Collector.Stops,
      SignalTable.Persists;
    if |snapshot.samples| > 0 && engine.onnxLoaded {
      var snapRate := if snapshot.sampleRate > 0.0 then snapshot.sampleRate else collector.sampleRate;
      var fast := engine.snapshot(snapshot.samples, snapRate, d.freq);
      if fast.confidence >= FAST_PATH_THRESHOLD {
        Publish(service, table, fast.result, now);
        return Some(fast.result);
      }
    }
    ghost var grant := Collector.GrantFor(collector.channel.View(), env, requestId, collector.sampleRate);
    var iq, ops := collector.Collect(requestId, env);
    if Collector.Streaming(grant, env) {
      OneOutcome(env.arrivals, collector.samples, iq);
    }
    if |iq| == 0 {
      return None;
    }
    var rate := if observedRate <= 0.0 then collector.sampleRate else observedRate;
    var slow := engine.full(iq, rate, d.freq);
    Publish(service, table, slow.result, now);
    return Some(slow.result);
  }

  lemma OneOutcome(arrivals: seq<UdpReceiver.Arrival>, target: int, iq: seq<UdpReceiver.Sample>)
    requires UdpReceiver.Receives(arrivals, target, iq)
    ensures UdpReceiver.Receives(arrivals, target, []) <==> iq == []
  {
    hide UdpReceiver.Receives;
    if UdpReceiver.Receives(arrivals, target, []) {
      UdpReceiver.ReceivesIsDetermined(arrivals, target, iq, []);
    }
  }
}
