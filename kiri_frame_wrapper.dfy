/** The second iframe bridge to KiriMoto: pending promises wait in a queue
    keyed by request type (`init`, `load`, `slice`), and the engine's
    `ready`, `loaded`, `sliced` and `error` messages settle them. Timers,
    the file reader and window message events are explicit method calls. */
module KiriFrameWrapper {
  import opened Common
  import opened Text

  /** The request type a queue entry waits for. */
  datatype Kind = InitKind | LoadKind | SliceKind

  /** A queue entry: its type and the promise it settles. */
  datatype Entry = Entry(kind: Kind, promise: nat)

  datatype SliceResult = SliceResult(time: real, material: real, layers: real, volume: Option<real>)

  /** How a promise is settled: fulfilled (with a slice result for `slice`)
      or rejected with an error message. */
  datatype Outcome = Fulfil(value: Option<SliceResult>) | Fail(error: string)

  datatype Settlement = Settlement(promise: nat, outcome: Outcome)

  /** The fields of `data.result` the handler reads. For `time`, `material`
      and `layers`, `None` is a field that is absent or falsy; `volume` is
      passed on as it is, so its `None` is an absent field and a 0 is kept. */
  datatype ResultFields = ResultFields(time: Option<real>, material: Option<real>, layers: Option<real>, volume: Option<real>)

  /** The fields of a message's `data` the handler reads. `None` is a field
      that is absent or falsy; `result` is `None` when it is absent. */
  datatype Reported = Reported(
    kind: Option<string>, action: Option<string>,
    time: Option<real>, material: Option<real>, layers: Option<real>, volume: Option<real>,
    result: Option<ResultFields>,
    error: Option<string>, message: Option<string>)

  /** The engine settings of a `slice` request. */
  datatype Extruder = Extruder(extNozzle: real, extFilament: real, extOffsetX: real, extOffsetY: real)

  datatype Process = Process(
    sliceHeight: real, sliceShells: real, sliceFillSparse: real,
    sliceSupport: bool, sliceSupportDensity: real,
    firstLayerBrim: real, firstLayerRaft: bool,
    outputTemp: real, outputBedTemp: real, outputFeedrate: real, outputSeekrate: real,
    extruders: seq<Extruder>)

  datatype Settings = Settings(device: string, process: Process)

  /** A message posted to the iframe. */
  datatype Outgoing = InitMessage | LoadMessage(filename: string, data: seq<bv8>) | SliceMessage(settings: Settings)

  /** The caller's slice configuration; `speed` is `None` when absent or 0,
      and an absent `brim` or `raft` is `false`. */
  datatype SliceConfig = SliceConfig(
    nozzleDiameter: real, layerHeight: real, infill: real, walls: real,
    supports: bool, brim: bool, raft: bool, speed: Option<real>)

  const NotReady := "Kiri:Moto not ready. Call initialize() first."
  const NotInitialized := "Kiri:Moto iframe not initialized"
  const ReadFailed := "Failed to read file"

  /** Whether a message names `name` in its `type` or its `action`. */
  predicate Names(d: Reported, name: string)
  {
    d.kind == Some(name) || d.action == Some(name)
  }

  /** `a || b`, for fields where `None` is falsy. */
  function Either(a: Option<real>, b: Option<real>): (r: Option<real>)
    ensures a.Some? ==> r == a
    ensures a.None? ==> r == b
  {
    if a.Some? then a else b
  }

  /** The slice result of a `sliced` message: each statistic from the
      message itself, else from its `result`, else 0; the volume from the
      message, else whatever its `result` holds, which may be absent. */
  function SliceResultOf(d: Reported): (r: SliceResult)
    ensures d.time.Some? ==> r.time == d.time.value
    ensures d.time.None? && d.result.Some? && d.result.value.time.Some? ==> r.time == d.result.value.time.value
    ensures d.time.None? && (d.result.None? || d.result.value.time.None?) ==> r.time == 0.0
    ensures d.material.Some? ==> r.material == d.material.value
    ensures d.material.None? && d.result.Some? && d.result.value.material.Some? ==> r.material == d.result.value.material.value
    ensures d.material.None? && (d.result.None? || d.result.value.material.None?) ==> r.material == 0.0
    ensures d.layers.Some? ==> r.layers == d.layers.value
    ensures d.layers.None? && d.result.Some? && d.result.value.layers.Some? ==> r.layers == d.result.value.layers.value
    ensures d.layers.None? && (d.result.None? || d.result.value.layers.None?) ==> r.layers == 0.0
    ensures d.volume.Some? ==> r.volume == d.volume
    ensures d.volume.None? ==> r.volume == (if d.result.Some? then d.result.value.volume else None)
  {
    var inner := OrElse(d.result, ResultFields(None, None, None, None));
    SliceResult(
      OrElse(Either(d.time, inner.time), 0.0),
      OrElse(Either(d.material, inner.material), 0.0),
      OrElse(Either(d.layers, inner.layers), 0.0),
      Either(d.volume, inner.volume))
  }

  /** The message of an `error` message's rejection. */
  function ErrorText(d: Reported): (r: string)
    ensures d.error.Some? ==> r == d.error.value
    ensures d.error.None? && d.message.Some? ==> r == d.message.value
    ensures d.error.None? && d.message.None? ==> r == "Kiri:Moto error"
  {
    OrElse(d.error, OrElse(d.message, "Kiri:Moto error"))
  }

  /** `messageQueue.find(m => m.type === k)`, as an index. */
  function FirstOf(q: seq<Entry>, k: Kind): (r: Option<nat>)
    ensures r.Some? ==> r.value < |q| && q[r.value].kind == k
    ensures r.Some? ==> forall j | 0 <= j < r.value :: q[j].kind != k
    ensures r.None? <==> forall j | 0 <= j < |q| :: q[j].kind != k
  {
    if q == [] then None
    else if q[0].kind == k then Some(0)
    else
      var rest := FirstOf(q[1..], k);
      if rest.None? then None else Some(rest.value + 1)
  }

  /** `messageQueue.filter(m => m.type !== k)`. */
  function Without(q: seq<Entry>, k: Kind): (r: seq<Entry>)
    ensures forall e :: e in r <==> e in q && e.kind != k
    ensures |r| <= |q|
  {
    if q == [] then []
    else if q[0].kind == k then Without(q[1..], k)
    else [q[0]] + Without(q[1..], k)
  }

  /** Filtering out a type that is not queued keeps the queue as it is. */
  lemma {:induction false} WithoutAbsent(q: seq<Entry>, k: Kind)
    requires forall j | 0 <= j < |q| :: q[j].kind != k
    ensures Without(q, k) == q
  {
    if q != [] {
      WithoutAbsent(q[1..], k);
    }
  }

  /** `filter` works entry by entry: filtering a concatenation filters each
      part and keeps them in order. */
  lemma {:induction false} WithoutConcat(q1: seq<Entry>, q2: seq<Entry>, k: Kind)
    ensures Without(q1 + q2, k) == Without(q1, k) + Without(q2, k)
  {
    if q1 == [] {
      assert q1 + q2 == q2;
    } else {
      assert (q1 + q2)[0] == q1[0];
      assert (q1 + q2)[1..] == q1[1..] + q2;
      WithoutConcat(q1[1..], q2, k);
    }
  }

  /** Entries of the other types keep their order: filtering commutes with
      appending an entry of another type. */
  lemma {:induction false} WithoutAppend(q: seq<Entry>, e: Entry, k: Kind)
    requires e.kind != k
    ensures Without(q + [e], k) == Without(q, k) + [e]
  {
    if q == [] {
      assert q + [e] == [e];
    } else {
      assert (q + [e])[1..] == q[1..] + [e];
      WithoutAppend(q[1..], e, k);
    }
  }

  /** The settings `slice` sends for a configuration. */
  function SettingsFor(config: SliceConfig): (s: Settings)
    ensures s.device == "Generic FDM"
    ensures s.process.sliceHeight == config.layerHeight && s.process.sliceShells == config.walls
    ensures s.process.sliceFillSparse * 100.0 == config.infill
    ensures 0.0 <= config.infill <= 100.0 ==> 0.0 <= s.process.sliceFillSparse <= 1.0
    ensures s.process.sliceSupport == config.supports
    ensures s.process.sliceSupportDensity == (if config.supports then 0.25 else 0.0)
    ensures s.process.firstLayerBrim == (if config.brim then 2.0 else 0.0)
    ensures s.process.firstLayerRaft == config.raft
    ensures s.process.outputTemp == 200.0 && s.process.outputBedTemp == 60.0
    ensures config.speed.Some? ==> s.process.outputFeedrate == config.speed.value
    ensures config.speed.None? ==> s.process.outputFeedrate == 50.0 && s.process.outputSeekrate == 100.0
    ensures s.process.outputSeekrate == 2.0 * s.process.outputFeedrate
    ensures s.process.extruders == [Extruder(config.nozzleDiameter, 1.75, 0.0, 0.0)]
  {
    Settings("Generic FDM", Process(
      config.layerHeight, config.walls, config.infill / 100.0,
      config.supports, if config.supports then 0.25 else 0.0,
      if config.brim then 2.0 else 0.0, config.raft,
      200.0, 60.0,
      OrElse(config.speed, 50.0),
      if config.speed.Some? then config.speed.value * 2.0 else 100.0,
      [Extruder(config.nozzleDiameter, 1.75, 0.0, 0.0)]))
  }

  class KiriFrameWrapper {
    /** Whether `iframe` is set (and so has a content window). */
    var iframe: bool
    var ready: bool
    /** Whether `handleMessage` is registered as a window message listener. */
    var listening: bool
    var messageQueue: seq<Entry>
    /** How many promises the calls have created; promise `p` is the
        `p`-th. */
    var promises: nat
    /** The promises already settled: settling one again does nothing. */
    var done: set<nat>
    /** The settlements that took effect, in order. */
    var settled: seq<Settlement>
    /** The messages posted to the iframe, in order. */
    var posted: seq<Outgoing>

    /** Queued and settled promises exist, each promise is settled at most
        once, and `done` holds every settled promise. */
    ghost predicate Valid()
      reads this
    {
      (forall e | e in messageQueue :: e.promise < promises)
      && (forall p | p in done :: p < promises)
      && (forall k | 0 <= k < |settled| :: settled[k].promise in done)
      && (forall j, k | 0 <= j < k < |settled| :: settled[j].promise != settled[k].promise)
    }

    /** Settling `s` takes effect only if its promise is still unsettled;
        nothing else changes. */
    twostate predicate SettledWith(s: Settlement)
      reads this
    {
      iframe == old(iframe) && listening == old(listening) && promises == old(promises) && posted == old(posted)
      && done == old(done) + {s.promise}
      && settled == old(settled) + (if s.promise in old(done) then [] else [s])
    }

    constructor ()
      ensures Valid()
      ensures !iframe && !ready && !listening && messageQueue == [] && promises == 0
      ensures done == {} && settled == [] && posted == []
    {
      iframe, ready, listening := false, false, false;
      messageQueue := [];
      promises := 0;
      done, settled, posted := {}, [], [];
    }

    method Settle(s: Settlement)
      requires Valid() && s.promise < promises
      modifies this
      ensures Valid() && SettledWith(s)
      ensures ready == old(ready) && messageQueue == old(messageQueue)
    {
      if s.promise !in done {
        settled := settled + [s];
      }
      done := done + {s.promise};
    }

    /** A fresh promise. */
    method NewPromise() returns (p: nat)
      requires Valid()
      modifies this
      ensures Valid() && p == old(promises) && promises == p + 1
      ensures iframe == old(iframe) && ready == old(ready) && listening == old(listening)
      ensures messageQueue == old(messageQueue) && done == old(done) && settled == old(settled) && posted == old(posted)
    {
      p := promises;
      promises := promises + 1;
    }

    /** `initialize`: creates the iframe, listens for messages and queues
        the new promise as the `init` entry. */
    method Initialize() returns (p: nat)
      requires Valid()
      modifies this
      ensures Valid() && p == old(promises) && promises == p + 1
      ensures iframe && listening && ready == old(ready)
      ensures messageQueue == old(messageQueue) + [Entry(InitKind, p)]
      ensures done == old(done) && settled == old(settled) && posted == old(posted)
    {
      p := NewPromise();
      iframe := true;
      listening := true;
      messageQueue := messageQueue + [Entry(InitKind, p)];
    }

    /** The timer a second after loading: sends `init` if the iframe is
        still there. */
    method InitTimer()
      modifies this
      ensures posted == old(posted) + (if old(iframe) then [InitMessage] else [])
      ensures iframe == old(iframe) && ready == old(ready) && listening == old(listening)
      ensures messageQueue == old(messageQueue) && promises == old(promises) && done == old(done) && settled == old(settled)
    {
      if iframe {
        posted := posted + [InitMessage];
      }
    }

    /** The 15-second timer of the `initialize` call that created `p`: if no
        `ready` came, it declares the frame ready anyway and fulfils `p`,
        leaving its `init` entry queued. */
    method InitTimeout(p: nat)
      requires Valid() && p < promises
      modifies this
      ensures Valid() && ready && messageQueue == old(messageQueue)
      ensures old(ready) ==> unchanged(this)
      ensures !old(ready) ==> SettledWith(Settlement(p, Fulfil(None)))
    {
      if !ready {
        ready := true;
        Settle(Settlement(p, Fulfil(None)));
      }
    }

    /** Settles the first queued entry of type `k` with `o` and drops every
        entry of that type; does nothing when none is queued. */
    method SettleFirstOf(k: Kind, o: Outcome)
      requires Valid()
      modifies this
      ensures Valid() && ready == old(ready)
      ensures FirstOf(old(messageQueue), k).None? ==> unchanged(this)
      ensures FirstOf(old(messageQueue), k).Some? ==>
        messageQueue == Without(old(messageQueue), k)
        && SettledWith(Settlement(old(messageQueue)[FirstOf(old(messageQueue), k).value].promise, o))
    {
      var i := FirstOf(messageQueue, k);
      if i.Some? {
        assert messageQueue[i.value] in messageQueue;
        Settle(Settlement(messageQueue[i.value].promise, o));
        messageQueue := Without(messageQueue, k);
      }
    }

    /** `handleMessage`. Messages from an origin without `grid.space`
        change nothing. `ready` makes the frame ready and fulfils the first
        `init` entry; `loaded` and `sliced` fulfil the first `load` or
        `slice` entry, the latter with the reported statistics; each drops
        every entry of its type. An error rejects the head of the queue and
        removes only it. */
    method HandleMessage(origin: string, d: Reported)
      requires Valid()
      modifies this
      ensures Valid()
      ensures !old(listening) || !Contains(origin, "grid.space") ==> unchanged(this)
      ensures old(listening) && Contains(origin, "grid.space") && Names(d, "ready") ==>
        ready
        && (FirstOf(old(messageQueue), InitKind).None? ==>
              iframe == old(iframe) && listening == old(listening) && messageQueue == old(messageQueue)
              && promises == old(promises) && done == old(done) && settled == old(settled) && posted == old(posted))
        && (FirstOf(old(messageQueue), InitKind).Some? ==>
              messageQueue == Without(old(messageQueue), InitKind)
              && SettledWith(Settlement(old(messageQueue)[FirstOf(old(messageQueue), InitKind).value].promise, Fulfil(None))))
      ensures old(listening) && Contains(origin, "grid.space") && !Names(d, "ready") && Names(d, "loaded") ==>
        ready == old(ready)
        && (FirstOf(old(messageQueue), LoadKind).None? ==> unchanged(this))
        && (FirstOf(old(messageQueue), LoadKind).Some? ==>
              messageQueue == Without(old(messageQueue), LoadKind)
              && SettledWith(Settlement(old(messageQueue)[FirstOf(old(messageQueue), LoadKind).value].promise, Fulfil(None))))
      ensures old(listening) && Contains(origin, "grid.space") && !Names(d, "ready") && !Names(d, "loaded") && Names(d, "sliced") ==>
        ready == old(ready)
        && (FirstOf(old(messageQueue), SliceKind).None? ==> unchanged(this))
        && (FirstOf(old(messageQueue), SliceKind).Some? ==>
              messageQueue == Without(old(messageQueue), SliceKind)
              && SettledWith(Settlement(old(messageQueue)[FirstOf(old(messageQueue), SliceKind).value].promise, Fulfil(Some(SliceResultOf(d))))))
      ensures old(listening) && Contains(origin, "grid.space") && !Names(d, "ready") && !Names(d, "loaded") && !Names(d, "sliced") ==>
        ready == old(ready)
        && (old(messageQueue) == [] || (d.kind != Some("error") && d.error.None?) ==> unchanged(this))
        && (old(messageQueue) != [] && (d.kind == Some("error") || d.error.Some?) ==>
              messageQueue == old(messageQueue)[1..]
              && SettledWith(Settlement(old(messageQueue)[0].promise, Fail(ErrorText(d)))))
    {
      if !listening || !Contains(origin, "grid.space") {
        return;
      }
      if Names(d, "ready") {
        ready := true;
        SettleFirstOf(InitKind, Fulfil(None));
      } else if Names(d, "loaded") {
        SettleFirstOf(LoadKind, Fulfil(None));
      } else if Names(d, "sliced") {
        SettleFirstOf(SliceKind, Fulfil(Some(SliceResultOf(d))));
      } else if d.kind == Some("error") || d.error.Some? {
        if messageQueue != [] {
          var head := messageQueue[0];
          Settle(Settlement(head.promise, Fail(ErrorText(d))));
          messageQueue := messageQueue[1..];
        }
      }
    }

    /** `loadModel`, with the file reader's outcome as `contents` (`None`
        when reading fails). It fails at once when not ready. Otherwise a
        new promise is rejected when the file cannot be read or the iframe
        is gone, or else the file is posted and the promise queued as a
        `load` entry. */
    method LoadModel(filename: string, contents: Option<seq<bv8>>) returns (r: Result<nat, string>)
      requires Valid()
      modifies this
      ensures Valid() && ready == old(ready) && listening == old(listening) && iframe == old(iframe)
      ensures !old(ready) <==> r.Err?
      ensures !old(ready) ==> r.error == NotReady && unchanged(this)
      ensures old(ready) ==> r.value == old(promises) && promises == r.value + 1
      ensures old(ready) && contents.None? ==>
        messageQueue == old(messageQueue) && posted == old(posted)
        && done == old(done) + {r.value} && settled == old(settled) + [Settlement(r.value, Fail(ReadFailed))]
      ensures old(ready) && contents.Some? && !old(iframe) ==>
        messageQueue == old(messageQueue) && posted == old(posted)
        && done == old(done) + {r.value} && settled == old(settled) + [Settlement(r.value, Fail(NotInitialized))]
      ensures old(ready) && contents.Some? && old(iframe) ==>
        messageQueue == old(messageQueue) + [Entry(LoadKind, r.value)]
        && posted == old(posted) + [LoadMessage(filename, contents.value)]
        && done == old(done) && settled == old(settled)
    {
      if !ready {
        return Err(NotReady);
      }
      var p := NewPromise();
      r := Ok(p);
      if contents.None? {
        Settle(Settlement(p, Fail(ReadFailed)));
      } else if !iframe {
        Settle(Settlement(p, Fail(NotInitialized)));
      } else {
        posted := posted + [LoadMessage(filename, contents.value)];
        messageQueue := messageQueue + [Entry(LoadKind, p)];
      }
    }

    /** `slice`: fails at once when not ready. Otherwise a new promise is
        rejected when the iframe is gone, or else the settings are posted
        and the promise queued as a `slice` entry. */
    method Slice(config: SliceConfig) returns (r: Result<nat, string>)
      requires Valid()
      modifies this
      ensures Valid() && ready == old(ready) && listening == old(listening) && iframe == old(iframe)
      ensures !old(ready) <==> r.Err?
      ensures !old(ready) ==> r.error == NotReady && unchanged(this)
      ensures old(ready) ==> r.value == old(promises) && promises == r.value + 1
      ensures old(ready) && !old(iframe) ==>
        messageQueue == old(messageQueue) && posted == old(posted)
        && done == old(done) + {r.value} && settled == old(settled) + [Settlement(r.value, Fail(NotInitialized))]
      ensures old(ready) && old(iframe) ==>
        messageQueue == old(messageQueue) + [Entry(SliceKind, r.value)]
        && posted == old(posted) + [SliceMessage(SettingsFor(config))]
        && done == old(done) && settled == old(settled)
    {
      if !ready {
        return Err(NotReady);
      }
      var p := NewPromise();
      r := Ok(p);
      if !iframe {
        Settle(Settlement(p, Fail(NotInitialized)));
      } else {
        posted := posted + [SliceMessage(SettingsFor(config))];
        messageQueue := messageQueue + [Entry(SliceKind, p)];
      }
    }

    /** The 30-second timer of a `loadModel` call: rejects the first `load`
        entry, whichever call queued it, and drops every `load` entry. */
    method LoadTimeout()
      requires Valid()
      modifies this
      ensures Valid() && ready == old(ready)
      ensures FirstOf(old(messageQueue), LoadKind).None? ==> unchanged(this)
      ensures FirstOf(old(messageQueue), LoadKind).Some? ==>
        messageQueue == Without(old(messageQueue), LoadKind)
        && SettledWith(Settlement(old(messageQueue)[FirstOf(old(messageQueue), LoadKind).value].promise, Fail("Load timeout")))
    {
      SettleFirstOf(LoadKind, Fail("Load timeout"));
    }

    /** The 60-second timer of a `slice` call, as `LoadTimeout` for `slice`
        entries. */
    method SliceTimeout()
      requires Valid()
      modifies this
      ensures Valid() && ready == old(ready)
      ensures FirstOf(old(messageQueue), SliceKind).None? ==> unchanged(this)
      ensures FirstOf(old(messageQueue), SliceKind).Some? ==>
        messageQueue == Without(old(messageQueue), SliceKind)
        && SettledWith(Settlement(old(messageQueue)[FirstOf(old(messageQueue), SliceKind).value].promise, Fail("Slice timeout")))
    {
      SettleFirstOf(SliceKind, Fail("Slice timeout"));
    }

    /** `destroy`: no iframe, not ready, an empty queue (its promises are
        never settled), and the listener detached, as the source evidently
        intends. */
    method Destroy()
      requires Valid()
      modifies this
      ensures Valid()
      ensures !iframe && !ready && !listening && messageQueue == []
      ensures promises == old(promises) && done == old(done) && settled == old(settled) && posted == old(posted)
    {
      iframe := false;
      ready := false;
      listening := false;
      messageQueue := [];
    }

    /** `destroy` as written: `removeEventListener` is given a new function
        from `bind`, so the listener stays registered. */
    method DestroyAsWritten()
      requires Valid()
      modifies this
      ensures Valid()
      ensures !iframe && !ready && listening == old(listening) && messageQueue == []
      ensures promises == old(promises) && done == old(done) && settled == old(settled) && posted == old(posted)
    {
      iframe := false;
      ready := false;
      messageQueue := [];
    }
  }

  /** A message that names no known type and carries no error. */
  const Silent := Reported(None, None, None, None, None, None, None, None, None)

  const EngineHost := "grid.space"
  const EngineOrigin := "https://" + EngineHost

  lemma EngineOriginAccepted()
    ensures Contains(EngineOrigin, "grid.space")
  {
    ContainsEnd("https://", EngineHost);
  }

  /** With `destroy` as written, a `ready` message after `destroy` makes the
      destroyed frame ready again. */
  method ReadyAfterDestroy() returns (readyAfterDestroy: bool)
    ensures readyAfterDestroy
  {
    var w := new KiriFrameWrapper();
    var p := w.Initialize();
    w.DestroyAsWritten();
    EngineOriginAccepted();
    w.HandleMessage(EngineOrigin, Silent.(kind := Some("ready")));
    readyAfterDestroy := w.ready;
  }

  /** With `destroy` as intended, the same message leaves it not ready. */
  method NotReadyAfterDestroy() returns (readyAfterDestroy: bool)
    ensures !readyAfterDestroy
  {
    var w := new KiriFrameWrapper();
    var p := w.Initialize();
    w.Destroy();
    w.HandleMessage(EngineOrigin, Silent.(kind := Some("ready")));
    readyAfterDestroy := w.ready;
  }
}
