/** The iframe bridge to the KiriMoto frame API: requests carry increasing
    ids, responses settle the matching pending request, and everything else
    goes to the handler registered for the message type. Timers and the
    window's message events are explicit method calls. */
module KiriFrame {
  import opened Common

  const KiriOrigin := "https://grid.space"

  /** The fields of a response's `data` the model reads. For `time`,
      `weight` and `layers`, `None` is a field that is absent or falsy; for
      `gcode` it is a field that is absent. */
  datatype Data = Data(time: Option<real>, weight: Option<real>, layers: Option<real>, gcode: Option<string>)

  /** A message from the iframe: `{ type, data, id }`, `data` and `id`
      possibly undefined (`None`). */
  datatype Incoming = Incoming(kind: string, data: Option<Data>, id: Option<int>)

  datatype Mode = FDM | SLA | CAM | LASER

  /** The `data` of a request. Device and process settings are passed
      through untouched, so they are identified, not described. */
  datatype Payload =
    | NoData
    | LoadFile(file: seq<bv8>, filename: string)
    | SetModeTo(mode: Mode)
    | Settings(object: nat)

  /** A request posted to the iframe, `{ type, data, id }`. */
  datatype Outgoing = Outgoing(kind: string, data: Payload, id: nat)

  /** How a request's promise was settled. */
  datatype Settlement = Resolve(id: nat, data: Option<Data>) | Reject(id: nat, error: string)

  datatype SlicingResult = SlicingResult(time: real, material: real, layers: real, gcode: Option<string>)

  /** What `slice` returns for the response data: time, weight as material
      and layers, each 0 when missing, and the G-code as it came. */
  function SliceResultOf(d: Data): (r: SlicingResult)
    ensures r.time == (if d.time.Some? then d.time.value else 0.0)
    ensures r.material == (if d.weight.Some? then d.weight.value else 0.0)
    ensures r.layers == (if d.layers.Some? then d.layers.value else 0.0)
    ensures r.gcode == d.gcode
  {
    SlicingResult(OrElse(d.time, 0.0), OrElse(d.weight, 0.0), OrElse(d.layers, 0.0), d.gcode)
  }

  /** The message of the `TypeError` that `slice` throws when reading
      `result.time` of a response without `data`; like every other error
      here it is the message, not the error's `String` rendering. The
      program does not choose this text: it is the message the V8 engine
      gives for reading a property of `undefined`, and other engines word
      it differently. */
  const MissingDataError := "Cannot read properties of undefined (reading 'time')"

  /** The outcome of a `slice` call once its request is settled: the
      statistics of a response with data, the `TypeError` of one without,
      or the timeout's error. */
  function SliceOutcome(s: Settlement): (r: Result<SlicingResult, string>)
    ensures r.Ok? <==> s.Resolve? && s.data.Some?
    ensures r.Ok? ==> r.value == SliceResultOf(s.data.value)
    ensures s.Resolve? && s.data.None? ==> r == Err(MissingDataError)
    ensures s.Reject? ==> r == Err(s.error)
  {
    match s
    case Resolve(_, d) => if d.Some? then Ok(SliceResultOf(d.value)) else Err(MissingDataError)
    case Reject(_, e) => Err(e)
  }

  class KiriFrame {
    /** Whether `iframe` is set. */
    var iframe: bool
    var ready: bool
    /** Whether `handleMessage` is registered as a window message listener. */
    var listening: bool
    /** The handler registered for each message type, by identity. */
    var messageHandlers: map<string, nat>
    /** The pending requests: the type each was sent with. */
    var pendingRequests: map<nat, string>
    var requestId: nat
    /** The requests posted to the iframe, in order. */
    var posted: seq<Outgoing>
    /** The request promises settled, in order. */
    var settled: seq<Settlement>
    /** The handler calls made, in order. */
    var delivered: seq<(nat, Option<Data>)>

    /** Request `k` carried id `k`; every pending request was posted with
        its type, and every settled one is no longer pending and was
        settled once. */
    ghost predicate Valid()
      reads this
    {
      |posted| == requestId
      && (forall k | 0 <= k < |posted| :: posted[k].id == k)
      && (forall id | id in pendingRequests :: id < requestId && posted[id].kind == pendingRequests[id])
      && (forall k | 0 <= k < |settled| :: settled[k].id < requestId && settled[k].id !in pendingRequests)
      && (forall j, k | 0 <= j < k < |settled| :: settled[j].id != settled[k].id)
    }

    constructor ()
      ensures Valid()
      ensures !iframe && !ready && !listening && messageHandlers == map[] && pendingRequests == map[]
      ensures requestId == 0 && posted == [] && settled == [] && delivered == []
    {
      iframe, ready, listening := false, false, false;
      messageHandlers, pendingRequests := map[], map[];
      requestId := 0;
      posted, settled, delivered := [], [], [];
    }

    /** `init`: creates the iframe and starts listening for messages; it is
        ready only once `Loaded` runs. */
    method Init()
      modifies this
      ensures iframe && listening
      ensures ready == old(ready) && messageHandlers == old(messageHandlers) && pendingRequests == old(pendingRequests)
      ensures requestId == old(requestId) && posted == old(posted) && settled == old(settled) && delivered == old(delivered)
    {
      iframe := true;
      listening := true;
    }

    /** The timer that runs a second after the iframe has loaded. */
    method Loaded()
      modifies this
      ensures ready
      ensures iframe == old(iframe) && listening == old(listening) && messageHandlers == old(messageHandlers)
      ensures pendingRequests == old(pendingRequests) && requestId == old(requestId)
      ensures posted == old(posted) && settled == old(settled) && delivered == old(delivered)
    {
      ready := true;
    }

    /** `handleMessage` on a window message event. Messages from another
        origin change nothing; a response to a pending request settles
        exactly that request and removes it; any other message goes to the
        handler of its type, if there is one. */
    method HandleMessage(origin: string, message: Incoming)
      requires Valid()
      modifies this
      ensures Valid()
      ensures iframe == old(iframe) && ready == old(ready) && listening == old(listening)
      ensures messageHandlers == old(messageHandlers) && requestId == old(requestId) && posted == old(posted)
      ensures !old(listening) || origin != KiriOrigin ==>
        pendingRequests == old(pendingRequests) && settled == old(settled) && delivered == old(delivered)
      ensures old(listening) && origin == KiriOrigin && message.id.Some? && message.id.value in old(pendingRequests) ==>
        pendingRequests == old(pendingRequests) - {message.id.value as nat}
        && settled == old(settled) + [Resolve(message.id.value as nat, message.data)]
        && delivered == old(delivered)
      ensures old(listening) && origin == KiriOrigin && !(message.id.Some? && message.id.value in old(pendingRequests)) ==>
        pendingRequests == old(pendingRequests) && settled == old(settled)
        && delivered == old(delivered) + (if message.kind in messageHandlers then [(messageHandlers[message.kind], message.data)] else [])
    {
      if !listening || origin != KiriOrigin {
        return;
      }
      if message.id.Some? && message.id.value in pendingRequests {
        var id := message.id.value as nat;
        pendingRequests := pendingRequests - {id};
        settled := settled + [Resolve(id, message.data)];
        return;
      }
      if message.kind in messageHandlers {
        delivered := delivered + [(messageHandlers[message.kind], message.data)];
      }
    }

    /** What `sendMessage` does: unless the iframe exists and is ready it
        fails, changing nothing; otherwise it takes the next id, records
        the request as pending with its type and posts it. Nothing else
        changes either way. */
    twostate predicate Sent(kind: string, data: Payload, new r: Result<nat, string>)
      reads this
    {
      iframe == old(iframe) && ready == old(ready) && listening == old(listening)
      && messageHandlers == old(messageHandlers) && settled == old(settled) && delivered == old(delivered)
      && (!(old(iframe) && old(ready)) ==>
            r == Err("Kiri:Moto iframe not ready") && requestId == old(requestId)
            && pendingRequests == old(pendingRequests) && posted == old(posted))
      && (old(iframe) && old(ready) ==>
            r == Ok(old(requestId)) && old(requestId) !in old(pendingRequests)
            && requestId == old(requestId) + 1
            && pendingRequests == old(pendingRequests)[old(requestId) := kind]
            && posted == old(posted) + [Outgoing(kind, data, old(requestId))])
    }

    method SendMessage(kind: string, data: Payload) returns (r: Result<nat, string>)
      requires Valid()
      modifies this
      ensures Valid() && Sent(kind, data, r)
    {
      if !iframe || !ready {
        return Err("Kiri:Moto iframe not ready");
      }
      var id := requestId;
      requestId := requestId + 1;
      pendingRequests := pendingRequests[id := kind];
      posted := posted + [Outgoing(kind, data, id)];
      r := Ok(id);
    }

    /** `loadModel`: a `load` request with the file's bytes and name. */
    method LoadModel(fileData: seq<bv8>, filename: string) returns (r: Result<nat, string>)
      requires Valid()
      modifies this
      ensures Valid() && Sent("load", LoadFile(fileData, filename), r)
    {
      r := SendMessage("load", LoadFile(fileData, filename));
    }

    /** `setMode`: a `mode` request. */
    method SetMode(mode: Mode) returns (r: Result<nat, string>)
      requires Valid()
      modifies this
      ensures Valid() && Sent("mode", SetModeTo(mode), r)
    {
      r := SendMessage("mode", SetModeTo(mode));
    }

    /** `setDevice`: a `device` request carrying the device settings. */
    method SetDevice(device: nat) returns (r: Result<nat, string>)
      requires Valid()
      modifies this
      ensures Valid() && Sent("device", Settings(device), r)
    {
      r := SendMessage("device", Settings(device));
    }

    /** `setProcess`: a `process` request carrying the process settings. */
    method SetProcess(process: nat) returns (r: Result<nat, string>)
      requires Valid()
      modifies this
      ensures Valid() && Sent("process", Settings(process), r)
    {
      r := SendMessage("process", Settings(process));
    }

    /** `slice`: a `slice` request without data; its promise's outcome is
        `SliceOutcome` of the settlement that later carries its id. */
    method Slice() returns (r: Result<nat, string>)
      requires Valid()
      modifies this
      ensures Valid() && Sent("slice", NoData, r)
    {
      r := SendMessage("slice", NoData);
    }

    /** The 30-second timer of request `id`: rejects and removes that
        request if it is still pending, and nothing else. */
    method Timeout(id: nat)
      requires Valid()
      modifies this
      ensures Valid()
      ensures iframe == old(iframe) && ready == old(ready) && listening == old(listening)
      ensures messageHandlers == old(messageHandlers) && requestId == old(requestId)
      ensures posted == old(posted) && delivered == old(delivered)
      ensures id in old(pendingRequests) ==>
        pendingRequests == old(pendingRequests) - {id}
        && settled == old(settled) + [Reject(id, "Request timeout: " + old(pendingRequests)[id])]
      ensures id !in old(pendingRequests) ==> pendingRequests == old(pendingRequests) && settled == old(settled)
    {
      if id in pendingRequests {
        var kind := pendingRequests[id];
        pendingRequests := pendingRequests - {id};
        settled := settled + [Reject(id, "Request timeout: " + kind)];
      }
    }

    /** `on`: registers `handler` for `event`, replacing any earlier one. */
    method On(event: string, handler: nat)
      modifies this
      ensures messageHandlers == old(messageHandlers)[event := handler]
      ensures iframe == old(iframe) && ready == old(ready) && listening == old(listening)
      ensures pendingRequests == old(pendingRequests) && requestId == old(requestId)
      ensures posted == old(posted) && settled == old(settled) && delivered == old(delivered)
    {
      messageHandlers := messageHandlers[event := handler];
    }

    /** `destroy`: removes the iframe and is no longer ready. Pending
        requests are left to their timers. The message listener is
        detached, as the source evidently intends. */
    method Destroy()
      modifies this
      ensures !iframe && !ready && !listening
      ensures messageHandlers == old(messageHandlers) && pendingRequests == old(pendingRequests)
      ensures requestId == old(requestId) && posted == old(posted) && settled == old(settled) && delivered == old(delivered)
    {
      iframe := false;
      ready := false;
      listening := false;
    }

    /** `destroy` as written: `removeEventListener` is given a new function
        from `bind`, not the registered listener, so the listener stays. */
    method DestroyAsWritten()
      modifies this
      ensures !iframe && !ready && listening == old(listening)
      ensures messageHandlers == old(messageHandlers) && pendingRequests == old(pendingRequests)
      ensures requestId == old(requestId) && posted == old(posted) && settled == old(settled) && delivered == old(delivered)
    {
      iframe := false;
      ready := false;
    }
  }

  /** Ids are never reused: each send takes a fresh id, larger than every
      earlier one. */
  method SendTwice(f: KiriFrame, first: string, second: string) returns (a: Result<nat, string>, b: Result<nat, string>)
    requires f.Valid() && f.iframe && f.ready
    modifies f
    ensures a.Ok? && b.Ok? && a.value < b.value
    ensures a.value in f.pendingRequests && b.value in f.pendingRequests
  {
    a := f.SendMessage(first, NoData);
    b := f.SendMessage(second, NoData);
  }

  /** A response settles its request once: the same response a second time
      finds nothing pending and goes to the type's handler instead. */
  method RespondTwice(f: KiriFrame, message: Incoming) returns (settledBefore: nat, settledAfter: nat)
    requires f.Valid() && f.listening && message.id.Some? && message.id.value in f.pendingRequests
    modifies f
    ensures settledAfter == settledBefore + 1
    ensures message.id.value !in f.pendingRequests
  {
    settledBefore := |f.settled|;
    f.HandleMessage(KiriOrigin, message);
    f.HandleMessage(KiriOrigin, message);
    settledAfter := |f.settled|;
  }

  /** With `destroy` as written, a response arriving after `destroy` still
      settles its request: the frame keeps listening. */
  method ListenerOutlivesDestroy() returns (settledAfterDestroy: nat)
    ensures settledAfterDestroy == 1
  {
    var f := new KiriFrame();
    f.Init();
    f.Loaded();
    var r := f.Slice();
    f.DestroyAsWritten();
    f.HandleMessage(KiriOrigin, Incoming("slice", Some(Data(None, None, None, None)), Some(r.value)));
    settledAfterDestroy := |f.settled|;
  }

  /** With `destroy` as intended, the same response changes nothing. */
  method NothingAfterDestroy() returns (settledAfterDestroy: nat)
    ensures settledAfterDestroy == 0
  {
    var f := new KiriFrame();
    f.Init();
    f.Loaded();
    var r := f.Slice();
    f.Destroy();
    f.HandleMessage(KiriOrigin, Incoming("slice", Some(Data(None, None, None, None)), Some(r.value)));
    settledAfterDestroy := |f.settled|;
  }
}
