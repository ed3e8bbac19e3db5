/**
 * view/cli.py: the consumer side. `CLIView` drains the update queue and keeps
 * a table from address to the latest snapshot, dispatching each message
 * through a table of handler methods keyed by its operation tag; it also
 * encodes a trend of delays as a string of block characters.
 */
module CliView {
  import opened Wrappers
  import opened Errors
  import opened RequestModels
  import opened Queues
  import opened ViewUtil

  /** `__BLOCKS`: the eight block characters U+2581 to U+2588, lowest first. */
  const BLOCKS: string := "▁▂▃▄▅▆▇█"
  /** `__BLOCKS_LEVELS`. */
  const BLOCKS_LEVELS: int := 8

  /** The two static handlers the dispatch table can hold: `__update_request_entry` and `__delete_request_entry`. */
  datatype HandlerMethod = UpdateHandler | DeleteHandler

  type Table = map<string, Metrics>
  type Handlers = map<RequestUpdateOperation, HandlerMethod>

  /**
   * What a handler does to the table: `__update_request_entry` upserts the
   * snapshot and rejects a message without one; `__delete_request_entry`
   * pops the address and, like `dict.pop`, raises when it is absent.
   */
  function ApplyHandler(h: HandlerMethod, table: Table, message: RequestUpdateMessage): (r: Result<Table, Error>)
    ensures h == UpdateHandler && message.metrics.None? ==> r == Err(MissingMetrics)
    ensures h == UpdateHandler && message.metrics.Some? ==>
      && r.Ok? && r.value.Keys == table.Keys + {message.address}
      && r.value[message.address] == message.metrics.value
      && forall a :: a in table && a != message.address ==> r.value[a] == table[a]
    ensures h == DeleteHandler && message.address !in table ==> r == Err(MissingEntry)
    ensures h == DeleteHandler && message.address in table ==>
      && r.Ok? && r.value.Keys == table.Keys - {message.address}
      && forall a :: a in r.value ==> r.value[a] == table[a]
  {
    match h
    case UpdateHandler =>
      if message.metrics.None? then Err(MissingMetrics)
      else Ok(table[message.address := message.metrics.value])
    case DeleteHandler =>
      if message.address !in table then Err(MissingEntry)
      else Ok(table - {message.address})
  }

  /** Lines 116-120: look the tag up and run its handler; a tag without one raises. */
  function Dispatch(handlers: Handlers, table: Table, message: RequestUpdateMessage): (r: Result<Table, Error>)
    ensures r == Err(UnknownOperation) <==> message.operation !in handlers
    ensures message.operation in handlers ==> r == ApplyHandler(handlers[message.operation], table, message)
  {
    if message.operation !in handlers then Err(UnknownOperation)
    else ApplyHandler(handlers[message.operation], table, message)
  }

  /** The dispatch table after `__init_handler_methods`. */
  function InitializedHandlers(handlers: Handlers): (h: Handlers)
    ensures UPDATE in h && h[UPDATE] == UpdateHandler
    ensures DELETE in h && h[DELETE] == DeleteHandler
  {
    handlers[UPDATE := UpdateHandler][DELETE := DeleteHandler]
  }

  /**
   * Once the handlers are installed, dispatch is total over the two tags: an
   * UPDATE upserts (or rejects a missing snapshot) and a DELETE removes.
   */
  lemma InitializedDispatch(handlers: Handlers, table: Table, message: RequestUpdateMessage)
    ensures var r := Dispatch(InitializedHandlers(handlers), table, message);
      && r != Err(UnknownOperation)
      && (message.operation == UPDATE ==> r == ApplyHandler(UpdateHandler, table, message))
      && (message.operation == DELETE ==> r == ApplyHandler(DeleteHandler, table, message))
  {
    var h := InitializedHandlers(handlers);
    assert UPDATE in h && DELETE in h;
    assert h[UPDATE] == UpdateHandler && h[DELETE] == DeleteHandler;
    match message.operation
    case UPDATE =>
    case DELETE =>
  }

  /** Before `init`, every message is refused as an unknown operation. */
  lemma UninitializedDispatch(table: Table, message: RequestUpdateMessage)
    ensures Dispatch(map[], table, message) == Err(UnknownOperation)
  {
  }

  /** The state of the consumer after taking messages until the queue is empty or a handler raises. */
  datatype Drained = Drained(table: Table, consumed: nat, failure: Option<Error>)

  /** Messages are taken from the head, one at a time; the first that raises is the last taken. */
  function Drain(handlers: Handlers, table: Table, messages: seq<RequestUpdateMessage>): (d: Drained)
    ensures d.consumed <= |messages|
    ensures d.failure.None? ==> d.consumed == |messages|
    decreases |messages|
  {
    if messages == [] then Drained(table, 0, None)
    else
      match Dispatch(handlers, table, messages[0])
      case Err(e) => Drained(table, 1, Some(e))
      case Ok(t) =>
        var d := Drain(handlers, t, messages[1..]);
        d.(consumed := d.consumed + 1)
  }

  /** Draining two batches in a row is draining their concatenation. */
  lemma {:induction false} DrainAppend(handlers: Handlers, table: Table,
                                       xs: seq<RequestUpdateMessage>, ys: seq<RequestUpdateMessage>)
    requires Drain(handlers, table, xs).failure.None?
    ensures var d := Drain(handlers, table, xs);
      Drain(handlers, table, xs + ys) == Drain(handlers, d.table, ys).(consumed := |xs| + Drain(handlers, d.table, ys).consumed)
    decreases |xs|
  {
    if xs != [] {
      assert (xs + ys)[0] == xs[0] && (xs + ys)[1..] == xs[1..] + ys;
      var t := Dispatch(handlers, table, xs[0]).value;
      DrainAppend(handlers, t, xs[1..], ys);
    } else {
      assert xs + ys == ys;
    }
  }

  /**
   * Messages as the registry produces them: every UPDATE carries a snapshot.
   * With the handlers installed, such a stream can only fail on a DELETE of
   * an address the table does not hold.
   */
  lemma {:induction false} ProducedStreamFailures(handlers: Handlers, table: Table, messages: seq<RequestUpdateMessage>)
    requires forall i :: 0 <= i < |messages| && messages[i].operation == UPDATE ==> messages[i].metrics.Some?
    ensures Drain(InitializedHandlers(handlers), table, messages).failure in {None, Some(MissingEntry)}
    decreases |messages|
  {
    if messages != [] {
      var r := Dispatch(InitializedHandlers(handlers), table, messages[0]);
      if r.Ok? {
        ProducedStreamFailures(handlers, r.value, messages[1..]);
      }
    }
  }

  /**
   * A DELETE for an address the consumer shows, taken after a clean drain,
   * removes the address from the table.
   */
  lemma DeleteRemovesAddress(handlers: Handlers, table: Table, messages: seq<RequestUpdateMessage>, address: string)
    requires Drain(InitializedHandlers(handlers), table, messages).failure.None?
    requires address in Drain(InitializedHandlers(handlers), table, messages).table
    ensures var d := Drain(InitializedHandlers(handlers), table,
                           messages + [RequestUpdateMessage(DELETE, address, None)]);
      d.failure.None? && address !in d.table && d.consumed == |messages| + 1
  {
    var h := InitializedHandlers(handlers);
    var del := RequestUpdateMessage(DELETE, address, None);
    DrainAppend(h, table, messages, [del]);
    var t := Drain(h, table, messages).table;
    assert Dispatch(h, t, del) == Ok(t - {address});
    assert [del][1..] == [];
  }

  /** Python's indexing guard of lines 68-71: the index forced into `[0, 7]`. */
  function Clamp(k: int): (c: int)
    ensures 0 <= c < BLOCKS_LEVELS && c < |BLOCKS|
    ensures 0 <= k < BLOCKS_LEVELS ==> c == k
    ensures k < 0 ==> c == 0
    ensures k >= BLOCKS_LEVELS ==> c == BLOCKS_LEVELS - 1
  {
    if k < 0 then 0 else if k > BLOCKS_LEVELS - 1 then BLOCKS_LEVELS - 1 else k
  }

  /** The block a present value is drawn with: scaled onto `[0, 7]`, rounded, clamped. */
  function BlockIndex(value: real, inMin: real, inMax: real, round: real -> int): (k: int)
    requires inMin != inMax
    ensures 0 <= k < |BLOCKS|
  {
    Clamp(round(ScaleValue(value, inMin, inMax, 0.0, (BLOCKS_LEVELS - 1) as real)))
  }

  /**
   * With a rounding that is monotone and exact on whole numbers, the minimum
   * is drawn with the lowest block, the maximum with the highest, and a larger
   * value never gets a lower block.
   */
  lemma BlockIndexOrdered(v: real, w: real, inMin: real, inMax: real, round: real -> int)
    requires inMin < inMax && v <= w
    requires forall x, y :: x <= y ==> round(x) <= round(y)
    requires round(0.0) == 0 && round(7.0) == 7
    ensures BlockIndex(inMin, inMin, inMax, round) == 0
    ensures BlockIndex(inMax, inMin, inMax, round) == BLOCKS_LEVELS - 1
    ensures BlockIndex(v, inMin, inMax, round) <= BlockIndex(w, inMin, inMax, round)
  {
    ScaleAtMin(inMin, inMax, 0.0, 7.0);
    ScaleAtMax(inMin, inMax, 0.0, 7.0);
    ScaleMonotone(v, w, inMin, inMax, 0.0, 7.0);
  }

  /** The guard of line 55: no trend without two distinct defined extremes. */
  function NoTrend(metrics: Metrics): (b: bool)
    ensures !b ==> metrics.minTimeMs.Some? && metrics.maxTimeMs.Some? && metrics.maxTimeMs.value - metrics.minTimeMs.value != 0.0
    ensures metrics.TimingUndefined() ==> b
    ensures metrics.minTimeMs.Some? && metrics.minTimeMs == metrics.maxTimeMs ==> b
  {
    metrics.minTimeMs.None? || metrics.maxTimeMs.None? || metrics.minTimeMs == metrics.maxTimeMs
  }

  /**
   * `__render_histogram` as written: past the guard it reads
   * `metrics.histogram_values`, a field `RequestMetrics` does not declare.
   */
  function RenderHistogramAsWritten(metrics: Metrics): (r: Result<string, Error>)
    ensures NoTrend(metrics) <==> r == Ok("")
    ensures !NoTrend(metrics) ==> r == Err(AttributeMissing)
  {
    if NoTrend(metrics) then Ok("") else Err(AttributeMissing)
  }

  /** Any target with two different delays cannot have its row drawn as written. */
  lemma HistogramValuesMissing(callersNumber: int)
    ensures RenderHistogramAsWritten(
      Defaults(callersNumber).(minTimeMs := Some(10.0), maxTimeMs := Some(20.0))) == Err(AttributeMissing)
  {
  }

  /**
   * `__render_histogram` with the trend buffer passed in: a copy of it is
   * consumed from the left, a missing value drawn as a space and a present
   * one as its block, so the result has one character per buffered value.
   */
  method RenderHistogram(metrics: Metrics, histogramValues: seq<Option<real>>, round: real -> int)
    returns (trend: string)
    ensures NoTrend(metrics) ==> trend == ""
    ensures !NoTrend(metrics) ==>
      && |trend| == |histogramValues|
      && forall i :: 0 <= i < |histogramValues| ==>
           (histogramValues[i].None? ==> trend[i] == ' ')
           && (histogramValues[i].Some? ==> trend[i] == BLOCKS[BlockIndex(
                 histogramValues[i].value, metrics.minTimeMs.value, metrics.maxTimeMs.value, round)])
  {
    trend := "";
    if NoTrend(metrics) {
      return;
    }
    var inMin, inMax := metrics.minTimeMs.value, metrics.maxTimeMs.value;
    var outMin, outMax := 0, BLOCKS_LEVELS - 1;
    var histogramCopy := histogramValues;
    while |histogramCopy| > 0
      invariant |trend| + |histogramCopy| == |histogramValues|
      invariant histogramCopy == histogramValues[|trend|..]
      invariant forall i :: 0 <= i < |trend| ==>
           (histogramValues[i].None? ==> trend[i] == ' ')
           && (histogramValues[i].Some? ==> trend[i] == BLOCKS[BlockIndex(histogramValues[i].value, inMin, inMax, round)])
    {
      var value := histogramCopy[0];
      histogramCopy := histogramCopy[1..];
      if value.None? {
        trend := trend + " ";
        continue;
      }
      var trendValue := round(ScaleValue(value.value, inMin, inMax, outMin as real, outMax as real));
      if trendValue < outMin {
        trendValue := outMin;
      } else if trendValue > outMax {
        trendValue := outMax;
      }
      trend := trend + [BLOCKS[trendValue]];
    }
  }

  /** A drawn trend is made of spaces and blocks only, a space exactly where a value is missing. */
  lemma TrendAlphabet(metrics: Metrics, histogramValues: seq<Option<real>>, round: real -> int, trend: string, i: int)
    requires !NoTrend(metrics) && |trend| == |histogramValues| && 0 <= i < |trend|
    requires histogramValues[i].None? ==> trend[i] == ' '
    requires histogramValues[i].Some? ==> trend[i] == BLOCKS[BlockIndex(
                 histogramValues[i].value, metrics.minTimeMs.value, metrics.maxTimeMs.value, round)]
    ensures trend[i] == ' ' <==> histogramValues[i].None?
    ensures histogramValues[i].Some? ==> trend[i] in BLOCKS
  {
    assert ' ' !in BLOCKS;
  }

  class CLIView {
    var requestMetrics: Table
    var updateQueue: UpdateQueue?
    var handlerMethods: Handlers

    constructor ()
      ensures requestMetrics == map[] && updateQueue == null && handlerMethods == map[]
    {
      requestMetrics := map[];
      updateQueue := null;
      handlerMethods := map[];
    }

    /** `set_update_queue`. */
    method SetUpdateQueue(queue: UpdateQueue)
      modifies this`updateQueue
      ensures updateQueue == queue
    {
      updateQueue := queue;
    }

    /** `__init_handler_methods`: both tags get their handler. */
    method InitHandlerMethods()
      modifies this`handlerMethods
      ensures handlerMethods == InitializedHandlers(old(handlerMethods))
      ensures UPDATE in handlerMethods && DELETE in handlerMethods
    {
      handlerMethods := handlerMethods[UPDATE := UpdateHandler];
      handlerMethods := handlerMethods[DELETE := DeleteHandler];
    }

    /** `__update_request_entry`. */
    method UpdateRequestEntry(message: RequestUpdateMessage) returns (res: Outcome<Error>)
      modifies this`requestMetrics
      ensures Reflects(res, requestMetrics, old(requestMetrics),
                       ApplyHandler(UpdateHandler, old(requestMetrics), message))
    {
      if message.metrics.None? {
        return Fail(MissingMetrics);
      }
      requestMetrics := requestMetrics[message.address := message.metrics.value];
      res := Pass;
    }

    /** `__delete_request_entry`. */
    method DeleteRequestEntry(message: RequestUpdateMessage) returns (res: Outcome<Error>)
      modifies this`requestMetrics
      ensures Reflects(res, requestMetrics, old(requestMetrics),
                       ApplyHandler(DeleteHandler, old(requestMetrics), message))
    {
      if message.address !in requestMetrics {
        return Fail(MissingEntry);
      }
      requestMetrics := requestMetrics - {message.address};
      res := Pass;
    }

    /** The body of the receive loop for one message: look the handler up and call it. */
    method HandleMessage(message: RequestUpdateMessage) returns (res: Outcome<Error>)
      modifies this`requestMetrics
      ensures Reflects(res, requestMetrics, old(requestMetrics),
                       Dispatch(handlerMethods, old(requestMetrics), message))
    {
      if message.operation !in handlerMethods {
        return Fail(UnknownOperation);
      }
      match handlerMethods[message.operation]
      case UpdateHandler => res := UpdateRequestEntry(message);
      case DeleteHandler => res := DeleteRequestEntry(message);
    }

    /**
     * `__receive_updates`: raises when no queue is set; otherwise takes
     * messages from the head in order and applies each, until a handler raises
     * or the queue is empty (where the real loop waits for the next message).
     */
    method ReceiveUpdates() returns (res: Outcome<Error>)
      modifies this`requestMetrics, updateQueue
      ensures updateQueue == null ==> res == Fail(QueueNotDefined) && requestMetrics == old(requestMetrics)
      ensures updateQueue != null ==>
        var d := Drain(handlerMethods, old(requestMetrics), old(updateQueue.items));
        && requestMetrics == d.table
        && updateQueue.items == old(updateQueue.items)[d.consumed..]
        && res == (if d.failure.None? then Pass else Fail(d.failure.value))
    {
      if updateQueue == null {
        return Fail(QueueNotDefined);
      }
      ghost var all := updateQueue.items;
      ghost var k := 0;
      while updateQueue.items != []
        invariant 0 <= k <= |all| && updateQueue.items == all[k..]
        invariant var d := Drain(handlerMethods, requestMetrics, updateQueue.items);
          Drain(handlerMethods, old(requestMetrics), all) == d.(consumed := d.consumed + k)
        decreases |updateQueue.items|
      {
        var message := updateQueue.Get();
        assert updateQueue.items == all[k + 1..];
        res := HandleMessage(message.value);
        k := k + 1;
        if res.Fail? {
          return;
        }
      }
      res := Pass;
    }
  }

  /** A handler's outcome and new table agree with its specification `r`. */
  ghost predicate Reflects(res: Outcome<Error>, table: Table, oldTable: Table, r: Result<Table, Error>) {
    match r
    case Ok(t) => res == Pass && table == t
    case Err(e) => res == Fail(e) && table == oldTable
  }
}
