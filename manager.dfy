/**
 * service/manager.py: `PingManager`, the registry from address to the list of
 * `Request`s probing it, and the producer side of the update queue. The
 * class-level dict and queue of the source are the fields of one object here.
 */
module Manager {
  import opened Wrappers
  import opened Errors
  import opened RequestModels
  import opened Queues
  import opened RequestService

  type Registry = map<string, seq<Request>>

  /** `dict.get(address)` with an absent key read as no requests. */
  function Lookup(m: Registry, address: string): seq<Request> {
    if address in m then m[address] else []
  }

  /** Every request is filed under its own address, and no list is empty. */
  ghost predicate WellKeyed(m: Registry) {
    forall a :: a in m ==> m[a] != [] && forall i :: 0 <= i < |m[a]| ==> m[a][i].address == a
  }

  /**
   * `add_request` lines 21-24: registering files the request at the end of
   * its address's list (a new singleton list when the address was absent)
   * and leaves every other address as it was.
   */
  function Register(m: Registry, r: Request): (n: Registry)
    ensures n.Keys == m.Keys + {r.address}
    ensures n[r.address] == Lookup(m, r.address) + [r]
    ensures forall a :: a in m && a != r.address ==> n[a] == m[a]
  {
    if r.address !in m then m[r.address := [r]] else m[r.address := m[r.address] + [r]]
  }

  lemma RegisterKeepsWellKeyed(m: Registry, r: Request)
    requires WellKeyed(m)
    ensures WellKeyed(Register(m, r))
  {
  }

  lemma {:induction false} RegisterAllKeepsWellKeyed(m: Registry, rs: seq<Request>)
    requires WellKeyed(m)
    ensures WellKeyed(RegisterAll(m, rs))
    decreases |rs|
  {
    if rs != [] {
      RegisterAllKeepsWellKeyed(m, rs[..|rs| - 1]);
      RegisterKeepsWellKeyed(RegisterAll(m, rs[..|rs| - 1]), rs[|rs| - 1]);
    }
  }

  /** `Register` of every request, first to last. */
  function RegisterAll(m: Registry, rs: seq<Request>): Registry
    decreases |rs|
  {
    if rs == [] then m else Register(RegisterAll(m, rs[..|rs| - 1]), rs[|rs| - 1])
  }

  /** The comprehension of line 38: the requests of `rs` whose address is `address`, in order. */
  function MatchingAddress(rs: seq<Request>, address: string): (ms: seq<Request>)
    ensures forall i :: 0 <= i < |ms| ==> ms[i] in rs && ms[i].address == address
    ensures forall i :: 0 <= i < |rs| && rs[i].address == address ==> rs[i] in ms
    decreases |rs|
  {
    if rs == [] then []
    else
      var last := rs[|rs| - 1];
      MatchingAddress(rs[..|rs| - 1], address) + (if last.address == address then [last] else [])
  }

  /**
   * After registering a list, each address holds what it held before followed
   * by the listed requests with that address, in list order.
   */
  lemma {:induction false} RegisterAllAt(m: Registry, rs: seq<Request>, address: string)
    ensures Lookup(RegisterAll(m, rs), address) == Lookup(m, address) + MatchingAddress(rs, address)
    decreases |rs|
  {
    if rs != [] {
      RegisterAllAt(m, rs[..|rs| - 1], address);
    }
  }

  /** Registering a list adds exactly the listed addresses as keys. */
  lemma {:induction false} RegisterAllKeys(m: Registry, rs: seq<Request>)
    ensures RegisterAll(m, rs).Keys == m.Keys + (set r | r in rs :: r.address)
    decreases |rs|
  {
    if rs != [] {
      var init := rs[..|rs| - 1];
      RegisterAllKeys(m, init);
      assert rs == init + [rs[|rs| - 1]];
      AddressesAppend(init, rs[|rs| - 1]);
    }
  }

  lemma AddressesAppend(rs: seq<Request>, r: Request)
    ensures (set q | q in rs + [r] :: q.address) == (set q | q in rs :: q.address) + {r.address}
  {
  }

  /** In a well-keyed registry the comprehension of line 38 keeps the whole list. */
  lemma {:induction false} MatchingKeepsAll(rs: seq<Request>, address: string)
    requires forall i :: 0 <= i < |rs| ==> rs[i].address == address
    ensures MatchingAddress(rs, address) == rs
    decreases |rs|
  {
    if rs != [] {
      MatchingKeepsAll(rs[..|rs| - 1], address);
      assert rs == rs[..|rs| - 1] + [rs[|rs| - 1]];
    }
  }

  /** The metrics records of the requests of `rs`, which `stop` resets. */
  ghost function MetricsOf(rs: seq<Request>): set<RequestMetrics> {
    set i | 0 <= i < |rs| :: rs[i].metrics
  }

  /**
   * What `stop` returns on a request whose task flag is `running` and whose
   * task ended with `taskError` (if it did), where `repeated` says that an
   * earlier `stop` of the same loop already reached it: raise when there is
   * no task, re-raise the error the task ended with, or succeed.
   */
  function StopResult(running: bool, repeated: bool, taskError: Option<Error>): (r: Outcome<Error>)
    ensures r == Pass <==> running && !repeated && taskError.None?
    ensures r.Fail? && r.error != AlreadyStopped ==> taskError == Some(r.error)
    ensures !running ==> r == Fail(AlreadyStopped)
  {
    if !running || repeated then Fail(AlreadyStopped)
    else if taskError.Some? then Fail(taskError.value)
    else Pass
  }

  /**
   * The part of the requests of a list that `stop` reads or writes: each
   * request's `task is not None` flag and the error its task ended with, and
   * the value of each of their metrics records.
   */
  datatype ListState = ListState(running: map<Request, bool>, taskErrors: map<Request, Option<Error>>,
                                 records: map<RequestMetrics, Metrics>)

  ghost function RunningOf(rs: seq<Request>): map<Request, bool>
    reads set r | r in rs
  {
    map r | r in rs :: r.running
  }

  ghost function TaskErrorsOf(rs: seq<Request>): map<Request, Option<Error>>
    reads set r | r in rs
  {
    map r | r in rs :: r.taskError
  }

  ghost function CallbacksOf(rs: seq<Request>): map<Request, bool>
    reads set r | r in rs
  {
    map r | r in rs :: r.hasCallback
  }

  ghost function RecordsOf(rs: seq<Request>): map<RequestMetrics, Metrics>
    reads MetricsOf(rs)
  {
    map m | m in MetricsOf(rs) :: m.Value()
  }

  ghost function ListStateOf(rs: seq<Request>): ListState
    reads (set r | r in rs), MetricsOf(rs)
  {
    ListState(RunningOf(rs), TaskErrorsOf(rs), RecordsOf(rs))
  }

  lemma PrefixExtend(rs: seq<Request>, i: int)
    requires 0 <= i < |rs|
    ensures rs[..i + 1] == rs[..i] + [rs[i]]
  {
  }

  /** Every request of `rs` and its record appear in the list state `s`. */
  ghost predicate Covers(s: ListState, rs: seq<Request>) {
    forall j :: 0 <= j < |rs| ==> rs[j] in s.running && rs[j] in s.taskErrors && rs[j].metrics in s.records
  }

  /** Each request of `done` had a live task that had not raised in `before`, and has no task in `running`. */
  ghost predicate TasksStopped(done: seq<Request>, before: ListState, running: map<Request, bool>) {
    forall j :: 0 <= j < |done| ==>
      && done[j] in before.running && before.running[done[j]]
      && done[j] in before.taskErrors && before.taskErrors[done[j]].None?
      && done[j] in running && !running[done[j]]
  }

  /** Every request outside `done` has the same task flag in `running` as in `before`. */
  ghost predicate TasksKept(done: seq<Request>, before: map<Request, bool>, running: map<Request, bool>) {
    forall r :: r in before && r !in done ==> r in running && running[r] == before[r]
  }

  /** The record of each request of `done` is reset in `records`. */
  ghost predicate RecordsReset(done: seq<Request>, before: map<RequestMetrics, Metrics>,
                               records: map<RequestMetrics, Metrics>) {
    forall j :: 0 <= j < |done| ==>
      done[j].metrics in before && done[j].metrics in records
      && records[done[j].metrics] == before[done[j].metrics].Reset()
  }

  /** Every record that no request of `done` owns has the same value in `records` as in `before`. */
  ghost predicate RecordsKept(done: seq<Request>, before: map<RequestMetrics, Metrics>,
                              records: map<RequestMetrics, Metrics>) {
    forall m :: m in before && (forall j :: 0 <= j < |done| ==> done[j].metrics != m) ==>
      m in records && records[m] == before[m]
  }

  /**
   * `after` is `before` once the first `k` `stop`s of the loop over `rs`
   * succeeded: each of those `k` requests had a live task that had not
   * raised, and is now stopped with its record reset; every other request
   * and record is as it was, and no task error changed.
   */
  ghost predicate StoppedUpTo(rs: seq<Request>, before: ListState, after: ListState, k: int) {
    && 0 <= k <= |rs|
    && Covers(before, rs)
    && TasksStopped(rs[..k], before, after.running)
    && TasksKept(rs[..k], before.running, after.running)
    && after.taskErrors == before.taskErrors
    && RecordsReset(rs[..k], before.records, after.records)
    && RecordsKept(rs[..k], before.records, after.records)
  }

  /** `s` once a `stop` of `r` succeeded: `r` has no task and its record is reset. */
  function Stopped(s: ListState, r: Request): ListState
    requires r.metrics in s.records
  {
    ListState(s.running[r := false], s.taskErrors, s.records[r.metrics := s.records[r.metrics].Reset()])
  }

  lemma TasksStoppedStep(done: seq<Request>, r: Request, before: ListState, running: map<Request, bool>)
    requires TasksStopped(done, before, running)
    requires r in before.running && before.running[r] && r in before.taskErrors && before.taskErrors[r].None?
    ensures TasksStopped(done + [r], before, running[r := false])
  {
    forall j | 0 <= j < |done| + 1
      ensures (done + [r])[j] in running[r := false] && !running[r := false][(done + [r])[j]]
    {
      if j < |done| {
        assert (done + [r])[j] == done[j];
      }
    }
  }

  lemma TasksKeptStep(done: seq<Request>, r: Request, before: map<Request, bool>, running: map<Request, bool>)
    requires TasksKept(done, before, running)
    ensures TasksKept(done + [r], before, running[r := false])
  {
    forall q | q in before && q !in done + [r]
      ensures q in running[r := false] && running[r := false][q] == before[q]
    {
      assert q !in done && q != r;
    }
  }

  /** The record of the next request is reset, whether an earlier `stop` already reset it or not. */
  lemma RecordsResetStep(done: seq<Request>, r: Request, before: map<RequestMetrics, Metrics>,
                         records: map<RequestMetrics, Metrics>)
    requires RecordsReset(done, before, records) && RecordsKept(done, before, records)
    requires r.metrics in before
    ensures r.metrics in records
    ensures RecordsReset(done + [r], before, records[r.metrics := records[r.metrics].Reset()])
  {
    var m := r.metrics;
    if j :| 0 <= j < |done| && done[j].metrics == m {
      assert records[m] == before[m].Reset();
    }
    var after := records[m := records[m].Reset()];
    assert after[m] == before[m].Reset();
    forall j | 0 <= j < |done| + 1
      ensures (done + [r])[j].metrics in after
      ensures after[(done + [r])[j].metrics] == before[(done + [r])[j].metrics].Reset()
    {
      if j < |done| {
        assert (done + [r])[j] == done[j];
      }
    }
  }

  lemma RecordsKeptStep(done: seq<Request>, r: Request, before: map<RequestMetrics, Metrics>,
                        records: map<RequestMetrics, Metrics>)
    requires RecordsKept(done, before, records) && r.metrics in records
    ensures RecordsKept(done + [r], before, records[r.metrics := records[r.metrics].Reset()])
  {
    var after := records[r.metrics := records[r.metrics].Reset()];
    forall m | m in before && (forall j :: 0 <= j < |done| + 1 ==> (done + [r])[j].metrics != m)
      ensures m in after && after[m] == before[m]
    {
      assert (done + [r])[|done|] == r;
      forall j | 0 <= j < |done|
        ensures done[j].metrics != m
      {
        assert (done + [r])[j] == done[j];
      }
    }
  }

  /** A successful `stop` of `rs[i]` extends the stopped prefix by one. */
  lemma StoppedUpToStep(rs: seq<Request>, before: ListState, current: ListState, i: int)
    requires 0 <= i < |rs| && StoppedUpTo(rs, before, current, i)
    requires StopResult(before.running[rs[i]], rs[i] in rs[..i], before.taskErrors[rs[i]]) == Pass
    ensures rs[i].metrics in current.records
    ensures StoppedUpTo(rs, before, Stopped(current, rs[i]), i + 1)
  {
    var r := rs[i];
    PrefixExtend(rs, i);
    TasksStoppedStep(rs[..i], r, before, current.running);
    TasksKeptStep(rs[..i], r, before.running, current.running);
    RecordsResetStep(rs[..i], r, before.records, current.records);
    RecordsKeptStep(rs[..i], r, before.records, current.records);
  }

  /** `stop` on `request`, one of `rs`, seen through the state of `rs`. */
  method StopOne(rs: seq<Request>, request: Request) returns (res: Outcome<Error>)
    requires request in rs
    modifies request`running, request.metrics
    ensures res == StopResult(old(request.running), false, old(request.taskError))
    ensures TaskErrorsOf(rs) == old(TaskErrorsOf(rs))
    ensures res == Pass ==>
      && RunningOf(rs) == old(RunningOf(rs))[request := false]
      && RecordsOf(rs) == old(RecordsOf(rs))[request.metrics := old(request.metrics.Value()).Reset()]
    ensures res != Pass ==> RunningOf(rs) == old(RunningOf(rs)) && RecordsOf(rs) == old(RecordsOf(rs))
  {
    res := request.Stop();
  }

  /** One iteration of the loop of `StopRequests`: `stop` on `rs[i]`. */
  method StopNext(rs: seq<Request>, i: int, request: Request, ghost before: ListState)
    returns (res: Outcome<Error>)
    requires 0 <= i < |rs| && request == rs[i] && StoppedUpTo(rs, before, ListStateOf(rs), i)
    modifies request`running, request.metrics
    ensures res == StopResult(before.running[request], request in rs[..i], before.taskErrors[request])
    ensures StoppedUpTo(rs, before, ListStateOf(rs), if res == Pass then i + 1 else i)
  {
    ghost var current := ListStateOf(rs);
    res := StopOne(rs, request);
    if res == Pass {
      StoppedUpToStep(rs, before, current, i);
      assert ListStateOf(rs) == Stopped(current, request);
    } else {
      assert ListStateOf(rs) == current;
    }
  }

  /**
   * The loop of `remove_requests_by_address`: `stop` on each request in
   * order, raising out of the loop at the first `stop` that raises.
   */
  method StopRequests(rs: seq<Request>) returns (res: Outcome<Error>, ghost stopped: nat)
    modifies (set r | r in rs)`running, MetricsOf(rs)
    ensures StoppedUpTo(rs, old(ListStateOf(rs)), ListStateOf(rs), stopped)
    ensures stopped == |rs| ==> res == Pass
    ensures stopped < |rs| ==>
      && res == StopResult(old(rs[stopped].running), rs[stopped] in rs[..stopped], old(rs[stopped].taskError))
      && res != Pass
  {
    ghost var before := ListStateOf(rs);
    var i := 0;
    while i < |rs|
      invariant StoppedUpTo(rs, before, ListStateOf(rs), i)
    {
      assert rs[i].metrics in MetricsOf(rs);
      res := StopNext(rs, i, rs[i], before);
      if res.Fail? {
        assert before.running[rs[i]] == old(rs[i].running) && before.taskErrors[rs[i]] == old(rs[i].taskError);
        stopped := i;
        return;
      }
      i := i + 1;
    }
    res, stopped := Pass, i;
  }

  /**
   * The flags of `list` once the loop of `add_request_list` has gone through
   * `k` successful `add_request`s, comparing the task flags and callback flags
   * now (`running`, `callbacks`) with those before the loop (`running0`,
   * `callbacks0`): the first `k` requests are distinct, had no task before and
   * now have a task and a callback. When the next one was refused (`m == k + 1`),
   * it too has a task and a callback. Every later request not among the first
   * `m` is as it was.
   */
  ghost predicate StartedUpTo(list: seq<Request>, running0: map<Request, bool>, callbacks0: map<Request, bool>,
                              running: map<Request, bool>, callbacks: map<Request, bool>, k: int, m: int) {
    && 0 <= k <= m <= |list| && m <= k + 1
    && (forall j :: 0 <= j < |list| ==>
          list[j] in running0 && list[j] in callbacks0 && list[j] in running && list[j] in callbacks)
    && (forall j, l :: 0 <= j < l < k ==> list[j] != list[l])
    && (forall j :: 0 <= j < k ==> !running0[list[j]] && running[list[j]] && callbacks[list[j]])
    && (k < m ==> running[list[k]] && callbacks[list[k]])
    && (forall j :: m <= j < |list| && (forall l :: 0 <= l < m ==> list[l] != list[j]) ==>
          running[list[j]] == running0[list[j]] && callbacks[list[j]] == callbacks0[list[j]])
  }

  /** An `add_request` of `list[i]` that starts it extends the registered prefix by one. */
  lemma StartedStep(list: seq<Request>, running0: map<Request, bool>, callbacks0: map<Request, bool>,
                    running: map<Request, bool>, callbacks: map<Request, bool>, i: int)
    requires 0 <= i < |list| && StartedUpTo(list, running0, callbacks0, running, callbacks, i, i)
    requires !running[list[i]]
    ensures StartedUpTo(list, running0, callbacks0, running[list[i] := true], callbacks[list[i] := true], i + 1, i + 1)
  {
    var r := list[i];
    forall l | 0 <= l < i
      ensures list[l] != r
    {
      assert running[list[l]];
    }
    var running', callbacks' := running[r := true], callbacks[r := true];
    forall j | i + 1 <= j < |list| && (forall l :: 0 <= l < i + 1 ==> list[l] != list[j])
      ensures running'[list[j]] == running0[list[j]] && callbacks'[list[j]] == callbacks0[list[j]]
    {
      assert list[i] != list[j];
    }
  }

  /**
   * An `add_request` of `list[i]` that is refused leaves it with a task and a
   * callback; it was refused because it had a task before the loop or
   * because it was listed earlier.
   */
  lemma RefusedStep(list: seq<Request>, running0: map<Request, bool>, callbacks0: map<Request, bool>,
                    running: map<Request, bool>, callbacks: map<Request, bool>, i: int)
    requires 0 <= i < |list| && StartedUpTo(list, running0, callbacks0, running, callbacks, i, i)
    requires running[list[i]]
    ensures StartedUpTo(list, running0, callbacks0, running[list[i] := true], callbacks[list[i] := true], i, i + 1)
    ensures running0[list[i]] || list[i] in list[..i]
  {
    var r := list[i];
    if !running0[r] {
      var l :| 0 <= l < i && list[l] == r;
      assert list[..i][l] == r;
    }
    var running', callbacks' := running[r := true], callbacks[r := true];
    forall j | i + 1 <= j < |list| && (forall l :: 0 <= l < i + 1 ==> list[l] != list[j])
      ensures running'[list[j]] == running0[list[j]] && callbacks'[list[j]] == callbacks0[list[j]]
    {
      assert list[i] != list[j];
    }
  }

  class PingManager {
    var requests: Registry
    var updateQueue: UpdateQueue?

    ghost predicate Valid()
      reads this
    {
      WellKeyed(requests)
    }

    constructor ()
      ensures Valid() && requests == map[] && updateQueue == null
    {
      requests := map[];
      updateQueue := null;
    }

    /** `set_update_queue`. */
    method SetUpdateQueue(queue: UpdateQueue)
      modifies this`updateQueue
      ensures updateQueue == queue
    {
      updateQueue := queue;
    }

    /**
     * `add_request`: wires the callback, starts the request, and only when
     * the start succeeded files it under its address.
     */
    method AddRequest(request: Request) returns (res: Outcome<Error>)
      requires Valid()
      modifies this`requests, request`running, request`hasCallback
      ensures Valid()
      ensures request.hasCallback && request.running
      ensures old(request.running) ==> res == Fail(AlreadyStarted) && requests == old(requests)
      ensures !old(request.running) ==> res == Pass && requests == Register(old(requests), request)
    {
      RegisterKeepsWellKeyed(requests, request);
      request.SetUpdateCallback();
      res := request.Start();
      if res.Fail? {
        return;
      }
      if request.address !in requests {
        requests := requests[request.address := [request]];
      } else {
        requests := requests[request.address := requests[request.address] + [request]];
      }
    }

    /**
     * `add_request_list`: `add_request` on each element in order, stopping at
     * the first that fails. `added` is how many were registered.
     */
    method AddRequestList(list: seq<Request>) returns (res: Outcome<Error>, ghost added: nat)
      requires Valid()
      modifies this`requests, (set r | r in list)`running, (set r | r in list)`hasCallback
      ensures Valid()
      ensures added <= |list|
      ensures requests == RegisterAll(old(requests), list[..added])
      ensures res == Pass <==> added == |list|
      ensures res != Pass ==> res == Fail(AlreadyStarted)
      ensures added < |list| ==> old(list[added].running) || list[added] in list[..added]
      ensures StartedUpTo(list, old(RunningOf(list)), old(CallbacksOf(list)), RunningOf(list), CallbacksOf(list),
                          added, if res == Pass then added else added + 1)
    {
      ghost var registry0, running0, callbacks0 := requests, RunningOf(list), CallbacksOf(list);
      var i := 0;
      res := Pass;
      while i < |list| && res == Pass
        invariant 0 <= i <= |list|
        invariant requests == RegisterAll(registry0, list[..i])
        invariant StartedUpTo(list, running0, callbacks0, RunningOf(list), CallbacksOf(list),
                              i, if res == Pass then i else i + 1)
        invariant res != Pass ==> i < |list| && res == Fail(AlreadyStarted) && (running0[list[i]] || list[i] in list[..i])
        decreases |list| - i, if res == Pass then 1 else 0
      {
        res := AddNext(list, i, list[i], registry0, running0, callbacks0);
        if res == Pass {
          i := i + 1;
        }
      }
      RegisterAllKeepsWellKeyed(registry0, list[..i]);
      assert i == |list| ==> list[..i] == list;
      added := i;
    }

    /** One iteration of the loop of `AddRequestList`: `add_request` on `list[i]`. */
    method AddNext(list: seq<Request>, i: int, request: Request, ghost registry0: Registry,
                   ghost running0: map<Request, bool>, ghost callbacks0: map<Request, bool>)
      returns (res: Outcome<Error>)
      requires WellKeyed(registry0) && 0 <= i < |list| && request == list[i]
      requires requests == RegisterAll(registry0, list[..i])
      requires StartedUpTo(list, running0, callbacks0, RunningOf(list), CallbacksOf(list), i, i)
      modifies this`requests, request`running, request`hasCallback
      ensures res == Pass ==>
        && requests == RegisterAll(registry0, list[..i + 1])
        && StartedUpTo(list, running0, callbacks0, RunningOf(list), CallbacksOf(list), i + 1, i + 1)
      ensures res != Pass ==>
        && res == Fail(AlreadyStarted) && requests == old(requests)
        && StartedUpTo(list, running0, callbacks0, RunningOf(list), CallbacksOf(list), i, i + 1)
        && (running0[request] || request in list[..i])
    {
      ghost var running, callbacks := RunningOf(list), CallbacksOf(list);
      RegisterAllKeepsWellKeyed(registry0, list[..i]);
      assert list[..i + 1][..i] == list[..i];
      assert RegisterAll(registry0, list[..i + 1]) == Register(requests, request);
      res := AddOne(list, request);
      if res == Pass {
        StartedStep(list, running0, callbacks0, running, callbacks, i);
      } else {
        RefusedStep(list, running0, callbacks0, running, callbacks, i);
      }
    }

    /** `add_request` on `request`, one of `list`, seen through the flags of `list`. */
    method AddOne(list: seq<Request>, request: Request) returns (res: Outcome<Error>)
      requires Valid() && request in list
      modifies this`requests, request`running, request`hasCallback
      ensures old(request.running) ==> res == Fail(AlreadyStarted) && requests == old(requests)
      ensures !old(request.running) ==> res == Pass && requests == Register(old(requests), request)
      ensures RunningOf(list) == old(RunningOf(list))[request := true]
      ensures CallbacksOf(list) == old(CallbacksOf(list))[request := true]
    {
      res := AddRequest(request);
    }

    /**
     * `remove_requests_by_address`: an unknown address raises and changes
     * nothing; otherwise the requests under it are stopped in order up to the
     * first `stop` that raises (`stopped` of them). When all were stopped and
     * the queue is set, one DELETE is put at the queue tail and the key is dropped.
     */
    method RemoveRequestsByAddress(address: string) returns (res: Outcome<Error>, ghost stopped: nat)
      requires Valid()
      modifies this`requests, updateQueue
      modifies (set r | r in Lookup(requests, address))`running, MetricsOf(Lookup(requests, address))
      ensures Valid()
      ensures address !in old(requests) ==>
        res == Fail(AddressNotActive) && requests == old(requests)
        && (updateQueue != null ==> updateQueue.items == old(updateQueue.items))
      ensures address in old(requests) ==>
        var rs := old(requests[address]);
        && StoppedUpTo(rs, old(ListStateOf(rs)), ListStateOf(rs), stopped)
        && (stopped < |rs| ==>
              && res == StopResult(old(rs[stopped].running), rs[stopped] in rs[..stopped],
                                   old(rs[stopped].taskError))
              && res != Pass
              && requests == old(requests)
              && (updateQueue != null ==> updateQueue.items == old(updateQueue.items)))
        && (stopped == |rs| && updateQueue == null ==>
              res == Fail(QueueNotDefined) && requests == old(requests))
        && (stopped == |rs| && updateQueue != null ==>
              && res == Pass
              && requests == old(requests) - {address}
              && updateQueue.items == old(updateQueue.items) + [RequestUpdateMessage(DELETE, address, None)])
    {
      if address !in requests {
        return Fail(AddressNotActive), 0;
      }
      var requestsList := requests[address];
      MatchingKeepsAll(requestsList, address);
      var matching := MatchingAddress(requestsList, address);
      assert matching == requestsList;
      res, stopped := StopAndUnregister(address, matching);
    }

    /**
     * What is left of `remove_requests_by_address` once the address was
     * found, on the requests the comprehension kept: the `stop` loop, the
     * queue check, the DELETE and the `pop`.
     */
    method StopAndUnregister(address: string, rs: seq<Request>) returns (res: Outcome<Error>, ghost stopped: nat)
      requires Valid() && address in requests && rs == requests[address]
      modifies this`requests, updateQueue, (set r | r in rs)`running, MetricsOf(rs)
      ensures Valid()
      ensures StoppedUpTo(rs, old(ListStateOf(rs)), ListStateOf(rs), stopped)
      ensures stopped < |rs| ==>
        && res == StopResult(old(rs[stopped].running), rs[stopped] in rs[..stopped], old(rs[stopped].taskError))
        && res != Pass
        && requests == old(requests)
        && (updateQueue != null ==> updateQueue.items == old(updateQueue.items))
      ensures stopped == |rs| && updateQueue == null ==>
        res == Fail(QueueNotDefined) && requests == old(requests)
      ensures stopped == |rs| && updateQueue != null ==>
        && res == Pass
        && requests == old(requests) - {address}
        && updateQueue.items == old(updateQueue.items) + [RequestUpdateMessage(DELETE, address, None)]
    {
      res, stopped := StopRequests(rs);
      if res == Pass {
        ghost var after := ListStateOf(rs);
        res := Unregister(address, rs);
        assert ListStateOf(rs) == after;
      }
    }

    /**
     * The end of `remove_requests_by_address` once every `stop` succeeded:
     * raise when no queue is set, otherwise put one DELETE at the queue tail
     * and `pop` the address.
     */
    method Unregister(address: string, ghost rs: seq<Request>) returns (res: Outcome<Error>)
      requires Valid() && address in requests
      modifies this`requests, updateQueue
      ensures Valid()
      ensures unchanged(set r | r in rs) && unchanged(MetricsOf(rs))
      ensures updateQueue == null ==> res == Fail(QueueNotDefined) && requests == old(requests)
      ensures updateQueue != null ==>
        && res == Pass
        && requests == old(requests) - {address}
        && updateQueue.items == old(updateQueue.items) + [RequestUpdateMessage(DELETE, address, None)]
    {
      if updateQueue == null {
        return Fail(QueueNotDefined);
      }
      updateQueue.Put(RequestUpdateMessage(DELETE, address, None));
      requests := requests - {address};
      res := Pass;
    }

    /** `__request_updated_handler`: one UPDATE at the queue tail, or a raise when no queue is set. */
    method RequestUpdatedHandler(address: string, metrics: Metrics) returns (res: Outcome<Error>)
      modifies updateQueue
      ensures updateQueue == null ==> res == Fail(QueueNotDefined)
      ensures updateQueue != null ==>
        res == Pass && updateQueue.items == old(updateQueue.items) + [RequestUpdateMessage(UPDATE, address, Some(metrics))]
    {
      if updateQueue == null {
        return Fail(QueueNotDefined);
      }
      updateQueue.Put(RequestUpdateMessage(UPDATE, address, Some(metrics)));
      res := Pass;
    }

    /**
     * One probe completion of a registered request whose polling task is
     * alive: `__run_request` folds the outcome and calls the callback
     * `add_request` installed, that is, `__request_updated_handler` with the
     * request's address and snapshot. When that raises, the exception ends the
     * polling task.
     */
    method ProbeCompleted(request: Request, outcome: ProbeOutcome, round: Rounder) returns (res: Outcome<Error>)
      requires request.running && request.taskError.None? && request.hasCallback
      modifies request`averageTimeSumMs, request.metrics, request`taskError, updateQueue
      ensures request.State() == Fold(old(request.State()), DelayOf(outcome))
      ensures updateQueue == null ==> res == Fail(QueueNotDefined) && request.taskError == Some(QueueNotDefined)
      ensures updateQueue != null ==>
        && res == Pass && request.taskError.None?
        && updateQueue.items == old(updateQueue.items)
             + [RequestUpdateMessage(UPDATE, request.address, Some(request.GetMetrics(round)))]
    {
      var notification := request.RunRequest(outcome, round);
      res := RequestUpdatedHandler(request.address, notification.value);
      if res.Fail? {
        request.TaskRaised(res.error);
      }
    }
  }
}
