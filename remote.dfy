/** The collaborators the core drives, as oracles: the compute provider's
    SDK calls and the cluster scale-utils hooks. Every call is appended, in
    the order it is issued, to one shared log; an oracle answers from the
    events issued before the call and the call's arguments. */
module Remote {
  import opened Wrappers
  import opened InstanceRequest
  import opened InstanceServer

  /** A cluster node chosen for scale-in, with the provider ID of its server. */
  datatype NodeResourceID = NodeResourceID(nomadNodeId: string, remoteResourceId: string)

  datatype Event =
    | ListCall(query: ListQuery)                      // ListServers, one page
    | CreateCall(create: CreateRequest)               // CreateServer
    | UserDataCall(zone: string, serverId: string, userData: map<string, string>) // SetAllServerUserData
    | ActionCall(action: ActionRequest)               // ServerActionAndWait
    | DeleteCall(delete: DeleteRequest)               // DeleteServer
    | DeleteVolumeCall(volumeZone: string, volumeId: string) // DeleteVolume
    | PreScaleInCall(ids: seq<string>, num: int)      // RunPreScaleInTasksWithRemoteCheck
    | PostScaleInCall(nodes: seq<NodeResourceID>)     // RunPostScaleInTasks
    | PoolReadyCall                                   // IsPoolReady

  type History = seq<Event>

  /** The provider: a page of servers per listing, a server per creation, and
      for every other call only an optional error. Beyond `lastPage` every
      listing is empty or fails (see `Paginates`). */
  datatype Provider = Provider(
    listPage: (History, ListQuery) -> Result<seq<Server>, Error>,
    create: (History, CreateRequest) -> Result<Server, Error>,
    outcome: (History, Event) -> Option<Error>,
    lastPage: int)

  /** A listing response that ends pagination. */
  predicate Ends(r: Result<seq<Server>, Error>) {
    r.Err? || r.value == []
  }

  /** The provider eventually answers a listing with an empty page or an error. */
  ghost predicate Paginates(p: Provider) {
    forall h: History, q: ListQuery :: q.page > p.lastPage ==> Ends(p.listPage(h, q))
  }

  /** The error the provider answers a call issued after history `h` with, if any. */
  ghost function ErrorOf(p: Provider, h: History, e: Event): Option<Error> {
    if e.ListCall? then ResultError(p.listPage(h, e.query))
    else if e.CreateCall? then ResultError(p.create(h, e.create))
    else p.outcome(h, e)
  }

  /** The error of a Go `(value, error)` pair, if any. */
  function ResultError<T>(r: Result<T, Error>): Option<Error> {
    if r.Err? then Some(r.error) else None
  }

  /** Whether the provider rejects a call issued after history `h`. */
  ghost predicate Fails(p: Provider, h: History, e: Event) {
    ErrorOf(p, h, e).Some?
  }

  ghost predicate AllSucceed(p: Provider, h: History, calls: History) {
    forall i :: 0 <= i < |calls| ==> !Fails(p, h + calls[..i], calls[i])
  }

  /** Fail-fast: when `err` is an error, the last call is the first and only
      one that failed and `err` is that call's error; otherwise every call
      succeeded. */
  ghost predicate StopsAtFirstFailure(p: Provider, h: History, calls: History, err: Option<Error>) {
    if err.Some? then
      && |calls| > 0
      && AllSucceed(p, h, calls[..|calls| - 1])
      && ErrorOf(p, h + calls[..|calls| - 1], calls[|calls| - 1]) == err
    else AllSucceed(p, h, calls)
  }

  /** A single call fails fast whatever its outcome. */
  lemma StopsAtFirstFailureSingle(p: Provider, h: History, c: Event)
    ensures StopsAtFirstFailure(p, h, [c], ErrorOf(p, h, c))
  {
    assert [c][..0] == [];
    assert h + [c][..0] == h;
  }

  /** A successful call followed by successful calls is a run of successful calls. */
  lemma AllSucceedCons(p: Provider, h: History, c: Event, rest: History)
    requires !Fails(p, h, c)
    requires AllSucceed(p, h + [c], rest)
    ensures AllSucceed(p, h, [c] + rest)
  {
    var calls := [c] + rest;
    forall i | 0 <= i < |calls|
      ensures !Fails(p, h + calls[..i], calls[i])
    {
      if i == 0 {
        assert h + calls[..0] == h;
      } else {
        assert calls[..i] == [c] + rest[..i - 1];
        assert h + calls[..i] == (h + [c]) + rest[..i - 1];
        assert calls[i] == rest[i - 1];
      }
    }
  }

  /** A successful call followed by a fail-fast sequence is a fail-fast sequence. */
  lemma StopsAtFirstFailureCons(p: Provider, h: History, c: Event, rest: History, err: Option<Error>)
    requires !Fails(p, h, c)
    requires StopsAtFirstFailure(p, h + [c], rest, err)
    ensures StopsAtFirstFailure(p, h, [c] + rest, err)
  {
    var calls := [c] + rest;
    if err.Some? {
      var n := |rest| - 1;
      AllSucceedCons(p, h, c, rest[..n]);
      assert calls[..|calls| - 1] == [c] + rest[..n];
      assert h + calls[..|calls| - 1] == (h + [c]) + rest[..n];
    } else {
      AllSucceedCons(p, h, c, rest);
    }
  }

  /** The kinds of call, for counting. */
  datatype Kind = ListKind | CreateKind | UserDataKind | ActionKind | DeleteKind | DeleteVolumeKind
                | PreScaleInKind | PostScaleInKind | PoolReadyKind

  function KindOf(e: Event): Kind {
    match e
    case ListCall(_) => ListKind
    case CreateCall(_) => CreateKind
    case UserDataCall(_, _, _) => UserDataKind
    case ActionCall(_) => ActionKind
    case DeleteCall(_) => DeleteKind
    case DeleteVolumeCall(_, _) => DeleteVolumeKind
    case PreScaleInCall(_, _) => PreScaleInKind
    case PostScaleInCall(_) => PostScaleInKind
    case PoolReadyCall => PoolReadyKind
  }

  /** Number of calls of kind `k`. */
  function CountKind(calls: History, k: Kind): nat {
    if calls == [] then 0
    else CountKind(calls[..|calls| - 1], k) + (if KindOf(calls[|calls| - 1]) == k then 1 else 0)
  }

  lemma {:induction false} CountKindAppend(a: History, b: History, k: Kind)
    ensures CountKind(a + b, k) == CountKind(a, k) + CountKind(b, k)
    decreases |b|
  {
    if b != [] {
      assert (a + b)[..|a + b| - 1] == a + b[..|b| - 1];
      CountKindAppend(a, b[..|b| - 1], k);
    } else {
      assert a + b == a;
    }
  }

  /** The power actions among the calls, in call order. */
  function Actions(calls: History): seq<ActionRequest> {
    if calls == [] then []
    else
      var last := calls[|calls| - 1];
      Actions(calls[..|calls| - 1]) + (if last.ActionCall? then [last.action] else [])
  }

  lemma {:induction false} ActionsAppend(a: History, b: History)
    ensures Actions(a + b) == Actions(a) + Actions(b)
    decreases |b|
  {
    if b != [] {
      assert (a + b)[..|a + b| - 1] == a + b[..|b| - 1];
      ActionsAppend(a, b[..|b| - 1]);
    } else {
      assert a + b == a;
    }
  }

  /** Calls without a power action hold no action. */
  lemma {:induction false} ActionsNone(calls: History)
    requires forall i :: 0 <= i < |calls| ==> !calls[i].ActionCall?
    ensures Actions(calls) == []
    decreases |calls|
  {
    if calls != [] {
      ActionsNone(calls[..|calls| - 1]);
    }
  }

  /** No call of kind `k` means a count of zero. */
  lemma {:induction false} CountKindNone(calls: History, k: Kind)
    requires forall i :: 0 <= i < |calls| ==> KindOf(calls[i]) != k
    ensures CountKind(calls, k) == 0
    decreases |calls|
  {
    if calls != [] {
      CountKindNone(calls[..|calls| - 1], k);
    }
  }

  /** Calls of kind `k` only at position `j`: a count of at most one,
      exactly one when position `j` holds such a call. */
  lemma {:induction false} CountKindOnlyAt(calls: History, k: Kind, j: int)
    requires forall i :: 0 <= i < |calls| && KindOf(calls[i]) == k ==> i == j
    ensures CountKind(calls, k) <= 1
    ensures 0 <= j < |calls| && KindOf(calls[j]) == k ==> CountKind(calls, k) == 1
    decreases |calls|
  {
    if calls != [] {
      var prefix := calls[..|calls| - 1];
      if j == |calls| - 1 {
        CountKindNone(prefix, k);
      } else {
        CountKindOnlyAt(prefix, k, j);
      }
    }
  }

  /** The shared record of issued calls. */
  class Log {
    var events: History

    constructor ()
      ensures events == []
    {
      events := [];
    }
  }

  /** The cluster scale-utils collaborator: selects nodes before scale-in, runs
      the post-scale-in tasks and reports pool readiness. */
  class ClusterScaleUtils {
    const hooks: Hooks
    const log: Log

    constructor (hooks: Hooks, log: Log)
      ensures this.hooks == hooks && this.log == log
    {
      this.hooks := hooks;
      this.log := log;
    }

    method RunPreScaleInTasksWithRemoteCheck(ids: seq<string>, num: int) returns (r: Result<seq<NodeResourceID>, Error>)
      modifies log
      ensures r == hooks.preScaleIn(old(log.events), ids, num)
      ensures log.events == old(log.events) + [PreScaleInCall(ids, num)]
    {
      r := hooks.preScaleIn(log.events, ids, num);
      log.events := log.events + [PreScaleInCall(ids, num)];
    }

    method RunPostScaleInTasks(nodes: seq<NodeResourceID>) returns (err: Option<Error>)
      modifies log
      ensures err == hooks.postScaleIn(old(log.events), nodes)
      ensures log.events == old(log.events) + [PostScaleInCall(nodes)]
    {
      err := hooks.postScaleIn(log.events, nodes);
      log.events := log.events + [PostScaleInCall(nodes)];
    }

    method IsPoolReady() returns (r: Result<bool, Error>)
      modifies log
      ensures r == hooks.poolReady(old(log.events))
      ensures log.events == old(log.events) + [PoolReadyCall]
    {
      r := hooks.poolReady(log.events);
      log.events := log.events + [PoolReadyCall];
    }
  }

  /** The cluster hooks' answers. */
  datatype Hooks = Hooks(
    preScaleIn: (History, seq<string>, int) -> Result<seq<NodeResourceID>, Error>,
    postScaleIn: (History, seq<NodeResourceID>) -> Option<Error>,
    poolReady: History -> Result<bool, Error>)
}
