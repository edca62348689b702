/** plugin/plugin.go: the target plugin's scaling orchestration. The worker
    pool that drains a channel of work items is modelled as one worker
    draining a queue in order; the pool's size is still computed and checked
    to be able to drain the queue. */
module TargetPlugin {
  import opened Wrappers
  import opened InstanceServer
  import opened Remote
  import opened InstanceApi
  import opened PluginState

  /** The autoscaler's scaling direction; `ScaleDirectionUnknown` is any other code. */
  datatype ScaleDirection = ScaleDirectionNone | ScaleDirectionDown | ScaleDirectionUp | ScaleDirectionUnknown(code: int)

  /** A scaling action: the desired count and the direction. */
  datatype ScalingAction = ScalingAction(count: int, direction: ScaleDirection)

  /** The count the autoscaler sends for a dry run. */
  const DryRunCount: int := -1

  /** The outcome of decoding the target configuration into a blueprint and
      server options. */
  datatype Config = Config(server: Result<ServerConfig, Error>, options: Result<ServerOpt, Error>)

  datatype TargetStatus = TargetStatus(ready: bool, count: int)

  /** A `(*TargetStatus, error)` pair. */
  datatype StatusReply = StatusReply(status: Option<TargetStatus>, err: Option<Error>)

  const NotReady: TargetStatus := TargetStatus(false, 0)

  /** The largest worker pool. */
  const MaxWorkers: nat := 5

  /** `doAsyncScale`'s pool size: the smaller of the item count and five. */
  function WorkerCount(count: nat): (threads: nat)
    ensures threads <= count && threads <= MaxWorkers
    ensures threads == count || threads == MaxWorkers
  {
    if count < MaxWorkers then count else MaxWorkers
  }

  /** The values a send loop from `lo` up to `hi` puts on the channel. */
  function Indices(lo: int, hi: int): (s: seq<int>)
    requires lo <= hi
    ensures |s| == hi - lo
    ensures forall k :: 0 <= k < |s| ==> s[k] == lo + k
  {
    seq(hi - lo, k requires 0 <= k < hi - lo => lo + k)
  }

  /** A send loop `for i := lo; i < hi; i++ { ch <- i }`, collecting what it sends. */
  method SendRange(lo: int, hi: int) returns (queue: seq<int>)
    requires lo <= hi
    ensures queue == Indices(lo, hi)
  {
    queue := [];
    var i := lo;
    while i < hi
      invariant lo <= i <= hi
      invariant queue == Indices(lo, i)
    {
      queue := queue + [i];
      i := i + 1;
    }
  }

  /** `ScaleDown`'s send loop: one work item per node, in order. */
  method SendNodes(nodes: seq<NodeResourceID>, zone: string) returns (queue: seq<Server>)
    ensures queue == WorkItems(nodes, zone)
  {
    queue := [];
    for i := 0 to |nodes|
      invariant |queue| == i
      invariant forall j :: 0 <= j < i ==> queue[j] == ZeroServer.(id := nodes[j].remoteResourceId, zone := zone)
    {
      queue := queue + [ZeroServer.(id := nodes[i].remoteResourceId, zone := zone)];
    }
  }

  // ------------------------------------------------------- Specification

  /** A worker draining `queue`: one step per item, in order, each step
      issued after the calls of the previous ones. */
  ghost function Drain<T>(step: (History, T) -> History, h: History, queue: seq<T>): History
    decreases |queue|
  {
    if queue == [] then []
    else
      var prev := Drain(step, h, queue[..|queue| - 1]);
      prev + step(h + prev, queue[|queue| - 1])
  }

  /** `doScaleUp`'s step: a creation from the blueprint and options, whatever the item. */
  ghost function CreateStep(p: Provider, blueprint: Server, opt: Option<ServerOpt>): (History, int) -> History {
    (h: History, item: int) => CreateRun(p, h, blueprint, opt).calls
  }

  /** `doScaleDown`'s step: the deletion of the queued server. */
  ghost function DeleteStep(p: Provider): (History, Server) -> History {
    (h: History, item: Server) => DeleteRun(p, h, item).calls
  }

  /** When every step issues `m` calls of kind `k`, draining a queue issues
      `m` of them per item. */
  lemma {:induction false} DrainCount<T>(step: (History, T) -> History, h: History, queue: seq<T>, k: Kind, m: nat)
    requires forall h': History, i :: 0 <= i < |queue| ==> CountKind(step(h', queue[i]), k) == m
    ensures CountKind(Drain(step, h, queue), k) == m * |queue|
    decreases |queue|
  {
    if queue != [] {
      var init := queue[..|queue| - 1];
      var prev := Drain(step, h, init);
      forall h': History, i | 0 <= i < |init| ensures CountKind(step(h', init[i]), k) == m {
        assert init[i] == queue[i];
      }
      DrainCount(step, h, init, k, m);
      CountKindAppend(prev, step(h + prev, queue[|queue| - 1]), k);
      MulSucc(m, |init|);
    }
  }

  /** When every step issues exactly one power action, `act` of its item,
      draining a queue issues those actions in queue order. */
  lemma {:induction false} DrainActions<T>(step: (History, T) -> History, h: History, queue: seq<T>, act: T -> ActionRequest)
    requires forall h': History, i :: 0 <= i < |queue| ==> Actions(step(h', queue[i])) == [act(queue[i])]
    ensures |Actions(Drain(step, h, queue))| == |queue|
    ensures forall i :: 0 <= i < |queue| ==> Actions(Drain(step, h, queue))[i] == act(queue[i])
    decreases |queue|
  {
    if queue != [] {
      var init := queue[..|queue| - 1];
      var prev := Drain(step, h, init);
      forall h': History, i | 0 <= i < |init| ensures Actions(step(h', init[i])) == [act(init[i])] {
        assert init[i] == queue[i];
      }
      DrainActions(step, h, init, act);
      ActionsAppend(prev, step(h + prev, queue[|queue| - 1]));
      forall i | 0 <= i < |init| ensures act(init[i]) == act(queue[i]) {
        assert init[i] == queue[i];
      }
    }
  }

  lemma MulSucc(m: nat, n: nat)
    ensures m * (n + 1) == m * n + m
  {
  }

  lemma AppendAssoc<T>(a: seq<T>, b: seq<T>, c: seq<T>)
    ensures a + b + c == a + (b + c)
  {
  }

  lemma TakeAll<T>(s: seq<T>)
    ensures s[..|s|] == s
  {
  }

  /** One more item drained. */
  lemma DrainStep<T>(step: (History, T) -> History, h: History, queue: seq<T>, i: nat)
    requires i < |queue|
    ensures Drain(step, h, queue[..i + 1])
         == Drain(step, h, queue[..i]) + step(h + Drain(step, h, queue[..i]), queue[i])
  {
    assert queue[..i + 1][..i] == queue[..i];
  }

  /** `ScaleUp` as written: the send loop starts at `n`, so the queue is empty. */
  ghost function ScaleUpRun(p: Provider, h: History, blueprint: Server, n: int, opt: Option<ServerOpt>): Run<Option<Error>> {
    if n < 0 then Run(Some(NegativeCount(n)), [])
    else Run(None, Drain(CreateStep(p, blueprint, opt), h, Indices(n, n)))
  }

  /** `ScaleUp` as intended: the send loop starts at 0 and queues `n` creations. */
  ghost function ScaleUpIntendedRun(p: Provider, h: History, blueprint: Server, n: int, opt: Option<ServerOpt>): Run<Option<Error>> {
    if n < 0 then Run(Some(NegativeCount(n)), [])
    else Run(None, Drain(CreateStep(p, blueprint, opt), h, Indices(0, n)))
  }

  /** `ClusterRunPreScaleInTasks`: list the servers, then hand their IDs to the hook. */
  ghost function PreScaleInRun(p: Provider, hk: Hooks, h: History, blueprint: Server, num: int): Run<Result<seq<NodeResourceID>, Error>>
    requires Paginates(p)
  {
    var f := Fetch(p, h, ListQueryFor(blueprint));
    if f.result.Err? then Run(Err(f.result.error), f.calls)
    else
      var ids := IdsOf(f.result.value);
      Run(hk.preScaleIn(h + f.calls, ids, num), f.calls + [PreScaleInCall(ids, num)])
  }

  /** One deletion work item per selected node: its provider ID in the blueprint's zone. */
  function WorkItems(nodes: seq<NodeResourceID>, zone: string): (items: seq<Server>)
    ensures |items| == |nodes|
    ensures forall i :: 0 <= i < |items| ==>
      items[i].id == nodes[i].remoteResourceId && items[i].zone == zone && items[i].volumes == []
  {
    seq(|nodes|, i requires 0 <= i < |nodes| => ZeroServer.(id := nodes[i].remoteResourceId, zone := zone))
  }

  /** `ScaleDown`: select nodes, delete their servers (errors only logged),
      then run the post-scale-in tasks. */
  ghost function ScaleDownRun(p: Provider, hk: Hooks, h: History, blueprint: Server, n: int): Run<Option<Error>>
    requires Paginates(p)
  {
    if n < 0 then Run(Some(NegativeCount(n)), [])
    else
      var pre := PreScaleInRun(p, hk, h, blueprint, n);
      if pre.result.Err? then Run(Some(pre.result.error), pre.calls)
      else
        var nodes := pre.result.value;
        var d := Drain(DeleteStep(p), h + pre.calls, WorkItems(nodes, blueprint.zone));
        Run(hk.postScaleIn(h + pre.calls + d, nodes), pre.calls + d + [PostScaleInCall(nodes)])
  }

  /** `Scale` between its state bracket. */
  ghost function ScaleRun(p: Provider, hk: Hooks, h: History, action: ScalingAction, config: Config): Run<Option<Error>>
    requires Paginates(p)
  {
    if action.count == DryRunCount then Run(None, [])
    else if config.server.Err? then Run(Some(config.server.error), [])
    else if config.options.Err? then Run(Some(config.options.error), [])
    else
      var blueprint := Decode(config.server.value);
      var f := Fetch(p, h, ListQueryFor(blueprint));
      if f.result.Err? then Run(Some(f.result.error), f.calls)
      else
        var current := Count(f.result.value);
        match action.direction
        case ScaleDirectionUp =>
          var up := ScaleUpRun(p, h + f.calls, blueprint, action.count - current, Some(config.options.value));
          Run(up.result, f.calls + up.calls)
        case ScaleDirectionDown =>
          var down := ScaleDownRun(p, hk, h + f.calls, blueprint, (action.count - current) * -1);
          Run(down.result, f.calls + down.calls)
        case _ => Run(None, f.calls)
  }

  /** `Status` given whether the flag reads Idle. */
  ghost function StatusRun(p: Provider, hk: Hooks, h: History, idle: bool, server: Result<ServerConfig, Error>): Run<StatusReply>
    requires Paginates(p)
  {
    if !idle then Run(StatusReply(Some(NotReady), None), [])
    else
      var ready := hk.poolReady(h);
      var c := PoolReadyCall;
      if ready.Err? then Run(StatusReply(Some(NotReady), Some(ready.error)), [c])
      else if !ready.value then Run(StatusReply(Some(NotReady), None), [c])
      else if server.Err? then Run(StatusReply(None, Some(server.error)), [c])
      else
        var f := Fetch(p, h + [c], ListQueryFor(Decode(server.value)));
        if f.result.Err? then Run(StatusReply(None, Some(f.result.error)), [c] + f.calls)
        else
          var servers := f.result.value;
          Run(StatusReply(Some(TargetStatus(Ready(servers), Count(servers))), None), [c] + f.calls)
  }

  /** The node attribute holding the hostname. */
  const HostnameAttribute: string := "unique.hostname"

  /** `LookupNodeID`: the ID of the first listed server named like the node. */
  ghost function LookupRun(p: Provider, h: History, attributes: map<string, string>): Run<Result<string, Error>>
    requires Paginates(p)
  {
    if HostnameAttribute !in attributes || |attributes[HostnameAttribute]| == 0 then Run(Err(MissingHostname), [])
    else
      var name := attributes[HostnameAttribute];
      var f := Fetch(p, h, ListQueryFor(ZeroServer.(name := name)));
      if f.result.Err? then Run(Err(f.result.error), f.calls)
      else
        var server := WithName(f.result.value, name);
        if server.None? then Run(Err(HostnameNotFound(name)), f.calls)
        else Run(Ok(server.value.id), f.calls)
  }

  // -------------------------------------------------------------- Lemmas

  /** As written, `ScaleUp` issues no provider call for any `n`, and fails
      exactly for a negative `n`. */
  lemma ScaleUpCreatesNothing(p: Provider, h: History, blueprint: Server, n: int, opt: Option<ServerOpt>)
    ensures ScaleUpRun(p, h, blueprint, n, opt).calls == []
    ensures CountKind(ScaleUpRun(p, h, blueprint, n, opt).calls, CreateKind) == 0
    ensures ScaleUpRun(p, h, blueprint, n, opt).result == if n < 0 then Some(NegativeCount(n)) else None
  {
  }

  /** As intended, `ScaleUp` issues exactly `n` creations for `n >= 0`. */
  lemma ScaleUpIntendedCreatesN(p: Provider, h: History, blueprint: Server, n: int, opt: Option<ServerOpt>)
    requires n >= 0
    ensures CountKind(ScaleUpIntendedRun(p, h, blueprint, n, opt).calls, CreateKind) == n
    ensures ScaleUpIntendedRun(p, h, blueprint, n, opt).result == None
  {
    var step := CreateStep(p, blueprint, opt);
    var queue := Indices(0, n);
    forall h': History, i | 0 <= i < |queue| ensures CountKind(step(h', queue[i]), CreateKind) == 1 {
      CreateCounts(p, h', blueprint, opt);
    }
    DrainCount(step, h, queue, CreateKind, 1);
  }

  /** A successful pre-scale-in selection leads to one power-off per selected
      node, of that node's server in the blueprint's zone and in selection
      order, no creation and no volume deletion, then the post-scale-in tasks
      as the very last call, whose answer is the result. */
  lemma ScaleDownSequence(p: Provider, hk: Hooks, h: History, blueprint: Server, n: int)
    requires Paginates(p)
    requires n >= 0
    requires PreScaleInRun(p, hk, h, blueprint, n).result.Ok?
    ensures var pre := PreScaleInRun(p, hk, h, blueprint, n);
      var nodes := pre.result.value;
      var run := ScaleDownRun(p, hk, h, blueprint, n);
      var d := run.calls[|pre.calls|..|run.calls| - 1];
      && |pre.calls| < |run.calls|
      && run.calls[..|pre.calls|] == pre.calls
      && run.calls[|run.calls| - 1] == PostScaleInCall(nodes)
      && run.result == hk.postScaleIn(h + run.calls[..|run.calls| - 1], nodes)
      && CountKind(d, ActionKind) == |nodes|
      && |Actions(d)| == |nodes|
      && (forall i :: 0 <= i < |nodes| ==>
            Actions(d)[i] == ActionRequest(nodes[i].remoteResourceId, PowerOff, PowerOffTimeout))
      && CountKind(d, CreateKind) == 0
      && CountKind(d, DeleteVolumeKind) == 0
  {
    var pre := PreScaleInRun(p, hk, h, blueprint, n);
    var nodes := pre.result.value;
    var items := WorkItems(nodes, blueprint.zone);
    var d := Drain(DeleteStep(p), h + pre.calls, items);
    var run := ScaleDownRun(p, hk, h, blueprint, n);
    assert run.calls == pre.calls + d + [PostScaleInCall(nodes)];
    assert run.calls[|pre.calls|..|run.calls| - 1] == d;
    assert run.calls[..|run.calls| - 1] == pre.calls + d;
    assert h + pre.calls + d == h + (pre.calls + d);
    assert run.calls[..|pre.calls|] == pre.calls;
    forall h': History, i | 0 <= i < |items|
      ensures CountKind(DeleteStep(p)(h', items[i]), ActionKind) == 1
      ensures CountKind(DeleteStep(p)(h', items[i]), CreateKind) == 0
      ensures CountKind(DeleteStep(p)(h', items[i]), DeleteVolumeKind) == 0
    {
      DeleteKinds(p, h', items[i]);
    }
    DrainCount(DeleteStep(p), h + pre.calls, items, ActionKind, 1);
    var act := (s: Server) => ActionRequest(s.id, PowerOff, PowerOffTimeout);
    forall h': History, i | 0 <= i < |items| ensures Actions(DeleteStep(p)(h', items[i])) == [act(items[i])] {
      DeleteActions(p, h', items[i]);
    }
    DrainActions(DeleteStep(p), h + pre.calls, items, act);
    DrainCount(DeleteStep(p), h + pre.calls, items, CreateKind, 0);
    DrainCount(DeleteStep(p), h + pre.calls, items, DeleteVolumeKind, 0);
  }

  /** A dry run does nothing and succeeds. */
  lemma DryRunIsInert(p: Provider, hk: Hooks, h: History, action: ScalingAction, config: Config)
    requires Paginates(p)
    requires action.count == DryRunCount
    ensures ScaleRun(p, hk, h, action, config) == Run(None, [])
  {
  }

  /** The as-written `ScaleUp` falls short: asked for `n > 0` servers it
      creates none, where the intended one creates `n`. */
  lemma ScaleUpFallsShort(p: Provider, h: History, blueprint: Server, n: int, opt: Option<ServerOpt>)
    requires n > 0
    ensures CountKind(ScaleUpRun(p, h, blueprint, n, opt).calls, CreateKind) == 0
    ensures CountKind(ScaleUpIntendedRun(p, h, blueprint, n, opt).calls, CreateKind) == n
  {
    ScaleUpCreatesNothing(p, h, blueprint, n, opt);
    ScaleUpIntendedCreatesN(p, h, blueprint, n, opt);
  }

  /** Scaling up through `Scale` as written: after a successful listing no
      further call is made, so no server is created whatever the desired
      count; the result is an error exactly when the desired count is below
      the current one. */
  lemma ScaleUpOnlyLists(p: Provider, hk: Hooks, h: History, action: ScalingAction, config: Config)
    requires Paginates(p)
    requires action.direction == ScaleDirectionUp
    requires action.count != DryRunCount && config.server.Ok? && config.options.Ok?
    requires Fetch(p, h, ListQueryFor(Decode(config.server.value))).result.Ok?
    ensures var f := Fetch(p, h, ListQueryFor(Decode(config.server.value)));
      var current := |f.result.value|;
      var run := ScaleRun(p, hk, h, action, config);
      && run.calls == f.calls
      && (forall i :: 0 <= i < |run.calls| ==> run.calls[i].ListCall?)
      && CountKind(run.calls, CreateKind) == 0
      && run.result == (if action.count < current then Some(NegativeCount(action.count - current)) else None)
  {
    var blueprint := Decode(config.server.value);
    var q := ListQueryFor(blueprint);
    var f := Fetch(p, h, q);
    var current := |f.result.value|;
    ScaleUpCreatesNothing(p, h + f.calls, blueprint, action.count - current, Some(config.options.value));
    assert f.calls + [] == f.calls;
    FetchQueries(p, h, q);
    CountKindNone(f.calls, CreateKind);
  }

  /** Whatever the direction, a failed initial listing ends `Scale` with
      only the listing's calls and the listing's own error. */
  lemma ScaleListingFails(p: Provider, hk: Hooks, h: History, action: ScalingAction, config: Config)
    requires Paginates(p)
    requires action.count != DryRunCount && config.server.Ok? && config.options.Ok?
    requires Fetch(p, h, ListQueryFor(Decode(config.server.value))).result.Err?
    ensures var f := Fetch(p, h, ListQueryFor(Decode(config.server.value)));
      var run := ScaleRun(p, hk, h, action, config);
      && run == Run(Some(f.result.error), f.calls)
      && (forall i :: 0 <= i < |run.calls| ==> run.calls[i].ListCall?)
      && ErrorOf(p, h + run.calls[..|run.calls| - 1], run.calls[|run.calls| - 1]) == run.result
  {
    var q := ListQueryFor(Decode(config.server.value));
    FetchQueries(p, h, q);
    FetchFailsFast(p, h, q);
  }

  /** With direction None or an unknown direction, `Scale` only lists the
      servers and returns the listing's error or nothing. */
  lemma NoScaleOnlyLists(p: Provider, hk: Hooks, h: History, action: ScalingAction, config: Config)
    requires Paginates(p)
    requires action.direction.ScaleDirectionNone? || action.direction.ScaleDirectionUnknown?
    requires action.count != DryRunCount && config.server.Ok? && config.options.Ok?
    ensures var f := Fetch(p, h, ListQueryFor(Decode(config.server.value)));
      var run := ScaleRun(p, hk, h, action, config);
      && run.calls == f.calls
      && run.result == (if f.result.Err? then Some(f.result.error) else None)
      && forall i :: 0 <= i < |run.calls| ==> run.calls[i].ListCall?
  {
    FetchQueries(p, h, ListQueryFor(Decode(config.server.value)));
  }

  /** Up scales by the desired count minus the current one; Down by the
      current count minus the desired one. */
  lemma ScaleDeltas(p: Provider, hk: Hooks, h: History, action: ScalingAction, config: Config)
    requires Paginates(p)
    requires action.count != DryRunCount && config.server.Ok? && config.options.Ok?
    requires Fetch(p, h, ListQueryFor(Decode(config.server.value))).result.Ok?
    ensures var blueprint := Decode(config.server.value);
      var f := Fetch(p, h, ListQueryFor(blueprint));
      var current := |f.result.value|;
      var run := ScaleRun(p, hk, h, action, config);
      && (action.direction.ScaleDirectionUp? ==>
            run == Run(ScaleUpRun(p, h + f.calls, blueprint, action.count - current, Some(config.options.value)).result,
                       f.calls + ScaleUpRun(p, h + f.calls, blueprint, action.count - current, Some(config.options.value)).calls))
      && (action.direction.ScaleDirectionDown? ==>
            run == Run(ScaleDownRun(p, hk, h + f.calls, blueprint, current - action.count).result,
                       f.calls + ScaleDownRun(p, hk, h + f.calls, blueprint, current - action.count).calls))
  {
    var f := Fetch(p, h, ListQueryFor(Decode(config.server.value)));
    var current := |f.result.value|;
    assert (action.count - current) * -1 == current - action.count;
  }

  /** While a scale operation is under way `Status` reports not ready and
      makes no call. */
  lemma StatusWhileActive(p: Provider, hk: Hooks, h: History, server: Result<ServerConfig, Error>)
    requires Paginates(p)
    ensures StatusRun(p, hk, h, false, server) == Run(StatusReply(Some(NotReady), None), [])
  {
  }

  /** When idle, with the pool ready and the servers listed, `Status` reports
      ready exactly when every listed server is running, and their number. */
  lemma StatusReportsInventory(p: Provider, hk: Hooks, h: History, server: Result<ServerConfig, Error>)
    requires Paginates(p)
    requires hk.poolReady(h) == Ok(true) && server.Ok?
    requires Fetch(p, h + [PoolReadyCall], ListQueryFor(Decode(server.value))).result.Ok?
    ensures var servers := Fetch(p, h + [PoolReadyCall], ListQueryFor(Decode(server.value))).result.value;
      var reply := StatusRun(p, hk, h, true, server).result;
      && reply.err.None? && reply.status.Some?
      && reply.status.value.count == |servers|
      && (reply.status.value.ready <==> forall i :: 0 <= i < |servers| ==> servers[i].state == Running)
  {
  }

  /** `LookupNodeID`'s outcomes: no call and `MissingHostname` without a
      hostname; otherwise one listing by that name, whose error is returned
      when it fails, then `HostnameNotFound` exactly when no listed server
      has the name, else the ID of the first one that has it. */
  lemma LookupOutcomes(p: Provider, h: History, attributes: map<string, string>)
    requires Paginates(p)
    ensures var run := LookupRun(p, h, attributes);
      && (HostnameAttribute !in attributes || attributes[HostnameAttribute] == "" <==> run == Run(Err(MissingHostname), []))
      && (HostnameAttribute in attributes && attributes[HostnameAttribute] != "" ==>
            var name := attributes[HostnameAttribute];
            var f := Fetch(p, h, ListQueryFor(ZeroServer.(name := name)));
            && run.calls == f.calls
            && (f.result.Err? ==> run.result == Err(f.result.error))
            && (f.result.Ok? ==>
                  && (run.result == Err(HostnameNotFound(name)) <==>
                        forall i :: 0 <= i < |f.result.value| ==> f.result.value[i].name != name)
                  && (run.result.Ok? ==>
                        exists i :: 0 <= i < |f.result.value| && f.result.value[i].name == name
                          && f.result.value[i].id == run.result.value
                          && forall j :: 0 <= j < i ==> f.result.value[j].name != name)))
  {
    if HostnameAttribute in attributes && attributes[HostnameAttribute] != "" {
      var name := attributes[HostnameAttribute];
      var f := Fetch(p, h, ListQueryFor(ZeroServer.(name := name)));
      if f.result.Ok? {
        var found := WithName(f.result.value, name);
        if found.Some? {
          WithNameFound(f.result.value, name);
        }
      }
    }
  }

  // -------------------------------------------------------------- Plugin

  /** The plugin: its state flag, the provider client and the cluster
      collaborator, which share one call log. */
  class Plugin {
    const state: State
    const api: API
    const cluster: ClusterScaleUtils

    ghost predicate Valid()
      reads state
    {
      state.Valid() && api.Valid() && cluster.log == api.log
    }

    /** A plugin whose flag is the zero value, Idle. */
    constructor (api: API, cluster: ClusterScaleUtils)
      requires api.Valid() && cluster.log == api.log
      ensures Valid() && fresh(state) && state.value == Idle
      ensures this.api == api && this.cluster == cluster
    {
      this.api := api;
      this.cluster := cluster;
      this.state := new State();
    }

    /** `Scale`: Active while the action runs and Idle on every way out. */
    method Scale(action: ScalingAction, config: Config) returns (err: Option<Error>)
      requires Valid()
      modifies state, api.log
      ensures Valid()
      ensures state.value == Idle && state.stores == old(state.stores) + [Active, Idle]
      ensures var run := ScaleRun(api.provider, cluster.hooks, old(api.log.events), action, config);
        err == run.result && api.log.events == old(api.log.events) + run.calls
    {
      state.SetActive();
      label body: {
        if action.count == DryRunCount {
          err := None;
          break body;
        }
        if config.server.Err? {
          err := Some(config.server.error);
          break body;
        }
        var blueprint := Decode(config.server.value);
        if config.options.Err? {
          err := Some(config.options.error);
          break body;
        }
        var opt := config.options.value;
        ghost var h := api.log.events;
        ghost var f := Fetch(api.provider, h, ListQueryFor(blueprint));
        var servers := api.ListServersAll(blueprint);
        if servers.Err? {
          err := Some(servers.error);
          break body;
        }
        var current := Count(servers.value);
        match action.direction
        case ScaleDirectionUp =>
          err := ScaleUp(blueprint, action.count - current, Some(opt));
          AppendAssoc(h, f.calls, ScaleUpRun(api.provider, h + f.calls, blueprint, action.count - current, Some(opt)).calls);
        case ScaleDirectionDown =>
          err := ScaleDown(blueprint, (action.count - current) * -1);
          AppendAssoc(h, f.calls, ScaleDownRun(api.provider, cluster.hooks, h + f.calls, blueprint, (action.count - current) * -1).calls);
        case ScaleDirectionNone =>
          err := None;
        case ScaleDirectionUnknown(_) =>
          err := None;
      }
      state.SetIdle();
    }

    /** `ScaleUp` as written: fails for a negative `n`; otherwise its send loop
        starts at `n`, queues nothing, and no server is created. */
    method ScaleUp(blueprint: Server, n: int, opt: Option<ServerOpt>) returns (err: Option<Error>)
      modifies api.log
      ensures var run := ScaleUpRun(api.provider, old(api.log.events), blueprint, n, opt);
        err == run.result && api.log.events == old(api.log.events) + run.calls
      ensures api.log.events == old(api.log.events)
      ensures err.Some? <==> n < 0
    {
      if n < 0 {
        return Some(NegativeCount(n));
      }
      var workers := WorkerCount(n);
      var queue := SendRange(n, n);
      DrainCreates(workers, blueprint, opt, queue);
      return None;
    }

    /** `ScaleUp` as evidently intended: the send loop starts at 0 and queues
        `n` creations. */
    method ScaleUpIntended(blueprint: Server, n: int, opt: Option<ServerOpt>) returns (err: Option<Error>)
      modifies api.log
      ensures var run := ScaleUpIntendedRun(api.provider, old(api.log.events), blueprint, n, opt);
        err == run.result && api.log.events == old(api.log.events) + run.calls
      ensures err.Some? <==> n < 0
    {
      if n < 0 {
        return Some(NegativeCount(n));
      }
      var workers := WorkerCount(n);
      var queue := SendRange(0, n);
      DrainCreates(workers, blueprint, opt, queue);
      return None;
    }

    /** One queued creation; its error is only logged. */
    method CreateItem(blueprint: Server, opt: Option<ServerOpt>, item: int)
      modifies api.log
      ensures api.log.events == old(api.log.events) + CreateStep(api.provider, blueprint, opt)(old(api.log.events), item)
    {
      var server, err := api.CreateServer(blueprint, opt);
    }

    /** One queued deletion; its error is only logged. */
    method DeleteItem(server: Server)
      modifies api.log
      ensures api.log.events == old(api.log.events) + DeleteStep(api.provider)(old(api.log.events), server)
    {
      var err := api.DeleteServer(server);
    }

    /** `doScaleUp`'s workers: one creation per queued item; errors are only logged. */
    method DrainCreates(workers: nat, blueprint: Server, opt: Option<ServerOpt>, queue: seq<int>)
      requires queue != [] ==> workers > 0
      modifies api.log
      ensures api.log.events == old(api.log.events) + Drain(CreateStep(api.provider, blueprint, opt), old(api.log.events), queue)
    {
      ghost var h := api.log.events;
      ghost var step := CreateStep(api.provider, blueprint, opt);
      for i := 0 to |queue|
        invariant api.log.events == h + Drain(step, h, queue[..i])
      {
        ghost var prev := Drain(step, h, queue[..i]);
        DrainStep(step, h, queue, i);
        CreateItem(blueprint, opt, queue[i]);
        AppendAssoc(h, prev, step(h + prev, queue[i]));
      }
      TakeAll(queue);
    }

    /** `ClusterRunPreScaleInTasks`: the listed servers' IDs go to the hook,
        which selects the nodes to remove. */
    method ClusterRunPreScaleInTasks(blueprint: Server, num: int) returns (r: Result<seq<NodeResourceID>, Error>)
      requires Valid()
      modifies api.log
      ensures var run := PreScaleInRun(api.provider, cluster.hooks, old(api.log.events), blueprint, num);
        r == run.result && api.log.events == old(api.log.events) + run.calls
    {
      var servers := api.ListServersAll(blueprint);
      if servers.Err? {
        return Err(servers.error);
      }
      var ids := IDs(servers.value);
      r := cluster.RunPreScaleInTasksWithRemoteCheck(ids, num);
    }

    /** `ScaleDown`: fails for a negative `n`; otherwise deletes the servers of
        the selected nodes, then runs the post-scale-in tasks. */
    method ScaleDown(blueprint: Server, n: int) returns (err: Option<Error>)
      requires Valid()
      modifies api.log
      ensures var run := ScaleDownRun(api.provider, cluster.hooks, old(api.log.events), blueprint, n);
        err == run.result && api.log.events == old(api.log.events) + run.calls
      ensures n < 0 ==> err == Some(NegativeCount(n)) && api.log.events == old(api.log.events)
    {
      if n < 0 {
        return Some(NegativeCount(n));
      }
      ghost var h := api.log.events;
      ghost var pre := PreScaleInRun(api.provider, cluster.hooks, h, blueprint, n);
      var nodes := ClusterRunPreScaleInTasks(blueprint, n);
      if nodes.Err? {
        return Some(nodes.error);
      }
      var workers := WorkerCount(|nodes.value|);
      var queue := SendNodes(nodes.value, blueprint.zone);
      DrainDeletes(workers, queue);
      ghost var d := Drain(DeleteStep(api.provider), h + pre.calls, queue);
      err := cluster.RunPostScaleInTasks(nodes.value);
      AppendAssoc(h, pre.calls, d);
      AppendAssoc(h, pre.calls + d, [PostScaleInCall(nodes.value)]);
    }

    /** `doScaleDown`'s workers: one deletion per queued server; errors are only logged. */
    method DrainDeletes(workers: nat, queue: seq<Server>)
      requires queue != [] ==> workers > 0
      modifies api.log
      ensures api.log.events == old(api.log.events) + Drain(DeleteStep(api.provider), old(api.log.events), queue)
    {
      ghost var h := api.log.events;
      ghost var step := DeleteStep(api.provider);
      for i := 0 to |queue|
        invariant api.log.events == h + Drain(step, h, queue[..i])
      {
        ghost var prev := Drain(step, h, queue[..i]);
        DrainStep(step, h, queue, i);
        DeleteItem(queue[i]);
        AppendAssoc(h, prev, step(h + prev, queue[i]));
      }
      TakeAll(queue);
    }

    /** `Status`: not ready and no call unless Idle; otherwise the pool's
        readiness, then the listed servers' readiness and number. */
    method Status(config: Config) returns (reply: StatusReply)
      requires Valid()
      modifies api.log
      ensures var run := StatusRun(api.provider, cluster.hooks, old(api.log.events), state.value == Idle, config.server);
        reply == run.result && api.log.events == old(api.log.events) + run.calls
      ensures state.value != Idle ==> reply == StatusReply(Some(NotReady), None) && api.log.events == old(api.log.events)
    {
      var s := state.Get();
      if s != Idle {
        return StatusReply(Some(NotReady), None);
      }
      var ready := cluster.IsPoolReady();
      if ready.Err? {
        return StatusReply(Some(NotReady), Some(ready.error));
      }
      if !ready.value {
        return StatusReply(Some(NotReady), None);
      }
      if config.server.Err? {
        return StatusReply(None, Some(config.server.error));
      }
      var blueprint := Decode(config.server.value);
      var servers := api.ListServersAll(blueprint);
      if servers.Err? {
        return StatusReply(None, Some(servers.error));
      }
      return StatusReply(Some(TargetStatus(Ready(servers.value), Count(servers.value))), None);
    }

    /** `LookupNodeID`: the provider ID of the node's server, found by hostname. */
    method LookupNodeID(attributes: map<string, string>) returns (r: Result<string, Error>)
      requires Valid()
      modifies api.log
      ensures var run := LookupRun(api.provider, old(api.log.events), attributes);
        r == run.result && api.log.events == old(api.log.events) + run.calls
    {
      if HostnameAttribute !in attributes || |attributes[HostnameAttribute]| == 0 {
        return Err(MissingHostname);
      }
      var name := attributes[HostnameAttribute];
      var blueprint := ZeroServer.(name := name);
      var servers := api.ListServersAll(blueprint);
      if servers.Err? {
        return Err(servers.error);
      }
      var server := WithName(servers.value, name);
      if server.None? {
        return Err(HostnameNotFound(name));
      }
      return Ok(server.value.id);
    }
  }
}
