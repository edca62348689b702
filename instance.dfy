/** scaleway/instance/instance.go: the listing, creation and deletion
    sequences, each a fixed order of provider calls that stops at the first
    failure. Every sequence is specified by a function that returns the
    result together with the calls issued; the methods are proved to issue
    exactly those calls and return exactly that result. */
module InstanceApi {
  import opened Wrappers
  import opened InstanceRequest
  import opened InstanceServer
  import opened Remote

  /** Power-on wait after creation: three minutes, in seconds. */
  const PowerOnTimeout: nat := 3 * 60
  /** Power-off wait before deletion: five minutes, in seconds. */
  const PowerOffTimeout: nat := 5 * 60

  /** What a sequence returns, and the calls it issued in order. */
  datatype Run<T> = Run(result: T, calls: History)

  // ------------------------------------------------------------ Listing

  /** Servers of one page put in front of the rest of a listing. */
  function Prepend(servers: seq<Server>, rest: Result<seq<Server>, Error>): Result<seq<Server>, Error> {
    if rest.Err? then rest else Ok(servers + rest.value)
  }

  /** `ListServersAll` from query `q` on: one listing call per page with the
      page number advancing by one each time, until a page is empty or fails. */
  ghost function Fetch(p: Provider, h: History, q: ListQuery): Run<Result<seq<Server>, Error>>
    requires Paginates(p)
    decreases p.lastPage - q.page
  {
    var c := ListCall(q);
    var r := p.listPage(h, q);
    if r.Err? then Run(Err(r.error), [c])
    else if r.value == [] then Run(Ok([]), [c])
    else
      var rest := Fetch(p, h + [c], q.(page := q.page + 1));
      Run(Prepend(r.value, rest.result), [c] + rest.calls)
  }

  /** A listing issues at least one call, each a listing of the next page
      with the same filters. */
  lemma {:induction false} FetchQueries(p: Provider, h: History, q: ListQuery)
    requires Paginates(p)
    ensures var f := Fetch(p, h, q);
      && |f.calls| >= 1
      && forall i :: 0 <= i < |f.calls| ==> f.calls[i] == ListCall(q.(page := q.page + i))
    decreases p.lastPage - q.page
  {
    var r := p.listPage(h, q);
    if r.Ok? && r.value != [] {
      var c := ListCall(q);
      var q' := q.(page := q.page + 1);
      FetchQueries(p, h + [c], q');
      var f := Fetch(p, h, q);
      forall i | 1 <= i < |f.calls| ensures f.calls[i] == ListCall(q.(page := q.page + i)) {
        assert f.calls[i] == Fetch(p, h + [c], q').calls[i - 1];
        assert q'.(page := q'.page + (i - 1)) == q.(page := q.page + i);
      }
    }
  }

  /** The listing loop's invariant: `whole`, the listing from page 1, is what
      was gathered (`servers`) and issued (`done`) before query `q`, followed
      by the listing from `q` on. */
  ghost predicate Tracks(p: Provider, whole: Run<Result<seq<Server>, Error>>, servers: seq<Server>,
                         done: History, h: History, q: ListQuery)
    requires Paginates(p)
  {
    && whole.result == Prepend(servers, Fetch(p, h, q).result)
    && whole.calls == done + Fetch(p, h, q).calls
  }

  /** One step of the listing loop: a failed or empty page ends the listing
      with the calls issued so far; a non-empty page is gathered and the loop
      goes on with the next page. */
  lemma FetchAdvance(p: Provider, whole: Run<Result<seq<Server>, Error>>, servers: seq<Server>,
                     done: History, h: History, q: ListQuery)
    requires Paginates(p)
    requires Tracks(p, whole, servers, done, h, q)
    ensures var r := p.listPage(h, q);
      var c := ListCall(q);
      && (r.Err? ==> whole.result == Err(r.error) && whole.calls == done + [c])
      && (r.Ok? && r.value == [] ==> whole.result == Ok(servers) && whole.calls == done + [c])
      && (r.Ok? && r.value != [] ==>
            && q.page <= p.lastPage
            && Tracks(p, whole, servers + r.value, done + [c], h + [c], q.(page := q.page + 1)))
  {
    var r := p.listPage(h, q);
    var c := ListCall(q);
    var next := Fetch(p, h + [c], q.(page := q.page + 1));
    if r.Ok? && r.value == [] {
      assert servers + [] == servers;
    } else if r.Ok? {
      assert done + ([c] + next.calls) == (done + [c]) + next.calls;
      if next.result.Ok? {
        assert servers + (r.value + next.result.value) == (servers + r.value) + next.result.value;
      }
    }
  }

  /** The servers a provider returns for a sequence of listing calls, in arrival order. */
  ghost function Gathered(p: Provider, h: History, calls: History): seq<Server>
    decreases |calls|
  {
    if calls == [] then []
    else
      var r := if calls[0].ListCall? then p.listPage(h, calls[0].query) else Err(ProviderError(""));
      (if r.Ok? then r.value else []) + Gathered(p, h + [calls[0]], calls[1..])
  }

  /** A listing returns an error as soon as one page fails, and issues no call after it. */
  lemma {:induction false} FetchFailsFast(p: Provider, h: History, q: ListQuery)
    requires Paginates(p)
    ensures StopsAtFirstFailure(p, h, Fetch(p, h, q).calls, ResultError(Fetch(p, h, q).result))
    decreases p.lastPage - q.page
  {
    var c := ListCall(q);
    var r := p.listPage(h, q);
    if r.Err? {
      assert Fetch(p, h, q).calls == [c];
      StopsAtFirstFailureSingle(p, h, c);
    } else if r.value == [] {
      assert Fetch(p, h, q).calls == [c];
      StopsAtFirstFailureSingle(p, h, c);
    } else {
      var q' := q.(page := q.page + 1);
      FetchFailsFast(p, h + [c], q');
      StopsAtFirstFailureCons(p, h, c, Fetch(p, h + [c], q').calls, ResultError(Fetch(p, h + [c], q').result));
    }
  }

  /** A successful listing returns every page's servers concatenated in the
      order the pages arrived, the last page being the first empty one. */
  lemma {:induction false} FetchGathers(p: Provider, h: History, q: ListQuery)
    requires Paginates(p)
    ensures var f := Fetch(p, h, q);
      f.result.Ok? ==> f.result.value == Gathered(p, h, f.calls)
    decreases p.lastPage - q.page
  {
    var c := ListCall(q);
    var r := p.listPage(h, q);
    var f := Fetch(p, h, q);
    if r.Ok? && r.value == [] {
      assert f.calls == [c];
      assert f.calls[1..] == [];
    } else if r.Ok? {
      var q' := q.(page := q.page + 1);
      FetchGathers(p, h + [c], q');
      assert f.calls[0] == c && f.calls[1..] == Fetch(p, h + [c], q').calls;
    }
  }

  /** How many servers the provider returned to a sequence of listing calls;
      a failed call or any other call returns none. */
  ghost function PagesTotal(p: Provider, h: History, calls: History): nat
    decreases |calls|
  {
    if calls == [] then 0
    else
      var r := if calls[0].ListCall? then p.listPage(h, calls[0].query) else Err(ProviderError(""));
      (if r.Ok? then |r.value| else 0) + PagesTotal(p, h + [calls[0]], calls[1..])
  }

  /** The count of a successful listing is the number of servers its pages
      returned, summed over the listing calls. */
  lemma {:induction false} FetchCount(p: Provider, h: History, q: ListQuery)
    requires Paginates(p)
    ensures var f := Fetch(p, h, q);
      f.result.Ok? ==> Count(f.result.value) == PagesTotal(p, h, f.calls)
    decreases p.lastPage - q.page
  {
    var c := ListCall(q);
    var r := p.listPage(h, q);
    var f := Fetch(p, h, q);
    if r.Ok? && r.value == [] {
      assert f.calls == [c];
      assert f.calls[1..] == [];
    } else if r.Ok? {
      var q' := q.(page := q.page + 1);
      FetchCount(p, h + [c], q');
      assert f.calls[0] == c && f.calls[1..] == Fetch(p, h + [c], q').calls;
    }
  }

  /** A non-empty page adds one call and its servers to the rest of the listing. */
  lemma FetchOnePage(p: Provider, h: History, q: ListQuery)
    requires Paginates(p)
    requires p.listPage(h, q).Ok? && p.listPage(h, q).value != []
    ensures var f := Fetch(p, h, q);
      var next := Fetch(p, h + [ListCall(q)], q.(page := q.page + 1));
      && |f.calls| == 1 + |next.calls|
      && (f.result.Ok? <==> next.result.Ok?)
      && (f.result.Ok? ==> Count(f.result.value) == |p.listPage(h, q).value| + Count(next.result.value))
  {
  }

  /** Pages of 100, 100 and 37 servers followed by an empty page: four
      listing calls and a count of 237. */
  lemma FetchInventoryExample(p: Provider, h: History, q: ListQuery)
    requires Paginates(p)
    requires forall h': History :: p.listPage(h', q).Ok? && |p.listPage(h', q).value| == 100
    requires forall h': History, n: int :: n == q.page + 1 ==>
      p.listPage(h', q.(page := n)).Ok? && |p.listPage(h', q.(page := n)).value| == 100
    requires forall h': History, n: int :: n == q.page + 2 ==>
      p.listPage(h', q.(page := n)).Ok? && |p.listPage(h', q.(page := n)).value| == 37
    requires forall h': History, n: int :: n == q.page + 3 ==> p.listPage(h', q.(page := n)) == Ok([])
    ensures var f := Fetch(p, h, q);
      f.result.Ok? && Count(f.result.value) == 237 && |f.calls| == 4
  {
    var q1 := q.(page := q.page + 1);
    var q2 := q1.(page := q1.page + 1);
    var q3 := q2.(page := q2.page + 1);
    assert q2 == q.(page := q.page + 2) && q3 == q.(page := q.page + 3);
    var h1 := h + [ListCall(q)];
    var h2 := h1 + [ListCall(q1)];
    var h3 := h2 + [ListCall(q2)];
    assert p.listPage(h3, q3) == Ok([]);
    assert Fetch(p, h3, q3) == Run(Ok([]), [ListCall(q3)]);
    FetchOnePage(p, h2, q2);
    FetchOnePage(p, h1, q1);
    FetchOnePage(p, h, q);
  }

  /** An empty first page: one listing call and an empty inventory. */
  lemma FetchEmptyExample(p: Provider, h: History, q: ListQuery)
    requires Paginates(p)
    requires forall h': History :: p.listPage(h', q) == Ok([])
    ensures var f := Fetch(p, h, q);
      f.result == Ok([]) && Count(f.result.value) == 0 && |f.calls| == 1
  {
    assert p.listPage(h, q) == Ok([]);
  }

  /** With `k` non-empty pages followed by an empty one, a listing issues
      exactly `k + 1` calls and succeeds. */
  lemma {:induction false} FetchPageCount(p: Provider, h: History, q: ListQuery, k: nat)
    requires Paginates(p)
    requires forall h': History, n: int :: q.page <= n < q.page + k ==>
      p.listPage(h', q.(page := n)).Ok? && p.listPage(h', q.(page := n)).value != []
    requires forall h': History, n: int :: n == q.page + k ==> p.listPage(h', q.(page := n)) == Ok([])
    ensures |Fetch(p, h, q).calls| == k + 1 && Fetch(p, h, q).result.Ok?
    decreases k
  {
    assert q.(page := q.page) == q;
    if k == 0 {
      assert p.listPage(h, q.(page := q.page)) == Ok([]);
    } else {
      var c := ListCall(q);
      var q' := q.(page := q.page + 1);
      assert p.listPage(h, q.(page := q.page)).Ok?;
      assert p.listPage(h, q.(page := q.page)).value != [];
      forall h': History, n: int | q'.page <= n < q'.page + (k - 1)
        ensures p.listPage(h', q'.(page := n)).Ok? && p.listPage(h', q'.(page := n)).value != []
      {
        assert q'.(page := n) == q.(page := n);
      }
      forall h': History, n: int | n == q'.page + (k - 1)
        ensures p.listPage(h', q'.(page := n)) == Ok([])
      {
        assert q'.(page := n) == q.(page := n);
      }
      FetchPageCount(p, h + [c], q', k - 1);
    }
  }

  // ----------------------------------------------------------- Creation

  /** `ApplyServerUserData`: one call carrying the whole map, none for a nil map. */
  ghost function UserDataRun(p: Provider, h: History, server: Server, data: Option<map<string, string>>): Run<Option<Error>> {
    if data.None? then Run(None, [])
    else
      var c := UserDataCall(server.zone, server.id, data.value);
      Run(p.outcome(h, c), [c])
  }

  /** `ApplyServerOpt`: nothing for nil options, else the user data. */
  ghost function ApplyOptRun(p: Provider, h: History, server: Server, opt: Option<ServerOpt>): Run<Option<Error>> {
    if opt.None? then Run(None, []) else UserDataRun(p, h, server, opt.value.userData)
  }

  /** `CreateServer`: create from the blueprint, apply the options to the new
      server, power it on; the first failure ends the sequence. */
  ghost function CreateRun(p: Provider, h: History, blueprint: Server, opt: Option<ServerOpt>): Run<Result<Server, Error>> {
    var c1 := CreateCall(CreateServerRequest(blueprint));
    var r1 := p.create(h, CreateServerRequest(blueprint));
    if r1.Err? then Run(Err(r1.error), [c1])
    else
      var server := r1.value;
      var a := ApplyOptRun(p, h + [c1], server, opt);
      if a.result.Some? then Run(Err(a.result.value), [c1] + a.calls)
      else
        var c3 := ActionCall(ActionAndWaitRequest(server, PowerOn, PowerOnTimeout));
        var e3 := p.outcome(h + [c1] + a.calls, c3);
        Run(if e3.Some? then Err(e3.value) else Ok(server), [c1] + a.calls + [c3])
  }

  /** Creation stops at the first failing call and reports that failure. */
  lemma CreateFailsFast(p: Provider, h: History, blueprint: Server, opt: Option<ServerOpt>)
    ensures var run := CreateRun(p, h, blueprint, opt);
      StopsAtFirstFailure(p, h, run.calls, ResultError(run.result))
  {
    var req := CreateServerRequest(blueprint);
    var c1 := CreateCall(req);
    var r1 := p.create(h, req);
    if r1.Err? {
      StopsAtFirstFailureSingle(p, h, c1);
    } else {
      var server := r1.value;
      var a := ApplyOptRun(p, h + [c1], server, opt);
      var c3 := ActionCall(ActionAndWaitRequest(server, PowerOn, PowerOnTimeout));
      if a.calls == [] {
        if a.result.None? {
          assert h + [c1] + a.calls == h + [c1];
          StopsAtFirstFailureSingle(p, h + [c1], c3);
          StopsAtFirstFailureCons(p, h, c1, [c3], ErrorOf(p, h + [c1], c3));
          assert [c1] + a.calls + [c3] == [c1] + [c3];
        }
      } else {
        var c2 := a.calls[0];
        assert a.calls == [c2];
        StopsAtFirstFailureSingle(p, h + [c1], c2);
        if a.result.None? {
          assert h + [c1] + a.calls == (h + [c1]) + [c2];
          StopsAtFirstFailureSingle(p, (h + [c1]) + [c2], c3);
          StopsAtFirstFailureCons(p, h + [c1], c2, [c3], ErrorOf(p, (h + [c1]) + [c2], c3));
          assert [c1] + a.calls + [c3] == [c1] + ([c2] + [c3]);
          StopsAtFirstFailureCons(p, h, c1, [c2] + [c3], ErrorOf(p, (h + [c1]) + [c2], c3));
        } else {
          StopsAtFirstFailureCons(p, h, c1, [c2], a.result);
        }
      }
    }
  }

  /** Creation's calls: the create request built from the blueprint, first;
      a user-data call only second, and only carrying the options' map when
      options and user data are both present; a power-on with a three-minute
      wait only last. Once the create succeeds, options carrying user data
      always lead to the user-data call for the created server. A successful
      creation returns the server the provider created, after powering that
      server on. */
  lemma CreateOrder(p: Provider, h: History, blueprint: Server, opt: Option<ServerOpt>)
    ensures var run := CreateRun(p, h, blueprint, opt);
      && 1 <= |run.calls| <= 3
      && run.calls[0] == CreateCall(CreateServerRequest(blueprint))
      && (forall i :: 1 <= i < |run.calls| ==> run.calls[i].UserDataCall? || run.calls[i].ActionCall?)
      && (forall i :: 0 <= i < |run.calls| && run.calls[i].UserDataCall? ==>
            i == 1 && opt.Some? && opt.value.userData.Some? && run.calls[i].userData == opt.value.userData.value)
      && (forall i :: 0 <= i < |run.calls| && run.calls[i].ActionCall? ==>
            i == |run.calls| - 1 && run.calls[i].action.action == PowerOn
            && run.calls[i].action.timeoutSeconds == PowerOnTimeout)
      && (p.create(h, CreateServerRequest(blueprint)).Ok? && opt.Some? && opt.value.userData.Some? ==>
            var s := p.create(h, CreateServerRequest(blueprint)).value;
            |run.calls| >= 2 && run.calls[1] == UserDataCall(s.zone, s.id, opt.value.userData.value))
      && (run.result.Ok? ==>
            && run.result.value == p.create(h, CreateServerRequest(blueprint)).value
            && run.calls[|run.calls| - 1] == ActionCall(ActionRequest(run.result.value.id, PowerOn, PowerOnTimeout)))
  {
    var req := CreateServerRequest(blueprint);
    var c1 := CreateCall(req);
    var run := CreateRun(p, h, blueprint, opt);
    if p.create(h, req).Ok? {
      var server := p.create(h, req).value;
      var a := ApplyOptRun(p, h + [c1], server, opt);
      if a.calls != [] {
        assert a.calls == [a.calls[0]];
      }
      if a.result.None? {
        var c3 := ActionCall(ActionAndWaitRequest(server, PowerOn, PowerOnTimeout));
        assert run.calls == [c1] + a.calls + [c3];
      } else {
        assert run.calls == [c1] + a.calls;
      }
    } else {
      assert run.calls == [c1];
    }
  }

  /** Creation issues exactly one create call, never deletes, and exactly
      one user-data call when the create succeeds and the options carry user
      data, none otherwise. */
  lemma CreateCounts(p: Provider, h: History, blueprint: Server, opt: Option<ServerOpt>)
    ensures var run := CreateRun(p, h, blueprint, opt);
      && CountKind(run.calls, CreateKind) == 1
      && CountKind(run.calls, DeleteKind) == 0
      && CountKind(run.calls, UserDataKind)
         == (if p.create(h, CreateServerRequest(blueprint)).Ok? && opt.Some? && opt.value.userData.Some? then 1 else 0)
  {
    var run := CreateRun(p, h, blueprint, opt);
    CreateOrder(p, h, blueprint, opt);
    CountKindOnlyAt(run.calls, CreateKind, 0);
    CountKindNone(run.calls, DeleteKind);
    if p.create(h, CreateServerRequest(blueprint)).Ok? && opt.Some? && opt.value.userData.Some? {
      CountKindOnlyAt(run.calls, UserDataKind, 1);
    } else if opt.Some? && opt.value.userData.Some? {
      assert run.calls == [CreateCall(CreateServerRequest(blueprint))];
      CountKindNone(run.calls, UserDataKind);
    } else {
      CountKindNone(run.calls, UserDataKind);
    }
  }

  /** Nil options or nil user data: creation makes no user-data call. */
  lemma NoUserDataWithoutOptions(p: Provider, h: History, blueprint: Server, opt: Option<ServerOpt>)
    requires opt.None? || opt.value.userData.None?
    ensures CountKind(CreateRun(p, h, blueprint, opt).calls, UserDataKind) == 0
  {
    CreateCounts(p, h, blueprint, opt);
  }

  // ----------------------------------------------------------- Deletion

  /** Deleting volumes in order, stopping at the first failure. */
  ghost function VolumesRun(p: Provider, h: History, zone: string, volumes: seq<string>): Run<Option<Error>>
    decreases |volumes|
  {
    if volumes == [] then Run(None, [])
    else
      var c := DeleteVolumeCall(zone, volumes[0]);
      var e := p.outcome(h, c);
      if e.Some? then Run(e, [c])
      else
        var rest := VolumesRun(p, h + [c], zone, volumes[1..]);
        Run(rest.result, [c] + rest.calls)
  }

  /** Volume deletion deletes the volumes in order, one call each, all of
      them unless one fails, in which case that one is the last call. */
  lemma {:induction false} VolumesOrder(p: Provider, h: History, zone: string, volumes: seq<string>)
    ensures var r := VolumesRun(p, h, zone, volumes);
      && |r.calls| <= |volumes|
      && (forall i :: 0 <= i < |r.calls| ==> r.calls[i] == DeleteVolumeCall(zone, volumes[i]))
      && (r.result.None? ==> |r.calls| == |volumes|)
      && (r.result.Some? ==> |r.calls| > 0)
    decreases |volumes|
  {
    if volumes != [] {
      var c := DeleteVolumeCall(zone, volumes[0]);
      if p.outcome(h, c).None? {
        VolumesOrder(p, h + [c], zone, volumes[1..]);
      }
    }
  }

  /** `DeleteServer`: power off with a five-minute wait, delete the server,
      then delete its volumes; the first failure ends the sequence. */
  ghost function DeleteRun(p: Provider, h: History, server: Server): Run<Option<Error>> {
    var c1 := ActionCall(ActionAndWaitRequest(server, PowerOff, PowerOffTimeout));
    var e1 := p.outcome(h, c1);
    if e1.Some? then Run(e1, [c1])
    else
      var c2 := DeleteCall(DeleteServerRequest(server));
      var e2 := p.outcome(h + [c1], c2);
      if e2.Some? then Run(e2, [c1, c2])
      else
        var v := VolumesRun(p, h + [c1, c2], server.zone, server.volumes);
        Run(v.result, [c1, c2] + v.calls)
  }

  /** Volume deletion stops at the first failure; the volumes before it were deleted. */
  lemma {:induction false} VolumesFailFast(p: Provider, h: History, zone: string, volumes: seq<string>)
    ensures var r := VolumesRun(p, h, zone, volumes);
      StopsAtFirstFailure(p, h, r.calls, r.result)
    decreases |volumes|
  {
    if volumes != [] {
      var c := DeleteVolumeCall(zone, volumes[0]);
      if p.outcome(h, c).Some? {
        StopsAtFirstFailureSingle(p, h, c);
      } else {
        var rest := VolumesRun(p, h + [c], zone, volumes[1..]);
        VolumesFailFast(p, h + [c], zone, volumes[1..]);
        StopsAtFirstFailureCons(p, h, c, rest.calls, rest.result);
      }
    }
  }

  /** One step of the volume loop at position `i`: `whole` is the run
      from the start, `done` the calls issued before position `i`. */
  lemma VolumesAdvance(p: Provider, whole: Run<Option<Error>>, done: History, h: History,
                       zone: string, volumes: seq<string>, i: nat)
    requires i <= |volumes|
    requires whole.result == VolumesRun(p, h, zone, volumes[i..]).result
    requires whole.calls == done + VolumesRun(p, h, zone, volumes[i..]).calls
    ensures i == |volumes| ==> whole == Run(None, done)
    ensures i < |volumes| ==>
      var c := DeleteVolumeCall(zone, volumes[i]);
      var next := VolumesRun(p, h + [c], zone, volumes[i + 1..]);
      && (p.outcome(h, c).Some? ==> whole == Run(p.outcome(h, c), done + [c]))
      && (p.outcome(h, c).None? ==> whole.result == next.result && whole.calls == (done + [c]) + next.calls)
  {
    if i == |volumes| {
      assert volumes[i..] == [];
      assert done + [] == done;
    } else {
      var c := DeleteVolumeCall(zone, volumes[i]);
      var next := VolumesRun(p, h + [c], zone, volumes[i + 1..]);
      assert volumes[i..][0] == volumes[i];
      assert volumes[i..][1..] == volumes[i + 1..];
      assert done + ([c] + next.calls) == (done + [c]) + next.calls;
    }
  }

  /** Deletion stops at the first failing call and reports that failure. */
  lemma DeleteFailsFast(p: Provider, h: History, server: Server)
    ensures var run := DeleteRun(p, h, server);
      StopsAtFirstFailure(p, h, run.calls, run.result)
  {
    var c1 := ActionCall(ActionAndWaitRequest(server, PowerOff, PowerOffTimeout));
    var c2 := DeleteCall(DeleteServerRequest(server));
    if p.outcome(h, c1).Some? {
      StopsAtFirstFailureSingle(p, h, c1);
    } else if p.outcome(h + [c1], c2).Some? {
      StopsAtFirstFailureSingle(p, h + [c1], c2);
      StopsAtFirstFailureCons(p, h, c1, [c2], p.outcome(h + [c1], c2));
      assert [c1, c2] == [c1] + [c2];
    } else {
      var v := VolumesRun(p, h + [c1, c2], server.zone, server.volumes);
      VolumesFailFast(p, h + [c1, c2], server.zone, server.volumes);
      assert h + [c1, c2] == (h + [c1]) + [c2];
      StopsAtFirstFailureCons(p, h + [c1], c2, v.calls, v.result);
      assert [c1, c2] + v.calls == [c1] + ([c2] + v.calls);
      StopsAtFirstFailureCons(p, h, c1, [c2] + v.calls, v.result);
    }
  }

  /** Deletion's calls: a power-off of the server with a five-minute wait,
      first; the server's deletion second, only after the power-off
      succeeded; then its volumes' deletions in order, only after the
      server's deletion succeeded; all of them on success. */
  lemma DeleteOrder(p: Provider, h: History, server: Server)
    ensures var run := DeleteRun(p, h, server);
      && run.calls[0] == ActionCall(ActionRequest(server.id, PowerOff, PowerOffTimeout))
      && (|run.calls| > 1 ==>
            && run.calls[1] == DeleteCall(DeleteRequest(server.zone, server.id))
            && !Fails(p, h, run.calls[0]))
      && (|run.calls| > 2 ==> !Fails(p, h + run.calls[..1], run.calls[1]))
      && |run.calls| <= 2 + |server.volumes|
      && (forall i :: 2 <= i < |run.calls| ==> run.calls[i] == DeleteVolumeCall(server.zone, server.volumes[i - 2]))
      && (run.result.None? ==> |run.calls| == 2 + |server.volumes|)
  {
    DeleteFailsFast(p, h, server);
    var run := DeleteRun(p, h, server);
    var c1 := ActionCall(ActionAndWaitRequest(server, PowerOff, PowerOffTimeout));
    var c2 := DeleteCall(DeleteServerRequest(server));
    VolumesOrder(p, h + [c1, c2], server.zone, server.volumes);
    if |run.calls| > 1 {
      assert run.calls[..|run.calls| - 1][..1] == run.calls[..1];
    }
  }

  /** A deletion issues exactly one power action, never creates, and deletes
      volumes only for a server that has some. */
  lemma DeleteKinds(p: Provider, h: History, server: Server)
    ensures var run := DeleteRun(p, h, server);
      && CountKind(run.calls, ActionKind) == 1
      && CountKind(run.calls, CreateKind) == 0
      && (server.volumes == [] ==> CountKind(run.calls, DeleteVolumeKind) == 0)
  {
    var run := DeleteRun(p, h, server);
    var c1 := ActionCall(ActionAndWaitRequest(server, PowerOff, PowerOffTimeout));
    DeleteOrder(p, h, server);
    assert run.calls[0] == c1;
    var tail := run.calls[1..];
    assert run.calls == [c1] + tail;
    forall i | 0 <= i < |tail| ensures KindOf(tail[i]) != ActionKind && KindOf(tail[i]) != CreateKind {
      assert tail[i] == run.calls[i + 1];
    }
    CountKindNone(tail, ActionKind);
    CountKindNone(tail, CreateKind);
    CountKindAppend([c1], tail, ActionKind);
    CountKindAppend([c1], tail, CreateKind);
    assert [c1][..0] == [];
    if server.volumes == [] {
      CountKindNone(run.calls, DeleteVolumeKind);
    }
  }

  /** Deletion's only power action is the server's power-off with a
      five-minute wait. */
  lemma DeleteActions(p: Provider, h: History, server: Server)
    ensures Actions(DeleteRun(p, h, server).calls) == [ActionRequest(server.id, PowerOff, PowerOffTimeout)]
  {
    var run := DeleteRun(p, h, server);
    var c1 := ActionCall(ActionAndWaitRequest(server, PowerOff, PowerOffTimeout));
    DeleteOrder(p, h, server);
    var tail := run.calls[1..];
    assert run.calls == [c1] + tail;
    forall i | 0 <= i < |tail| ensures !tail[i].ActionCall? {
      assert tail[i] == run.calls[i + 1];
    }
    ActionsNone(tail);
    ActionsAppend([c1], tail);
    assert [c1][..0] == [];
  }

  // ---------------------------------------------------------------- API

  /** `API`: the provider client. Every method issues its calls through the shared log. */
  class API {
    const provider: Provider
    const log: Log

    ghost predicate Valid() {
      Paginates(provider)
    }

    constructor (provider: Provider, log: Log)
      requires Paginates(provider)
      ensures Valid() && this.provider == provider && this.log == log
    {
      this.provider := provider;
      this.log := log;
    }

    /** One listing call to the provider. */
    method ListPage(q: ListQuery) returns (r: Result<seq<Server>, Error>)
      modifies log
      ensures r == provider.listPage(old(log.events), q)
      ensures log.events == old(log.events) + [ListCall(q)]
    {
      r := provider.listPage(log.events, q);
      log.events := log.events + [ListCall(q)];
    }

    /** One creation call to the provider. */
    method Create(req: CreateRequest) returns (r: Result<Server, Error>)
      modifies log
      ensures r == provider.create(old(log.events), req)
      ensures log.events == old(log.events) + [CreateCall(req)]
    {
      r := provider.create(log.events, req);
      log.events := log.events + [CreateCall(req)];
    }

    /** One call answered by an error or nothing. */
    method Invoke(e: Event) returns (err: Option<Error>)
      modifies log
      ensures err == provider.outcome(old(log.events), e)
      ensures log.events == old(log.events) + [e]
    {
      err := provider.outcome(log.events, e);
      log.events := log.events + [e];
    }

    /** `ListServers`: the first page for the blueprint. */
    method ListServers(blueprint: Server) returns (r: Result<seq<Server>, Error>)
      modifies log
      ensures r == provider.listPage(old(log.events), ListQueryFor(blueprint))
      ensures log.events == old(log.events) + [ListCall(ListQueryFor(blueprint))]
    {
      var req := ListServersRequest(blueprint);
      var resp := ListPage(Sent(req));
      if resp.Err? {
        return Err(resp.error);
      }
      var servers := NewServers(resp.value);
      assert servers == resp.value;
      return Ok(servers);
    }

    /** One turn of `ListServersAll`'s loop: list the request's page, then,
        when the call succeeded, advance the page cell the request shares. */
    method ListAndAdvance(req: ListServerRequest) returns (resp: Result<seq<Server>, Error>)
      modifies log, req.page
      ensures resp == provider.listPage(old(log.events), old(Sent(req)))
      ensures log.events == old(log.events) + [ListCall(old(Sent(req)))]
      ensures Sent(req) == if resp.Ok? then old(Sent(req)).(page := old(Sent(req)).page + 1) else old(Sent(req))
    {
      resp := ListPage(Sent(req));
      if resp.Err? {
        return;
      }
      req.page.n := req.page.n + 1;
    }

    /** `ListServersAll`: pages from 1 on, advancing the request's page cell
        after every answered call, until an empty page or an error. */
    method ListServersAll(blueprint: Server) returns (r: Result<seq<Server>, Error>)
      requires Valid()
      modifies log
      ensures var f := Fetch(provider, old(log.events), ListQueryFor(blueprint));
        r == f.result && log.events == old(log.events) + f.calls
    {
      var req := ListServersRequest(blueprint);
      var servers: seq<Server> := [];
      ghost var cur := Sent(req);
      ghost var whole := Fetch(provider, log.events, cur);
      ghost var done: History := [];
      assert whole == Fetch(provider, old(log.events), ListQueryFor(blueprint));
      assert whole.result.Ok? ==> [] + whole.result.value == whole.result.value;
      assert [] + whole.calls == whole.calls;
      while true
        invariant Sent(req) == cur
        invariant log.events == old(log.events) + done
        invariant Tracks(provider, whole, servers, done, log.events, cur)
        decreases provider.lastPage - cur.page
      {
        FetchAdvance(provider, whole, servers, done, log.events, cur);
        var resp := ListAndAdvance(req);
        if resp.Err? {
          r := Err(resp.error);
          break;
        }
        if resp.value == [] {
          r := Ok(servers);
          break;
        }
        var page := NewServers(resp.value);
        assert page == resp.value;
        servers := servers + page;
        done := done + [ListCall(cur)];
        cur := cur.(page := cur.page + 1);
      }
    }

    /** `ApplyServerUserData`: copies the map entry by entry, then sets it all in one call. */
    method ApplyServerUserData(server: Server, data: Option<map<string, string>>) returns (err: Option<Error>)
      modifies log
      ensures var run := UserDataRun(provider, old(log.events), server, data);
        err == run.result && log.events == old(log.events) + run.calls
    {
      if data.None? {
        return None;
      }
      var m: map<string, string> := map[];
      var rest := data.value.Keys;
      while rest != {}
        invariant rest <= data.value.Keys
        invariant m.Keys == data.value.Keys - rest
        invariant forall k :: k in m ==> m[k] == data.value[k]
        invariant log.events == old(log.events)
        decreases rest
      {
        var k :| k in rest;
        m := m[k := data.value[k]];
        rest := rest - {k};
      }
      assert m == data.value;
      err := Invoke(UserDataCall(server.zone, server.id, m));
    }

    /** `ApplyServerOpt`: nothing for nil options, else their user data. */
    method ApplyServerOpt(server: Server, opt: Option<ServerOpt>) returns (err: Option<Error>)
      modifies log
      ensures var run := ApplyOptRun(provider, old(log.events), server, opt);
        err == run.result && log.events == old(log.events) + run.calls
    {
      if opt.None? {
        return None;
      }
      err := ApplyServerUserData(server, opt.value.userData);
    }

    /** `CreateServer`: the new server, or the zero server and the first error. */
    method CreateServer(blueprint: Server, opt: Option<ServerOpt>) returns (s: Server, err: Option<Error>)
      modifies log
      ensures var run := CreateRun(provider, old(log.events), blueprint, opt);
        && log.events == old(log.events) + run.calls
        && (run.result.Ok? ==> s == run.result.value && err.None?)
        && (run.result.Err? ==> s == ZeroServer && err == Some(run.result.error))
    {
      var resp := Create(CreateServerRequest(blueprint));
      if resp.Err? {
        return ZeroServer, Some(resp.error);
      }
      var server := resp.value;
      err := ApplyServerOpt(server, opt);
      if err.Some? {
        return ZeroServer, err;
      }
      err := Invoke(ActionCall(ActionAndWaitRequest(server, PowerOn, PowerOnTimeout)));
      if err.Some? {
        return ZeroServer, err;
      }
      return server, None;
    }

    /** `DeleteServer`: the first error of the power-off, deletion and volume deletions. */
    method DeleteServer(server: Server) returns (err: Option<Error>)
      modifies log
      ensures var run := DeleteRun(provider, old(log.events), server);
        err == run.result && log.events == old(log.events) + run.calls
    {
      ghost var h := log.events;
      var c1 := ActionCall(ActionAndWaitRequest(server, PowerOff, PowerOffTimeout));
      var c2 := DeleteCall(DeleteServerRequest(server));
      err := Invoke(c1);
      if err.Some? {
        return;
      }
      err := Invoke(c2);
      if err.Some? {
        return;
      }
      assert log.events == h + [c1, c2];
      err := DeleteVolumes(server.zone, server.volumes);
    }

    /** The volume loop of `DeleteServer`: one deletion per volume, in order,
        returning at the first error. */
    method DeleteVolumes(zone: string, volumes: seq<string>) returns (err: Option<Error>)
      modifies log
      ensures var run := VolumesRun(provider, old(log.events), zone, volumes);
        err == run.result && log.events == old(log.events) + run.calls
    {
      ghost var whole := VolumesRun(provider, log.events, zone, volumes);
      ghost var done: History := [];
      assert volumes[0..] == volumes;
      for i := 0 to |volumes|
        invariant log.events == old(log.events) + done
        invariant whole.result == VolumesRun(provider, log.events, zone, volumes[i..]).result
        invariant whole.calls == done + VolumesRun(provider, log.events, zone, volumes[i..]).calls
      {
        VolumesAdvance(provider, whole, done, log.events, zone, volumes, i);
        var c := DeleteVolumeCall(zone, volumes[i]);
        err := Invoke(c);
        if err.Some? {
          return;
        }
        done := done + [c];
      }
      VolumesAdvance(provider, whole, done, log.events, zone, volumes, |volumes|);
      return None;
    }
  }
}
