/** scaleway/instance/server.go: the server value, the blueprint decoded from
    configuration, the request builders and the helpers over a list of servers. */
module InstanceServer {
  import opened Wrappers
  import opened InstanceRequest

  /** Provider-reported lifecycle state; `Unknown` is the Go zero value "". */
  datatype ServerState = Unknown | Running | Stopped | StoppedInPlace | Starting | Stopping | Locked

  /** The fields of an SDK server that the core reads or writes. `volumes`
      lists the attached volume IDs in the order the Go map happens to be ranged. */
  datatype Server = Server(
    id: string,
    name: string,
    zone: string,
    commercialType: string,
    tags: seq<string>,
    dynamicIPRequired: bool,
    enableIPv6: bool,
    image: Option<string>,
    securityGroup: Option<string>,
    placementGroup: Option<string>,
    state: ServerState,
    volumes: seq<string>)

  const ZeroServer: Server := Server("", "", "", "", [], false, false, None, None, None, Unknown, [])

  // ------------------------------------------------------------- Decode

  /** The typed configuration after mapstructure decoding and zone parsing. */
  datatype ServerConfig = ServerConfig(
    name: string,
    tags: seq<string>,
    zone: string,
    dynamicIP: bool,
    commercialType: string,
    image: Option<string>,
    enableIPv6: bool,
    securityGroup: Option<string>,
    placementGroup: Option<string>)

  /** `ServerOpt`: the user data to attach after creation; `None` is a nil map. */
  datatype ServerOpt = ServerOpt(userData: Option<map<string, string>>)

  /** Tags every server managed by the plugin carries, ahead of the configured ones. */
  const FixedTags: seq<string> := ["nomad", "client", "autoscaler"]

  /** `Decode` after decoding: a fresh server whose tags are the fixed tags
      followed by the configured ones, with image, security group and placement
      group present exactly when configured, and nothing else set. */
  function Decode(c: ServerConfig): (s: Server)
    ensures |s.tags| == 3 + |c.tags| && s.tags[..3] == FixedTags && s.tags[3..] == c.tags
    ensures s.image == c.image && s.securityGroup == c.securityGroup && s.placementGroup == c.placementGroup
    ensures s.name == c.name && s.zone == c.zone && s.commercialType == c.commercialType
    ensures s.dynamicIPRequired == c.dynamicIP && s.enableIPv6 == c.enableIPv6
    ensures s.id == "" && s.state == Unknown && s.volumes == []
  {
    var s := ZeroServer.(name := c.name, zone := c.zone, commercialType := c.commercialType,
                         dynamicIPRequired := c.dynamicIP, enableIPv6 := c.enableIPv6,
                         tags := FixedTags + c.tags);
    var s := if c.image.Some? then s.(image := Some(c.image.value)) else s;
    var s := if c.securityGroup.Some? then s.(securityGroup := Some(c.securityGroup.value)) else s;
    if c.placementGroup.Some? then s.(placementGroup := Some(c.placementGroup.value)) else s
  }

  // ----------------------------------------------------------- Builders

  /** The SDK create request; its image is a plain string, empty when unset. */
  datatype CreateRequest = CreateRequest(
    zone: string,
    name: string,
    dynamicIPRequired: bool,
    commercialType: string,
    enableIPv6: bool,
    tags: seq<string>,
    image: string,
    securityGroup: Option<string>,
    placementGroup: Option<string>)

  datatype DeleteRequest = DeleteRequest(zone: string, serverId: string)

  datatype ServerAction = PowerOn | PowerOff

  /** A power action and the number of seconds to wait for it. */
  datatype ActionRequest = ActionRequest(serverId: string, action: ServerAction, timeoutSeconds: nat)

  /** `CreateServerRequest`: copies the blueprint, and its image, security group
      and placement group only when the blueprint has them. */
  function CreateServerRequest(s: Server): (r: CreateRequest)
    ensures r.zone == s.zone && r.name == s.name && r.commercialType == s.commercialType
    ensures r.dynamicIPRequired == s.dynamicIPRequired && r.enableIPv6 == s.enableIPv6 && r.tags == s.tags
    ensures r.image == s.image.GetOr("")
    ensures r.securityGroup == s.securityGroup && r.placementGroup == s.placementGroup
  {
    var req := CreateRequest(s.zone, s.name, s.dynamicIPRequired, s.commercialType, s.enableIPv6, s.tags, "", None, None);
    var req := if s.image.Some? then req.(image := s.image.value) else req;
    var req := if s.securityGroup.Some? then req.(securityGroup := Some(s.securityGroup.value)) else req;
    if s.placementGroup.Some? then req.(placementGroup := Some(s.placementGroup.value)) else req
  }

  /** The request that removes the server: it names the server's zone and ID. */
  function DeleteServerRequest(s: Server): (r: DeleteRequest)
    ensures r.zone == s.zone && r.serverId == s.id
  {
    DeleteRequest(s.zone, s.id)
  }

  /** The request that moves the server to a new power state and waits at
      most `timeoutSeconds` for it. */
  function ActionAndWaitRequest(s: Server, action: ServerAction, timeoutSeconds: nat): (r: ActionRequest)
    ensures r.serverId == s.id && r.action == action && r.timeoutSeconds == timeoutSeconds
  {
    ActionRequest(s.id, action, timeoutSeconds)
  }

  const FirstPage: int := 1
  const PerPage: nat := 100

  function NonEmpty(s: string): Option<string> {
    if |s| > 0 then Some(s) else None
  }

  /** The first listing query for a blueprint: page 1, 100 per page, the
      blueprint's tags, and name, zone and commercial type filters only when
      those fields are non-empty. */
  function ListQueryFor(s: Server): (q: ListQuery)
    ensures q.page == 1 && q.perPage == 100 && q.tags == s.tags
    ensures q.name.Some? <==> s.name != ""
    ensures q.commercialType.Some? <==> s.commercialType != ""
    ensures q.name.Some? ==> q.name.value == s.name
    ensures q.commercialType.Some? ==> q.commercialType.value == s.commercialType
    ensures q.zone == s.zone
  {
    ListQuery(FirstPage, PerPage, s.tags, NonEmpty(s.name), s.zone, NonEmpty(s.commercialType))
  }

  /** `ListServersRequest`: a fresh page cell holding 1 and the filters of
      `ListQueryFor`, set field by field as the source does. */
  method ListServersRequest(s: Server) returns (req: ListServerRequest)
    ensures fresh(req.page)
    ensures Sent(req) == ListQueryFor(s)
  {
    var page := new PageCell(FirstPage);
    req := ListServerRequest(page, PerPage, s.tags, None, "", None);
    if |s.name| > 0 {
      req := req.(name := Some(s.name));
    }
    if |s.zone| > 0 {
      req := req.(zone := s.zone);
    }
    if |s.commercialType| > 0 {
      req := req.(commercialType := Some(s.commercialType));
    }
  }

  // ------------------------------------------------------------ Servers

  /** `NewServers`: the SDK servers as a `Servers` list, filled by index. */
  method NewServers(servers: seq<Server>) returns (s: seq<Server>)
    ensures |s| == |servers|
    ensures forall i :: 0 <= i < |s| ==> s[i] == servers[i]
  {
    var a := new Server[|servers|];
    for i := 0 to a.Length
      invariant forall j :: 0 <= j < i ==> a[j] == servers[j]
    {
      a[i] := servers[i];
    }
    s := a[..];
  }

  /** `Ready`: every server is running (so the empty list is ready). */
  function Ready(servers: seq<Server>): (r: bool)
    ensures r <==> forall i :: 0 <= i < |servers| ==> servers[i].state == Running
  {
    if servers == [] then true
    else if servers[0].state != Running then false
    else Ready(servers[1..])
  }

  /** `Count`: the number of servers, an int64 in the source. */
  function Count(servers: seq<Server>): int {
    |servers|
  }

  function IdsOf(servers: seq<Server>): seq<string> {
    seq(|servers|, i requires 0 <= i < |servers| => servers[i].id)
  }

  /** `IDs`: one ID per server, in list order. */
  method IDs(servers: seq<Server>) returns (ids: seq<string>)
    ensures |ids| == Count(servers)
    ensures forall i :: 0 <= i < |ids| ==> ids[i] == servers[i].id
    ensures ids == IdsOf(servers)
  {
    ids := [];
    for i := 0 to |servers|
      invariant |ids| == i
      invariant forall j :: 0 <= j < i ==> ids[j] == servers[j].id
    {
      ids := ids + [servers[i].id];
    }
  }

  /** `WithID`: a server with that ID, none exactly when no server has it. */
  function WithID(servers: seq<Server>, id: string): (r: Option<Server>)
    ensures r.None? <==> forall i :: 0 <= i < |servers| ==> servers[i].id != id
    ensures r.Some? ==> r.value in servers && r.value.id == id
  {
    if servers == [] then None
    else if servers[0].id == id then Some(servers[0])
    else WithID(servers[1..], id)
  }

  /** `WithID` returns the first server with the ID. */
  lemma {:induction false} WithIDIsFirst(servers: seq<Server>, id: string, i: nat)
    requires i < |servers| && servers[i].id == id
    requires forall j :: 0 <= j < i ==> servers[j].id != id
    ensures WithID(servers, id) == Some(servers[i])
  {
    if i > 0 {
      WithIDIsFirst(servers[1..], id, i - 1);
    }
  }

  /** `WithName`: a server with that name, none exactly when no server has it. */
  function WithName(servers: seq<Server>, name: string): (r: Option<Server>)
    ensures r.None? <==> forall i :: 0 <= i < |servers| ==> servers[i].name != name
    ensures r.Some? ==> r.value in servers && r.value.name == name
  {
    if servers == [] then None
    else if servers[0].name == name then Some(servers[0])
    else WithName(servers[1..], name)
  }

  /** `WithName` returns the first server with the name. */
  lemma {:induction false} WithNameIsFirst(servers: seq<Server>, name: string, i: nat)
    requires i < |servers| && servers[i].name == name
    requires forall j :: 0 <= j < i ==> servers[j].name != name
    ensures WithName(servers, name) == Some(servers[i])
  {
    if i > 0 {
      WithNameIsFirst(servers[1..], name, i - 1);
    }
  }

  /** What `WithName` finds is the first server with the name. */
  lemma {:induction false} WithNameFound(servers: seq<Server>, name: string)
    requires WithName(servers, name).Some?
    ensures exists i :: 0 <= i < |servers| && servers[i] == WithName(servers, name).value &&
                        forall j :: 0 <= j < i ==> servers[j].name != name
  {
    if servers[0].name != name {
      WithNameFound(servers[1..], name);
      var i :| 0 <= i < |servers[1..]| && servers[1..][i] == WithName(servers[1..], name).value &&
                 forall j :: 0 <= j < i ==> servers[1..][j].name != name;
      assert servers[i + 1] == WithName(servers, name).value;
      assert forall j :: 0 <= j < i + 1 ==> servers[j].name != name by {
        forall j | 0 <= j < i + 1 ensures servers[j].name != name {
          if j > 0 {
            assert servers[j] == servers[1..][j - 1];
          }
        }
      }
    } else {
      assert servers[0] == WithName(servers, name).value;
    }
  }

  /** The servers `WithIDs` selects: for each ID in order, its `WithID` match if any. */
  function Selected(servers: seq<Server>, ids: seq<string>): seq<Server>
    decreases |ids|
  {
    if ids == [] then []
    else
      var m := WithID(servers, ids[|ids| - 1]);
      Selected(servers, ids[..|ids| - 1]) + (if m.Some? then [m.value] else [])
  }

  /** `WithIDs`: appends each ID's match in the order of the IDs. */
  method WithIDs(servers: seq<Server>, ids: seq<string>) returns (r: seq<Server>)
    ensures r == Selected(servers, ids)
  {
    r := [];
    for i := 0 to |ids|
      invariant r == Selected(servers, ids[..i])
    {
      assert ids[..i + 1][..i] == ids[..i];
      var server := WithID(servers, ids[i]);
      if server.Some? {
        r := r + [server.value];
      }
    }
    assert ids[..|ids|] == ids;
  }

  /** Selection distributes over concatenation of the ID lists, so a repeated
      ID yields a repeated entry and a missing ID contributes nothing. */
  lemma {:induction false} SelectedAppend(servers: seq<Server>, a: seq<string>, b: seq<string>)
    ensures Selected(servers, a + b) == Selected(servers, a) + Selected(servers, b)
    decreases |b|
  {
    if b == [] {
      assert a + b == a;
    } else {
      var b' := b[..|b| - 1];
      assert (a + b)[..|a + b| - 1] == a + b';
      SelectedAppend(servers, a, b');
    }
  }

  /** What one ID contributes: its first match, or nothing. */
  lemma SelectedSingle(servers: seq<Server>, id: string)
    ensures Selected(servers, [id]) == if WithID(servers, id).Some? then [WithID(servers, id).value] else []
  {
    assert [id][..0] == [];
  }

  /** Every selected server is listed and carries one of the requested IDs,
      and there are no more of them than IDs. */
  lemma {:induction false} SelectedMembers(servers: seq<Server>, ids: seq<string>)
    ensures |Selected(servers, ids)| <= |ids|
    ensures forall k :: 0 <= k < |Selected(servers, ids)| ==>
      Selected(servers, ids)[k] in servers && Selected(servers, ids)[k].id in ids
    decreases |ids|
  {
    if ids != [] {
      var prefix := ids[..|ids| - 1];
      SelectedMembers(servers, prefix);
      forall k | 0 <= k < |Selected(servers, prefix)|
        ensures Selected(servers, prefix)[k].id in ids
      {
        var i :| 0 <= i < |prefix| && prefix[i] == Selected(servers, prefix)[k].id;
        assert ids[i] == prefix[i];
      }
    }
  }

  /** Building the create request from a decoded blueprint: the fixed tags come
      first and each optional reference is passed on exactly when configured. */
  lemma DecodedCreateRequest(c: ServerConfig)
    ensures var r := CreateServerRequest(Decode(c));
      && r.tags == FixedTags + c.tags
      && r.image == c.image.GetOr("")
      && r.securityGroup == c.securityGroup && r.placementGroup == c.placementGroup
      && r.zone == c.zone && r.name == c.name && r.commercialType == c.commercialType
  {
    var s := Decode(c);
    assert s.tags == s.tags[..3] + s.tags[3..];
  }
}
