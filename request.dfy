/** scaleway/instance/request.go: the paged listing request. The SDK request
    holds its page number through a pointer, so copies of a request share one
    page cell; the cell is a heap object here and the rest of the request a value. */
module InstanceRequest {
  import opened Wrappers

  /** The `*int32` page cell of a listing request. */
  class PageCell {
    var n: int

    constructor (n: int)
      ensures this.n == n
    {
      this.n := n;
    }
  }

  /** `ListServerRequest`: the filters by value, the page through a shared cell.
      `name` and `commercialType` are optional pointers in the SDK; an unset
      zone is the empty string. */
  datatype ListServerRequest = ListServerRequest(
    page: PageCell,
    perPage: nat,
    tags: seq<string>,
    name: Option<string>,
    zone: string,
    commercialType: Option<string>)

  /** What a listing request says at the moment it is sent. */
  datatype ListQuery = ListQuery(
    page: int,
    perPage: nat,
    tags: seq<string>,
    name: Option<string>,
    zone: string,
    commercialType: Option<string>)

  function Sent(req: ListServerRequest): ListQuery
    reads req.page
  {
    ListQuery(req.page.n, req.perPage, req.tags, req.name, req.zone, req.commercialType)
  }

  /** `Next`: the receiver is a copy, but the copy shares the page cell, so the
      page of the caller's request advances too; the returned request is that
      copy: same cell, same filters. */
  method Next(l: ListServerRequest) returns (r: ListServerRequest)
    modifies l.page
    ensures r.page == l.page && l.page.n == old(l.page.n) + 1
    ensures Sent(r) == Sent(l) == old(Sent(l)).(page := old(l.page.n) + 1)
  {
    l.page.n := l.page.n + 1;
    r := l;
  }

  /** Two calls of `Next` on the same request both advance the one shared page. */
  method NextTwice() returns (first: int, second: int, original: int)
    ensures first == 2 && second == 3 && original == 3
  {
    var cell := new PageCell(1);
    var req := ListServerRequest(cell, 100, [], None, "", None);
    var a := Next(req);
    first := a.page.n;
    var b := Next(req);
    second := b.page.n;
    original := req.page.n;
  }
}
