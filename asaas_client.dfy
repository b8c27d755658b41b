/** The payment-gateway client (`AsaasClient`): API-key precondition, offset/limit pagination
    driven by `hasMore`, balance and Pix transfer. HTTP is abstracted: the gateway is a set of
    functions from request parameters to responses, and every request the client issues is
    appended to a log so that contracts can say which requests were made and in what order. */
module Asaas {
  import opened Wrappers

  /** Page size the client asks for. */
  const PageLimit: nat := 100

  /** A customer object as the gateway returns it; `None` stands for a missing or null field. */
  datatype Customer = Customer(
    id: Option<string>, name: Option<string>, cpfCnpj: Option<string>, email: Option<string>,
    mobilePhone: Option<string>, phone: Option<string>, address: Option<string>,
    addressNumber: Option<string>, complement: Option<string>, province: Option<string>,
    city: Option<string>, state: Option<string>, postalCode: Option<string>)

  /** The `discount` field of a payment: absent, some non-dict value, or a dict whose `value` may be absent. */
  datatype DiscountField = Absent | NotADict | DiscountDict(value: Option<real>)

  /** A payment object as the gateway returns it (also the `payment` of a webhook event). */
  datatype Payment = Payment(
    id: Option<string>, customer: Option<string>, status: Option<string>,
    value: Option<real>, interestValue: Option<real>, fineValue: Option<real>,
    discount: DiscountField, netValue: Option<real>,
    paymentDate: Option<string>, clientPaymentDate: Option<string>, dueDate: Option<string>,
    cpfCnpj: Option<string>)

  /** One page of a listing: `data` (absent is `None`) and `hasMore` (absent reads as false). */
  datatype Page<T> = Page(data: Option<seq<T>>, hasMore: bool)

  datatype TransferPayload = TransferPayload(
    value: real, pixAddressKey: string, pixAddressKeyType: Option<string>,
    description: string, operationType: string)

  datatype TransferReply = TransferReply(id: Option<string>)

  /** The requests the client can issue. */
  datatype Request =
    | ReceivedPaymentsRequest(paymentDateGe: string, paymentDateLe: string, status: string)
    | BalanceRequest
    | TransferRequest(payload: TransferPayload)
    | CustomersRequest(offset: int, limit: int)
    | PaymentsRequest(dateCreatedGe: string, dateCreatedLe: string, offset: int, limit: int)

  /** The gateway as functions from request parameters to decoded responses
      (`Err` is a non-2xx answer, which `raise_for_status` turns into an exception). */
  datatype Gateway = Gateway(
    receivedPayments: (string, string) -> Result<Option<seq<Payment>>>,
    balance: Result<Option<real>>,
    transfer: TransferPayload -> Result<TransferReply>,
    customers: int -> Result<Page<Customer>>,
    payments: (string, string, int) -> Result<Page<Payment>>)

  const MissingKey := ValueError("ASAAS_API_KEY is not defined in the .env file.")

  function Items<T>(p: Page<T>): seq<T>
  {
    p.data.GetOr([])
  }

  /** The loop leaves after a page when the request failed or the page says no more follow. */
  predicate Stops<T>(resp: Result<Page<T>>)
  {
    resp.Err? || !resp.value.hasMore
  }

  /** What the pagination loop returns when started at page `k`, given a page `n >= k` at which it
      is known to stop (the bound only guarantees termination; see `PaginateBoundIrrelevant`). */
  function Paginate<T>(fetch: int -> Result<Page<T>>, k: nat, n: nat): Result<seq<T>>
    requires k <= n && Stops(fetch(PageLimit * n))
    decreases n - k
  {
    match fetch(PageLimit * k)
    case Err(e) => Err(e)
    case Ok(p) =>
      if !p.hasMore || k == n then Ok(Items(p))
      else Prepend(Items(p), Paginate(fetch, k + 1, n))
  }

  /** `xs` followed by the items of a successful result; a failure stays a failure. */
  function Prepend<T>(xs: seq<T>, r: Result<seq<T>>): Result<seq<T>>
  {
    match r
    case Err(e) => Err(e)
    case Ok(rest) => Ok(xs + rest)
  }

  lemma PrependAssociative<T>(xs: seq<T>, ys: seq<T>, r: Result<seq<T>>)
    ensures Prepend(xs, Prepend(ys, r)) == Prepend(xs + ys, r)
    ensures Prepend([], r) == r
  {
    if r.Ok? {
      assert xs + (ys + r.value) == (xs + ys) + r.value;
      assert [] + r.value == r.value;
    }
  }

  /** The index of the last page requested when starting at page `k`. */
  function LastPage<T>(fetch: int -> Result<Page<T>>, k: nat, n: nat): (last: nat)
    requires k <= n && Stops(fetch(PageLimit * n))
    ensures k <= last <= n && Stops(fetch(PageLimit * last))
    ensures forall j :: k <= j < last ==> !Stops(fetch(PageLimit * j))
    decreases n - k
  {
    if Stops(fetch(PageLimit * k)) || k == n then k else LastPage(fetch, k + 1, n)
  }

  /** The `offset` parameters `PageLimit * k, ..., PageLimit * last` of the page requests, in
      request order: `PaginationComplete` states with it that the client asked for pages 0 to
      last, one `PageLimit` apart. */
  function Offsets(k: nat, last: nat): (r: seq<int>)
    requires k <= last + 1
    ensures |r| == last + 1 - k
    ensures forall i :: 0 <= i < |r| ==> r[i] == PageLimit * (k + i)
    decreases last + 1 - k
  {
    if k == last + 1 then [] else [PageLimit * k] + Offsets(k + 1, last)
  }

  /** Any stopping bound gives the same result: the loop stops at the first stopping page. */
  lemma {:induction false} PaginateBoundIrrelevant<T>(fetch: int -> Result<Page<T>>, k: nat, n1: nat, n2: nat)
    requires k <= n1 && Stops(fetch(PageLimit * n1))
    requires k <= n2 && Stops(fetch(PageLimit * n2))
    ensures Paginate(fetch, k, n1) == Paginate(fetch, k, n2)
    ensures LastPage(fetch, k, n1) == LastPage(fetch, k, n2)
    decreases n1 - k
  {
    if !Stops(fetch(PageLimit * k)) {
      assert k != n1 && k != n2;
      PaginateBoundIrrelevant(fetch, k + 1, n1, n2);
    }
  }

  /** Pages `0 .. |pages| - 1` as the gateway serves them: every page but the last says `hasMore`. */
  ghost predicate ServesPages<T>(fetch: int -> Result<Page<T>>, pages: seq<Page<T>>)
  {
    |pages| > 0 &&
    (forall i :: 0 <= i < |pages| ==> fetch(PageLimit * i) == Ok(pages[i])) &&
    (forall i :: 0 <= i < |pages| - 1 ==> pages[i].hasMore) &&
    !pages[|pages| - 1].hasMore
  }

  function ConcatItems<T>(pages: seq<Page<T>>): seq<T>
  {
    if pages == [] then [] else Items(pages[0]) + ConcatItems(pages[1..])
  }

  lemma {:induction false} PaginateFrom<T>(fetch: int -> Result<Page<T>>, pages: seq<Page<T>>, k: nat)
    requires ServesPages(fetch, pages) && k < |pages|
    ensures Paginate(fetch, k, |pages| - 1) == Ok(ConcatItems(pages[k..]))
    ensures LastPage(fetch, k, |pages| - 1) == |pages| - 1
    decreases |pages| - k
  {
    assert fetch(PageLimit * k) == Ok(pages[k]);
    assert pages[k..][1..] == pages[k + 1..];
    assert ConcatItems(pages[k..]) == Items(pages[k]) + ConcatItems(pages[k + 1..]);
    if k < |pages| - 1 {
      PaginateFrom(fetch, pages, k + 1);
    } else {
      assert pages[k + 1..] == [];
      assert Items(pages[k]) + [] == Items(pages[k]);
    }
  }

  /** Pagination completeness: when the gateway serves N pages, N-1 saying `hasMore` and the last
      not, the result is the concatenation of all N pages' items in page order, and exactly the
      offsets 0, 100, ..., 100 * (N - 1) are requested. */
  lemma PaginationComplete<T>(fetch: int -> Result<Page<T>>, pages: seq<Page<T>>)
    requires ServesPages(fetch, pages)
    ensures Paginate(fetch, 0, |pages| - 1) == Ok(ConcatItems(pages))
    ensures Offsets(0, LastPage(fetch, 0, |pages| - 1)) == seq(|pages|, i => PageLimit * i)
  {
    PaginateFrom(fetch, pages, 0);
    assert pages[0..] == pages;
  }

  /** A page that fails stops the loop with that failure, whatever came before. */
  lemma {:induction false} PaginateFailure<T>(fetch: int -> Result<Page<T>>, k: nat, n: nat, j: nat)
    requires k <= j <= n && Stops(fetch(PageLimit * n))
    requires fetch(PageLimit * j).Err?
    requires forall i :: k <= i < j ==> !Stops(fetch(PageLimit * i))
    ensures Paginate(fetch, k, n) == Err(fetch(PageLimit * j).error)
    decreases j - k
  {
    if k < j {
      PaginateFailure(fetch, k + 1, n, j);
    }
  }

  /** The requests for pages `0 .. count - 1`, in order. */
  function PageRequests(request: int -> Request, count: nat): (rs: seq<Request>)
    ensures |rs| == count
    ensures forall i :: 0 <= i < count ==> rs[i] == request(PageLimit * i)
  {
    if count == 0 then [] else PageRequests(request, count - 1) + [request(PageLimit * (count - 1))]
  }

  /** A failed page `k` ends the loop: it is the last page requested and its failure is the result. */
  lemma PageFails<T>(fetch: int -> Result<Page<T>>, all: seq<T>, k: nat, n: nat)
    requires k <= n && Stops(fetch(PageLimit * n)) && fetch(PageLimit * k).Err?
    requires Paginate(fetch, 0, n) == Prepend(all, Paginate(fetch, k, n))
    ensures LastPage(fetch, k, n) == k
    ensures Paginate(fetch, 0, n) == Err(fetch(PageLimit * k).error)
  {
  }

  /** A served page `k` either ends the loop with everything collected or hands over to page `k + 1`. */
  lemma PageServed<T>(fetch: int -> Result<Page<T>>, all: seq<T>, k: nat, n: nat)
    requires k <= n && Stops(fetch(PageLimit * n)) && fetch(PageLimit * k).Ok?
    requires Paginate(fetch, 0, n) == Prepend(all, Paginate(fetch, k, n))
    ensures var p := fetch(PageLimit * k).value;
      if !p.hasMore then
        LastPage(fetch, k, n) == k && Paginate(fetch, 0, n) == Ok(all + Items(p))
      else
        k < n && LastPage(fetch, k, n) == LastPage(fetch, k + 1, n) &&
        Paginate(fetch, 0, n) == Prepend(all + Items(p), Paginate(fetch, k + 1, n))
  {
    var p := fetch(PageLimit * k).value;
    if p.hasMore {
      PrependAssociative(all, Items(p), Paginate(fetch, k + 1, n));
    }
  }

  class AsaasClient {
    /** `ASAAS_API_KEY` as read when the client was built. */
    const apiKey: Option<string>
    /** Every request issued so far, in order. */
    var log: seq<Request>

    constructor (apiKey: Option<string>)
      ensures this.apiKey == apiKey && log == []
    {
      this.apiKey := apiKey;
      log := [];
    }

    /** `_check_config`: a missing or empty key is a configuration error. */
    predicate Configured()
    {
      apiKey.Some? && apiKey.value != ""
    }

    method GetReceivedPayments(api: Gateway, dateFrom: string, dateTo: string) returns (r: Result<seq<Payment>>)
      modifies this`log
      ensures !Configured() ==> r == Err(MissingKey) && log == old(log)
      ensures Configured() ==>
        log == old(log) + [ReceivedPaymentsRequest(dateFrom, dateTo, "RECEIVED")] &&
        r == match api.receivedPayments(dateFrom, dateTo)
             case Err(e) => Err(e)
             case Ok(data) => Ok(data.GetOr([]))
    {
      if !Configured() {
        return Err(MissingKey);
      }
      log := log + [ReceivedPaymentsRequest(dateFrom, dateTo, "RECEIVED")];
      var resp := api.receivedPayments(dateFrom, dateTo);
      if resp.Err? {
        return Err(resp.error);
      }
      r := Ok(resp.value.GetOr([]));
    }

    /** `get_balance`: the `balance` field, 0.0 when the answer has none. */
    method GetBalance(api: Gateway) returns (r: Result<real>)
      modifies this`log
      ensures !Configured() ==> r == Err(MissingKey) && log == old(log)
      ensures Configured() ==>
        log == old(log) + [BalanceRequest] &&
        r == match api.balance
             case Err(e) => Err(e)
             case Ok(b) => Ok(b.GetOr(0.0))
    {
      if !Configured() {
        return Err(MissingKey);
      }
      log := log + [BalanceRequest];
      var resp := api.balance;
      if resp.Err? {
        return Err(resp.error);
      }
      r := Ok(resp.value.GetOr(0.0));
    }

    /** `create_pix_transfer`: posts exactly value, key, key type, description and
        `operationType "PIX"`; no balance is consulted. */
    method CreatePixTransfer(api: Gateway, pixKey: string, pixKeyType: Option<string>, value: real, description: string)
      returns (r: Result<TransferReply>)
      modifies this`log
      ensures !Configured() ==> r == Err(MissingKey) && log == old(log)
      ensures Configured() ==>
        var payload := TransferPayload(value, pixKey, pixKeyType, description, "PIX");
        log == old(log) + [TransferRequest(payload)] && r == api.transfer(payload)
    {
      if !Configured() {
        return Err(MissingKey);
      }
      var payload := TransferPayload(value, pixKey, pixKeyType, description, "PIX");
      log := log + [TransferRequest(payload)];
      r := api.transfer(payload);
    }

    /** The `while True` loop shared by `get_customers` and `get_all_payments`: request offset
        0, 100, 200, ... with limit 100, extend the result with each page's `data`, and stop
        after the first page whose `hasMore` is false. `n` is a page at which the gateway is
        known to stop; without one the source loops forever. */
    method FetchAllPages<T>(fetch: int -> Result<Page<T>>, request: int -> Request, ghost n: nat)
      returns (r: Result<seq<T>>)
      requires Stops(fetch(PageLimit * n))
      modifies this`log
      ensures r == Paginate(fetch, 0, n)
      ensures log == old(log) + PageRequests(request, LastPage(fetch, 0, n) + 1)
    {
      var all: seq<T> := [];
      var offset := 0;
      ghost var k: nat := 0;
      ghost var last := LastPage(fetch, 0, n);
      PrependAssociative(all, [], Paginate(fetch, 0, n));
      while true
        invariant k <= last && offset == PageLimit * k
        invariant LastPage(fetch, k, n) == last
        invariant log == old(log) + PageRequests(request, k)
        invariant Paginate(fetch, 0, n) == Prepend(all, Paginate(fetch, k, n))
        decreases n - k
      {
        log := log + [request(offset)];
        var resp := fetch(offset);
        if resp.Err? {
          PageFails(fetch, all, k, n);
          return Err(resp.error);
        }
        PageServed(fetch, all, k, n);
        all := all + Items(resp.value);
        if !resp.value.hasMore {
          return Ok(all);
        }
        offset := offset + PageLimit;
        k := k + 1;
      }
    }

    /** `get_customers`. */
    method GetCustomers(api: Gateway, ghost n: nat) returns (r: Result<seq<Customer>>)
      requires Stops(api.customers(PageLimit * n))
      modifies this`log
      ensures !Configured() ==> r == Err(MissingKey) && log == old(log)
      ensures Configured() ==>
        r == Paginate(api.customers, 0, n) &&
        log == old(log) + PageRequests(offset => CustomersRequest(offset, PageLimit), LastPage(api.customers, 0, n) + 1)
    {
      if !Configured() {
        return Err(MissingKey);
      }
      r := FetchAllPages(api.customers, offset => CustomersRequest(offset, PageLimit), n);
    }

    /** `get_all_payments`: payments created between `dateFrom` and `dateTo`. */
    method GetAllPayments(api: Gateway, dateFrom: string, dateTo: string, ghost n: nat) returns (r: Result<seq<Payment>>)
      requires Stops(api.payments(dateFrom, dateTo, PageLimit * n))
      modifies this`log
      ensures !Configured() ==> r == Err(MissingKey) && log == old(log)
      ensures Configured() ==>
        var fetch := offset => api.payments(dateFrom, dateTo, offset);
        r == Paginate(fetch, 0, n) &&
        log == old(log) + PageRequests(offset => PaymentsRequest(dateFrom, dateTo, offset, PageLimit), LastPage(fetch, 0, n) + 1)
    {
      if !Configured() {
        return Err(MissingKey);
      }
      var fetch := offset => api.payments(dateFrom, dateTo, offset);
      r := FetchAllPages(fetch, offset => PaymentsRequest(dateFrom, dateTo, offset, PageLimit), n);
    }
  }
}
