/**
 * The remote order store (OrderCloud's outgoing-orders API) as an abstract
 * collaborator: a map from order id to order plus a counter for fresh ids.
 * Every request takes an injected `Option<Failure>`: `Some(f)` is what the
 * transport or the service answers instead of doing the request (a rejection,
 * a timeout, an error status), `None` lets the store perform it.
 */
module Remote {
  import opened Wrappers

  const NOT_FOUND: int := 404
  const BAD_REQUEST: int := 400

  /** Order statuses the client relies on; the resolver compares with COMPLETED. */
  const UNSUBMITTED: string := "Unsubmitted"
  const OPEN: string := "Open"
  const COMPLETED: string := "Completed"

  datatype LineItem = LineItem(id: string, productId: string, quantity: int)

  datatype Order = Order(
    id: string,
    status: string,
    isSubmitted: bool,
    fromUserId: string,
    fromCompanyId: string,
    lineItems: seq<LineItem>)

  /** `err.response?.status`: an error status, or no response at all. */
  datatype Failure = HttpStatus(code: int) | NoResponse

  datatype Reply<T> = Ok(value: T) | Fail(failure: Failure)

  /**
   * What the network does to each kind of request during one user action:
   * `None` delivers the request to the store, `Some(f)` makes it fail with f.
   */
  datatype Net = Net(
    fetch: Option<Failure>,
    create: Option<Failure>,
    list: Option<Failure>,
    mutate: Option<Failure>,
    submit: Option<Failure>)

  /** Every request gets through. */
  const Healthy: Net := Net(None, None, None, None, None)

  datatype StoreState = StoreState(orders: map<string, Order>, seqNo: nat)

  /**
   * The store hands out ids of strictly increasing length, so a new one never
   * collides with an existing one.
   */
  function OrderIdFor(n: nat): (id: string)
    ensures |id| == n + 1
  {
    "O" + seq(n, _ => '0')
  }

  function LineIdFor(n: nat): string
  {
    "L" + seq(n, _ => '0')
  }

  /** Every order is filed under its own id, and every id is shorter than the next fresh one. */
  predicate WellFormed(st: StoreState)
  {
    forall id | id in st.orders :: st.orders[id].id == id && |id| <= st.seqNo
  }

  function FreshOrderId(st: StoreState): (id: string)
    requires WellFormed(st)
    ensures id != "" && id !in st.orders
  {
    OrderIdFor(st.seqNo)
  }

  /** An order the client may keep adding to. */
  predicate Usable(o: Order)
  {
    o.status != COMPLETED && !o.isSubmitted
  }

  predicate HasLine(lines: seq<LineItem>, lineId: string)
  {
    exists li :: li in lines && li.id == lineId
  }

  predicate PositiveLines(lines: seq<LineItem>)
  {
    forall li :: li in lines ==> li.quantity >= 1
  }

  /** No stored line item has a quantity below 1. */
  predicate AllPositive(st: StoreState)
  {
    forall id | id in st.orders :: PositiveLines(st.orders[id].lineItems)
  }

  /** The lines that survive deleting `lineId`, in their order. */
  function Without(lines: seq<LineItem>, lineId: string): (r: seq<LineItem>)
    ensures !HasLine(r, lineId)
    ensures forall li :: li in r <==> li in lines && li.id != lineId
  {
    if lines == [] then []
    else if lines[0].id == lineId then Without(lines[1..], lineId)
    else [lines[0]] + Without(lines[1..], lineId)
  }

  /** The lines after setting `lineId` to a new quantity and product reference. */
  function Relabel(lines: seq<LineItem>, lineId: string, quantity: int, productId: string): (r: seq<LineItem>)
    ensures |r| == |lines|
    ensures forall i :: 0 <= i < |lines| ==>
              r[i] == if lines[i].id == lineId then LineItem(lineId, productId, quantity) else lines[i]
  {
    if lines == [] then []
    else
      [if lines[0].id == lineId then LineItem(lineId, productId, quantity) else lines[0]]
      + Relabel(lines[1..], lineId, quantity, productId)
  }

  // ---- The store's requests, as functions of its state ----

  /** GET /orders/outgoing/{id}. */
  function Fetch(st: StoreState, id: string, fault: Option<Failure>): Reply<Order>
  {
    if fault.Some? then Fail(fault.value)
    else if id in st.orders then Ok(st.orders[id])
    else Fail(HttpStatus(NOT_FOUND))
  }

  /** POST /orders/outgoing: a new unsubmitted order with no line items. */
  function Create(st: StoreState, userId: string, companyId: string, fault: Option<Failure>): (Reply<Order>, StoreState)
  {
    if fault.Some? then (Fail(fault.value), st)
    else
      var o := Order(OrderIdFor(st.seqNo), UNSUBMITTED, false, userId, companyId, []);
      (Ok(o), StoreState(st.orders[o.id := o], st.seqNo + 1))
  }

  /** GET /orders/outgoing/{id}/lineitems. */
  function ListLines(st: StoreState, orderId: string, fault: Option<Failure>): Reply<seq<LineItem>>
  {
    if fault.Some? then Fail(fault.value)
    else if orderId !in st.orders then Fail(HttpStatus(NOT_FOUND))
    else Ok(st.orders[orderId].lineItems)
  }

  /** POST /orders/outgoing/{id}/lineitems: appends a new line; merging is not the client's concern. */
  function AddLine(st: StoreState, orderId: string, productId: string, quantity: int, fault: Option<Failure>)
    : (Reply<LineItem>, StoreState)
  {
    if fault.Some? then (Fail(fault.value), st)
    else if orderId !in st.orders then (Fail(HttpStatus(NOT_FOUND)), st)
    else
      var o := st.orders[orderId];
      var li := LineItem(LineIdFor(st.seqNo), productId, quantity);
      (Ok(li), StoreState(st.orders[orderId := o.(lineItems := o.lineItems + [li])], st.seqNo + 1))
  }

  /** PUT /orders/outgoing/{id}/lineitems/{lineId}. */
  function UpdateLine(st: StoreState, orderId: string, lineId: string, quantity: int, productId: string,
                      fault: Option<Failure>): (Reply<LineItem>, StoreState)
  {
    if fault.Some? then (Fail(fault.value), st)
    else if orderId !in st.orders || !HasLine(st.orders[orderId].lineItems, lineId) then
      (Fail(HttpStatus(NOT_FOUND)), st)
    else
      var o := st.orders[orderId];
      var o' := o.(lineItems := Relabel(o.lineItems, lineId, quantity, productId));
      (Ok(LineItem(lineId, productId, quantity)), st.(orders := st.orders[orderId := o']))
  }

  /** DELETE /orders/outgoing/{id}/lineitems/{lineId}. */
  function DeleteLine(st: StoreState, orderId: string, lineId: string, fault: Option<Failure>): (Reply<()>, StoreState)
  {
    if fault.Some? then (Fail(fault.value), st)
    else if orderId !in st.orders || !HasLine(st.orders[orderId].lineItems, lineId) then
      (Fail(HttpStatus(NOT_FOUND)), st)
    else
      var o := st.orders[orderId];
      (Ok(()), st.(orders := st.orders[orderId := o.(lineItems := Without(o.lineItems, lineId))]))
  }

  /** POST /orders/outgoing/{id}/submit: the order becomes submitted and open for fulfilment. */
  function Submit(st: StoreState, orderId: string, fault: Option<Failure>): (Reply<Order>, StoreState)
  {
    if fault.Some? then (Fail(fault.value), st)
    else if orderId !in st.orders then (Fail(HttpStatus(NOT_FOUND)), st)
    else
      var o := st.orders[orderId].(isSubmitted := true, status := OPEN);
      (Ok(o), st.(orders := st.orders[orderId := o]))
  }

  // ---- Facts about the requests ----

  /** A created order is fresh, usable, empty and owned by the requesting user and company. */
  lemma CreateIsFresh(st: StoreState, userId: string, companyId: string, fault: Option<Failure>)
    requires WellFormed(st)
    ensures var (reply, st') := Create(st, userId, companyId, fault);
      && WellFormed(st')
      && (reply.Fail? ==> st' == st && fault == Some(reply.failure))
      && (reply.Ok? ==>
            && fault.None?
            && reply.value.id == FreshOrderId(st)
            && Usable(reply.value) && reply.value.lineItems == []
            && reply.value.fromUserId == userId && reply.value.fromCompanyId == companyId
            && st'.orders == st.orders[reply.value.id := reply.value])
  {
  }

  lemma {:induction false} RelabelPositive(lines: seq<LineItem>, lineId: string, quantity: int, productId: string)
    requires PositiveLines(lines) && quantity >= 1
    ensures PositiveLines(Relabel(lines, lineId, quantity, productId))
  {
    var r := Relabel(lines, lineId, quantity, productId);
    forall li | li in r ensures li.quantity >= 1 {
      var i :| 0 <= i < |r| && r[i] == li;
      assert lines[i] in lines;
    }
  }

  /** Adding with quantity at least 1, updating to at least 1, deleting and submitting keep every quantity positive. */
  lemma MutationsKeepPositive(st: StoreState, orderId: string, lineId: string, productId: string, quantity: int,
                              fault: Option<Failure>)
    requires AllPositive(st) && quantity >= 1
    ensures AllPositive(AddLine(st, orderId, productId, quantity, fault).1)
    ensures AllPositive(UpdateLine(st, orderId, lineId, quantity, productId, fault).1)
    ensures AllPositive(DeleteLine(st, orderId, lineId, fault).1)
    ensures AllPositive(Submit(st, orderId, fault).1)
  {
    if fault.None? && orderId in st.orders {
      RelabelPositive(st.orders[orderId].lineItems, lineId, quantity, productId);
    }
  }

  class OrderStore {
    var orders: map<string, Order>
    var seqNo: nat

    function View(): StoreState
      reads this
    {
      StoreState(orders, seqNo)
    }

    predicate Valid()
      reads this
    {
      WellFormed(View())
    }

    constructor (initial: StoreState)
      requires WellFormed(initial)
      ensures Valid() && View() == initial
    {
      orders, seqNo := initial.orders, initial.seqNo;
    }

    method Get(id: string, fault: Option<Failure>) returns (reply: Reply<Order>)
      ensures reply == Fetch(View(), id, fault)
    {
      reply := Fetch(View(), id, fault);
    }

    method CreateOrder(userId: string, companyId: string, fault: Option<Failure>) returns (reply: Reply<Order>)
      requires Valid()
      modifies this
      ensures Valid()
      ensures (reply, View()) == Create(old(View()), userId, companyId, fault)
    {
      CreateIsFresh(View(), userId, companyId, fault);
      var step := Create(View(), userId, companyId, fault);
      reply := step.0;
      orders, seqNo := step.1.orders, step.1.seqNo;
    }

    method List(orderId: string, fault: Option<Failure>) returns (reply: Reply<seq<LineItem>>)
      ensures reply == ListLines(View(), orderId, fault)
    {
      reply := ListLines(View(), orderId, fault);
    }

    method Add(orderId: string, productId: string, quantity: int, fault: Option<Failure>) returns (reply: Reply<LineItem>)
      requires Valid()
      modifies this
      ensures Valid()
      ensures (reply, View()) == AddLine(old(View()), orderId, productId, quantity, fault)
    {
      var step := AddLine(View(), orderId, productId, quantity, fault);
      reply := step.0;
      orders, seqNo := step.1.orders, step.1.seqNo;
    }

    method Update(orderId: string, lineId: string, quantity: int, productId: string, fault: Option<Failure>)
      returns (reply: Reply<LineItem>)
      requires Valid()
      modifies this
      ensures Valid()
      ensures (reply, View()) == UpdateLine(old(View()), orderId, lineId, quantity, productId, fault)
    {
      var step := UpdateLine(View(), orderId, lineId, quantity, productId, fault);
      reply := step.0;
      orders := step.1.orders;
    }

    method Delete(orderId: string, lineId: string, fault: Option<Failure>) returns (reply: Reply<()>)
      requires Valid()
      modifies this
      ensures Valid()
      ensures (reply, View()) == DeleteLine(old(View()), orderId, lineId, fault)
    {
      var step := DeleteLine(View(), orderId, lineId, fault);
      reply := step.0;
      orders := step.1.orders;
    }

    method SubmitOrder(orderId: string, fault: Option<Failure>) returns (reply: Reply<Order>)
      requires Valid()
      modifies this
      ensures Valid()
      ensures (reply, View()) == Submit(old(View()), orderId, fault)
    {
      var step := Submit(View(), orderId, fault);
      reply := step.0;
      orders := step.1.orders;
    }
  }
}
