/** The product app's views: the permission rule shared by the product and
    stock viewsets, and the order status endpoint, whose PATCH handler moves
    an order through Pending -> Completed -> Cancelled and moves stock
    quantities with it. */
module ProductViews {
  import opened Wrappers
  import opened Models

  // ---------------------------------------------------------------------
  // Permissions of the product and stock viewsets
  // ---------------------------------------------------------------------

  datatype Permission = IsAuthenticated | IsAdminUser

  /** The requester as the two permission classes see it: `IsAdminUser`
      looks at the staff flag, not at the superuser flag. */
  datatype Principal = Principal(isAuthenticated: bool, isStaff: bool)

  /** Viewset actions that need an administrator. */
  const AdminActions: set<string> := {"update", "partial_update", "destroy"}

  /** The permission list a viewset instantiates for an action. */
  function Permissions(action: string): (r: seq<Permission>)
    ensures IsAuthenticated in r
    ensures IsAdminUser in r <==> action in AdminActions
    ensures forall i, j :: 0 <= i < j < |r| ==> r[i] != r[j]
  {
    if action in AdminActions then [IsAuthenticated, IsAdminUser] else [IsAuthenticated]
  }

  predicate Grants(p: Permission, user: Principal) {
    match p
    case IsAuthenticated => user.isAuthenticated
    case IsAdminUser => user.isStaff
  }

  /** A request passes when every permission in the list grants it. */
  predicate Allowed(perms: seq<Permission>, user: Principal) {
    forall i :: 0 <= i < |perms| ==> Grants(perms[i], user)
  }

  /** The gate both viewsets apply: writes and deletes need an authenticated
      staff user, every other action an authenticated one. */
  lemma AdminGate(action: string, user: Principal)
    ensures Allowed(Permissions(action), user)
            <==> user.isAuthenticated && (action in AdminActions ==> user.isStaff)
  {
  }

  // ---------------------------------------------------------------------
  // The order status endpoint
  // ---------------------------------------------------------------------

  /** The only key a status request may carry. */
  const StatusKey: string := "status"

  /** The wire value of each order status. */
  function StatusValue(s: OrderStatus): string {
    match s
    case Pending => "pending"
    case Completed => "completed"
    case Cancelled => "cancelled"
  }

  /** Membership test against the order status enum's values. */
  function ParseStatus(v: string): (r: Option<OrderStatus>)
    ensures r.Some? ==> StatusValue(r.value) == v
    ensures r.None? <==> forall s: OrderStatus :: StatusValue(s) != v
  {
    if v == StatusValue(Pending) then Some(Pending)
    else if v == StatusValue(Completed) then Some(Completed)
    else if v == StatusValue(Cancelled) then Some(Cancelled)
    else None
  }

  /** The handler's transition table: Pending may only become Completed,
      Completed only Cancelled, and Cancelled nothing. */
  function AllowedTargets(current: OrderStatus): (r: set<OrderStatus>)
    ensures forall t :: t in r <==> (current == Pending && t == Completed) || (current == Completed && t == Cancelled)
    ensures current !in r
  {
    match current
    case Pending => {Completed}
    case Completed => {Cancelled}
    case Cancelled => {}
  }

  /** What the handler answers. `Updated` is the 200 response with the
      saved order; the rest are its 400/403/404 rejections. */
  datatype PatchResponse =
    | Updated(order: Order)
    | OnlyStatusField
    | StatusNotAllowed
    | NotFound
    | IllegalTransition(from: OrderStatus, to: OrderStatus)
    | SuperuserOnly

  /** The response together with the stock and order tables afterwards. */
  datatype PatchResult = PatchResult(
    response: PatchResponse,
    stocks: map<StockId, Stock>,
    orders: map<OrderId, Order>)

  /** Adds `sign * quantity` of one line to its stock. A line whose stock is
      missing changes nothing; the foreign key keeps that from happening. */
  function Adjust(stocks: map<StockId, Stock>, line: StockOrder, sign: int): map<StockId, Stock> {
    if line.stock in stocks then
      stocks[line.stock := stocks[line.stock].(qty := stocks[line.stock].qty + sign * line.quantity)]
    else
      stocks
  }

  /** The stock table after the handler's loop over the order lines, one
      line after the other. */
  function ApplyLines(stocks: map<StockId, Stock>, lines: seq<StockOrder>, sign: int): (r: map<StockId, Stock>)
    ensures r.Keys == stocks.Keys
  {
    if lines == [] then stocks
    else Adjust(ApplyLines(stocks, lines[..|lines| - 1], sign), lines[|lines| - 1], sign)
  }

  /** The total quantity that the lines take from one stock. */
  function Ordered(lines: seq<StockOrder>, id: StockId): int {
    if lines == [] then 0
    else
      var last := lines[|lines| - 1];
      Ordered(lines[..|lines| - 1], id) + (if last.stock == id then last.quantity else 0)
  }

  /** Running the loop moves each stock by `sign` times the quantity the
      lines take from it, and touches no other column and no key. */
  lemma {:induction false} ApplyLinesEffect(stocks: map<StockId, Stock>, lines: seq<StockOrder>, sign: int, id: StockId)
    ensures ApplyLines(stocks, lines, sign).Keys == stocks.Keys
    ensures id in stocks ==>
      ApplyLines(stocks, lines, sign)[id] == stocks[id].(qty := stocks[id].qty + sign * Ordered(lines, id))
  {
    if lines != [] {
      var init, last := lines[..|lines| - 1], lines[|lines| - 1];
      ApplyLinesEffect(stocks, init, sign, id);
      var before := Ordered(init, id);
      var step := if last.stock == id then last.quantity else 0;
      assert sign * (before + step) == sign * before + sign * step;
    }
  }

  /** The quantified form of ApplyLinesEffect. */
  lemma ApplyLinesAll(stocks: map<StockId, Stock>, lines: seq<StockOrder>, sign: int)
    ensures ApplyLines(stocks, lines, sign).Keys == stocks.Keys
    ensures forall id :: id in stocks ==>
      ApplyLines(stocks, lines, sign)[id] == stocks[id].(qty := stocks[id].qty + sign * Ordered(lines, id))
  {
    ApplyLinesEffect(stocks, lines, sign, 0);
    forall id | id in stocks
      ensures ApplyLines(stocks, lines, sign)[id] == stocks[id].(qty := stocks[id].qty + sign * Ordered(lines, id))
    {
      ApplyLinesEffect(stocks, lines, sign, id);
    }
  }

  /** A stock that no line refers to is taken from by nothing. */
  lemma {:induction false} OrderedUnreferenced(lines: seq<StockOrder>, id: StockId)
    requires forall i :: 0 <= i < |lines| ==> lines[i].stock != id
    ensures Ordered(lines, id) == 0
  {
    if lines != [] {
      OrderedUnreferenced(lines[..|lines| - 1], id);
    }
  }

  /** Putting the lines back after taking them out restores every stock. */
  lemma RestoreUndoesTake(stocks: map<StockId, Stock>, lines: seq<StockOrder>)
    ensures ApplyLines(ApplyLines(stocks, lines, -1), lines, 1) == stocks
  {
    var taken := ApplyLines(stocks, lines, -1);
    ApplyLinesAll(stocks, lines, -1);
    ApplyLinesAll(taken, lines, 1);
  }

  /** Completing two orders leaves the same stock table whichever of them is
      completed first. */
  lemma CompletionsCommute(stocks: map<StockId, Stock>, a: seq<StockOrder>, b: seq<StockOrder>)
    ensures ApplyLines(ApplyLines(stocks, a, -1), b, -1) == ApplyLines(ApplyLines(stocks, b, -1), a, -1)
  {
    var sa, sb := ApplyLines(stocks, a, -1), ApplyLines(stocks, b, -1);
    var ab, ba := ApplyLines(sa, b, -1), ApplyLines(sb, a, -1);
    forall id | id in stocks
      ensures ab[id] == ba[id]
    {
      ApplyLinesEffect(stocks, a, -1, id);
      ApplyLinesEffect(stocks, b, -1, id);
      ApplyLinesEffect(sa, b, -1, id);
      ApplyLinesEffect(sb, a, -1, id);
    }
    assert ab.Keys == stocks.Keys == ba.Keys;
  }

  /** A map with at most one key that holds `k` holds nothing else. */
  lemma OnlyKey(m: map<string, string>, k: string)
    requires k in m && |m| <= 1
    ensures m.Keys == {k}
  {
    var rest := m.Keys - {k};
    assert |rest| == |m.Keys| - 1 == 0;
    assert m.Keys == rest + {k};
  }

  /** When the handler accepts a request: the body is exactly a known status,
      the order exists, the move is Pending -> Completed or
      Completed -> Cancelled, and a cancellation passes the superuser gate. */
  predicate Accepted(orders: map<OrderId, Order>, pk: OrderId, body: map<string, string>,
                     isSuperuser: bool, onlySuperUserCancel: bool)
  {
    && body.Keys == {StatusKey}
    && ParseStatus(body[StatusKey]).Some?
    && pk in orders
    && var from, to := orders[pk].status, ParseStatus(body[StatusKey]).value;
       || (from == Pending && to == Completed)
       || (from == Completed && to == Cancelled && (isSuperuser || !onlySuperUserCancel))
  }

  /** The effect of one PATCH request for order `pk`, with the final save
      taken to succeed. */
  function PatchOutcome(stocks: map<StockId, Stock>, orders: map<OrderId, Order>, pk: OrderId,
                        body: map<string, string>, isSuperuser: bool, onlySuperUserCancel: bool): (r: PatchResult)
    // the body shape is checked first, then the value, then the order
    ensures r.response == OnlyStatusField <==> StatusKey !in body || |body| > 1
    ensures r.response == StatusNotAllowed <==>
      StatusKey in body && |body| <= 1 && ParseStatus(body[StatusKey]).None?
    ensures r.response == NotFound <==>
      StatusKey in body && |body| <= 1 && ParseStatus(body[StatusKey]).Some? && pk !in orders
    ensures r.response == SuperuserOnly <==>
      && body.Keys == {StatusKey} && pk in orders
      && orders[pk].status == Completed && ParseStatus(body[StatusKey]) == Some(Cancelled)
      && onlySuperUserCancel && !isSuperuser
    ensures r.response.IllegalTransition? <==>
      && StatusKey in body && |body| <= 1 && ParseStatus(body[StatusKey]).Some? && pk in orders
      && ParseStatus(body[StatusKey]).value !in AllowedTargets(orders[pk].status)
    ensures r.response.IllegalTransition? ==>
      && pk in orders && r.response.from == orders[pk].status
      && Some(r.response.to) == ParseStatus(body[StatusKey])
      && r.response.to !in AllowedTargets(r.response.from)
    ensures r.response.Updated? <==> Accepted(orders, pk, body, isSuperuser, onlySuperUserCancel)
    // a rejected request changes nothing
    ensures !r.response.Updated? ==> r.stocks == stocks && r.orders == orders
    // an accepted one sets the requested status and touches no other order
    ensures r.response.Updated? ==>
      && r.orders == orders[pk := orders[pk].(status := ParseStatus(body[StatusKey]).value)]
      && r.response.order == r.orders[pk]
    ensures r.stocks.Keys == stocks.Keys
    // completing takes each line's quantity out of its stock, without a floor
    ensures r.response.Updated? && orders[pk].status == Pending ==>
      forall id :: id in stocks ==>
        r.stocks[id] == stocks[id].(qty := stocks[id].qty - Ordered(orders[pk].lines, id))
    // cancelling puts it back
    ensures r.response.Updated? && orders[pk].status == Completed ==>
      forall id :: id in stocks ==>
        r.stocks[id] == stocks[id].(qty := stocks[id].qty + Ordered(orders[pk].lines, id))
  {
    if StatusKey !in body || |body| > 1 then PatchResult(OnlyStatusField, stocks, orders)
    else
      OnlyKey(body, StatusKey);
      var requested := ParseStatus(body[StatusKey]);
      if requested.None? then PatchResult(StatusNotAllowed, stocks, orders)
      else if pk !in orders then PatchResult(NotFound, stocks, orders)
      else
        var instance, next := orders[pk], requested.value;
        var updated := instance.(status := next);
        if next !in AllowedTargets(instance.status) then
          PatchResult(IllegalTransition(instance.status, next), stocks, orders)
        else if instance.status == Pending && next == Completed then
          ApplyLinesAll(stocks, instance.lines, -1);
          PatchResult(Updated(updated), ApplyLines(stocks, instance.lines, -1), orders[pk := updated])
        else if instance.status == Completed && next == Cancelled then
          if onlySuperUserCancel && !isSuperuser then PatchResult(SuperuserOnly, stocks, orders)
          else
            ApplyLinesAll(stocks, instance.lines, 1);
            PatchResult(Updated(updated), ApplyLines(stocks, instance.lines, 1), orders[pk := updated])
        else
          PatchResult(Updated(updated), stocks, orders[pk := updated])
  }

  /** Completing a pending order and then cancelling it gives back every
      stock quantity it took, and leaves the order cancelled. */
  lemma CompleteThenCancelRestoresStock(stocks: map<StockId, Stock>, orders: map<OrderId, Order>, pk: OrderId,
                                        isSuperuser: bool, onlySuperUserCancel: bool)
    requires pk in orders && orders[pk].status == Pending
    requires isSuperuser || !onlySuperUserCancel
    ensures
      var done := PatchOutcome(stocks, orders, pk, map[StatusKey := StatusValue(Completed)], isSuperuser, onlySuperUserCancel);
      var undone := PatchOutcome(done.stocks, done.orders, pk, map[StatusKey := StatusValue(Cancelled)], isSuperuser, onlySuperUserCancel);
      && done.response.Updated? && undone.response.Updated?
      && undone.stocks == stocks
      && undone.orders == orders[pk := orders[pk].(status := Cancelled)]
  {
    var lines := orders[pk].lines;
    var complete, cancel := map[StatusKey := StatusValue(Completed)], map[StatusKey := StatusValue(Cancelled)];
    assert complete.Keys == {StatusKey} && cancel.Keys == {StatusKey};
    var done := PatchOutcome(stocks, orders, pk, complete, isSuperuser, onlySuperUserCancel);
    assert done.response.Updated?;
    assert done.stocks == ApplyLines(stocks, lines, -1);
    assert done.orders[pk] == orders[pk].(status := Completed);
    var undone := PatchOutcome(done.stocks, done.orders, pk, cancel, isSuperuser, onlySuperUserCancel);
    assert undone.response.Updated?;
    assert undone.stocks == ApplyLines(done.stocks, lines, 1);
    RestoreUndoesTake(stocks, lines);
  }

  /** A stock that none of the order's lines refers to keeps its row, and
      so does every stock when the request is refused. */
  lemma UnreferencedStockUnchanged(stocks: map<StockId, Stock>, orders: map<OrderId, Order>, pk: OrderId,
                                   body: map<string, string>, isSuperuser: bool, onlySuperUserCancel: bool,
                                   id: StockId)
    requires id in stocks
    requires pk in orders ==> forall i :: 0 <= i < |orders[pk].lines| ==> orders[pk].lines[i].stock != id
    ensures PatchOutcome(stocks, orders, pk, body, isSuperuser, onlySuperUserCancel).stocks[id] == stocks[id]
  {
    if pk in orders {
      OrderedUnreferenced(orders[pk].lines, id);
    }
  }

  /** Completion does not check the quantity left: a batch of one, ordered
      three times over, ends at minus two. */
  lemma CompletionCanDriveStockNegative()
    ensures
      var stocks := map[1 := Stock(1, None)];
      var orders := map[7 := Order(Pending, [StockOrder(1, 3)])];
      var r := PatchOutcome(stocks, orders, 7, map[StatusKey := StatusValue(Completed)], false, true);
      r.response.Updated? && r.stocks[1].qty == -2
  {
  }

  /** Every order line refers to a stock in the table: the foreign key. */
  predicate LinesReferToStocks(stocks: map<StockId, Stock>, orders: map<OrderId, Order>) {
    forall pk, i :: pk in orders && 0 <= i < |orders[pk].lines| ==> orders[pk].lines[i].stock in stocks
  }

  /** The stock and order tables the handler reads and writes. */
  class OrderStore {
    var stocks: map<StockId, Stock>
    var orders: map<OrderId, Order>

    ghost predicate Valid()
      reads this
    {
      LinesReferToStocks(stocks, orders)
    }

    constructor (stocks: map<StockId, Stock>, orders: map<OrderId, Order>)
      requires LinesReferToStocks(stocks, orders)
      ensures Valid()
      ensures this.stocks == stocks && this.orders == orders
    {
      this.stocks := stocks;
      this.orders := orders;
    }

    /** The loop over an order's lines: each line's quantity, times `sign`,
        is added to its stock and saved, one line after the other. Completing
        runs it with -1, cancelling with +1. */
    method MoveStock(lines: seq<StockOrder>, sign: int)
      requires forall j :: 0 <= j < |lines| ==> lines[j].stock in stocks
      modifies this`stocks
      ensures stocks == ApplyLines(old(stocks), lines, sign)
    {
      var i := 0;
      while i < |lines|
        invariant 0 <= i <= |lines|
        invariant stocks.Keys == old(stocks).Keys
        invariant stocks == ApplyLines(old(stocks), lines[..i], sign)
      {
        var line := lines[i];
        var stock := stocks[line.stock];
        stocks := stocks[line.stock := stock.(qty := stock.qty + sign * line.quantity)];
        assert lines[..i + 1][..i] == lines[..i];
        i := i + 1;
      }
      assert lines[..i] == lines;
    }

    /** The PATCH handler: validates the body, looks the order up, checks the
        transition, walks the order lines to move stock, then saves the new
        status. */
    method Patch(pk: OrderId, body: map<string, string>, isSuperuser: bool, onlySuperUserCancel: bool)
      returns (response: PatchResponse)
      requires Valid()
      modifies this
      ensures Valid()
      ensures PatchResult(response, stocks, orders)
              == PatchOutcome(old(stocks), old(orders), pk, body, isSuperuser, onlySuperUserCancel)
    {
      if StatusKey !in body || |body| > 1 {
        return OnlyStatusField;
      }
      var requested := ParseStatus(body[StatusKey]);
      if requested.None? {
        return StatusNotAllowed;
      }
      var newStatus := requested.value;
      if pk !in orders {
        return NotFound;
      }
      var instance := orders[pk];
      if newStatus !in AllowedTargets(instance.status) {
        return IllegalTransition(instance.status, newStatus);
      }
      if instance.status == Pending && newStatus == Completed {
        assert forall j :: 0 <= j < |instance.lines| ==> instance.lines[j].stock in stocks;
        MoveStock(instance.lines, -1);
      } else if instance.status == Completed && newStatus == Cancelled {
        if onlySuperUserCancel && !isSuperuser {
          return SuperuserOnly;
        }
        assert forall j :: 0 <= j < |instance.lines| ==> instance.lines[j].stock in stocks;
        MoveStock(instance.lines, 1);
      }
      var updated := instance.(status := newStatus);
      orders := orders[pk := updated];
      response := Updated(updated);
    }
  }
}
