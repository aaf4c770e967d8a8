/** Order creation on the server: one database connection runs BEGIN, the order
    header insert, one insert per item and COMMIT; any failing statement sends
    the protocol to ROLLBACK, and the connection is released on every path.
    The database is abstract: its tables, a transaction's working copy, the
    order-id sequence, and a fixed set of statement positions that fail. */
module OrderTransaction {
  import opened Text

  const CreatedMessage: string := "Pedido criado com sucesso"
  const CreateFailedMessage: string := "Erro ao criar pedido"

  datatype OrderRow = OrderRow(id: int, userId: int, totalPrice: int, deliveryAddress: string)
  datatype ItemRow = ItemRow(orderId: int, productId: int, quantity: int, price: int)
  datatype Tables = Tables(orders: seq<OrderRow>, orderItems: seq<ItemRow>)

  /** One element of the request's `items`. */
  datatype ItemRequest = ItemRequest(productId: int, quantity: int, price: int)

  datatype Query =
    | Begin
    | InsertOrder(userId: int, totalPrice: int, deliveryAddress: string)
    | InsertItem(orderId: int, productId: int, quantity: int, price: int)
    | Commit
    | Rollback

  /** 201 with the new id, or 400 with the error text. */
  datatype Response = Created(id: int, message: string) | Failed(error: string)

  /** The database as one connection sees it. Statements inside a transaction
      change `working`; COMMIT publishes it, ROLLBACK throws it away. The id
      sequence is not rolled back. */
  datatype Db = Db(committed: Tables, working: Tables, inTransaction: bool, nextId: int)

  /** The effect of a statement that succeeds. Only COMMIT publishes anything:
      every other statement leaves the committed tables as they were. */
  function Apply(db: Db, q: Query): (r: Db)
    ensures q != Commit ==> r.committed == db.committed
    ensures q == Commit ==> r.committed == db.working && !r.inTransaction
  {
    match q
    case Begin => db.(working := db.committed, inTransaction := true)
    case InsertOrder(u, t, a) =>
      db.(working := db.working.(orders := db.working.orders + [OrderRow(db.nextId, u, t, a)]),
          nextId := db.nextId + 1)
    case InsertItem(o, p, n, pr) =>
      db.(working := db.working.(orderItems := db.working.orderItems + [ItemRow(o, p, n, pr)]))
    case Commit => db.(committed := db.working, inTransaction := false)
    case Rollback => db.(working := db.committed, inTransaction := false)
  }

  // ----------------------------------------------------- the intended run

  /** One item insert per requested item, in order, all carrying the order id. */
  function ItemQueries(orderId: int, items: seq<ItemRequest>): (qs: seq<Query>)
    ensures |qs| == |items|
    ensures forall i :: 0 <= i < |items| ==>
              qs[i] == InsertItem(orderId, items[i].productId, items[i].quantity, items[i].price)
  {
    seq(|items|, i requires 0 <= i < |items| =>
      InsertItem(orderId, items[i].productId, items[i].quantity, items[i].price))
  }

  function ItemRows(orderId: int, items: seq<ItemRequest>): (rows: seq<ItemRow>)
    ensures |rows| == |items|
    ensures forall i :: 0 <= i < |items| ==>
              rows[i] == ItemRow(orderId, items[i].productId, items[i].quantity, items[i].price)
  {
    seq(|items|, i requires 0 <= i < |items| =>
      ItemRow(orderId, items[i].productId, items[i].quantity, items[i].price))
  }

  /** The statements of a run in which nothing fails. */
  function SuccessTrace(userId: int, totalPrice: int, address: string, orderId: int,
                        items: seq<ItemRequest>): seq<Query>
  {
    [Begin, InsertOrder(userId, totalPrice, address)] + ItemQueries(orderId, items) + [Commit]
  }

  /** The tables after a committed order: one header and its item rows appended. */
  function WithOrder(t: Tables, header: OrderRow, rows: seq<ItemRow>): Tables {
    Tables(t.orders + [header], t.orderItems + rows)
  }

  /** BEGIN comes first and the header insert second, with the request's values
      unchanged; then one insert per item in order with the order id; COMMIT
      closes the run and appears nowhere else; no ROLLBACK. */
  lemma SuccessTraceShape(userId: int, totalPrice: int, address: string, orderId: int,
                          items: seq<ItemRequest>)
    ensures var tr := SuccessTrace(userId, totalPrice, address, orderId, items);
            && |tr| == |items| + 3
            && tr[0] == Begin
            && tr[1] == InsertOrder(userId, totalPrice, address)
            && (forall i :: 0 <= i < |items| ==>
                  tr[i + 2] == InsertItem(orderId, items[i].productId, items[i].quantity, items[i].price))
            && tr[|tr| - 1] == Commit
            && (forall k :: 0 <= k < |tr| - 1 ==> tr[k] != Commit)
            && Rollback !in tr
  {
    var tr := SuccessTrace(userId, totalPrice, address, orderId, items);
    var mid := ItemQueries(orderId, items);
    assert tr == [Begin, InsertOrder(userId, totalPrice, address)] + mid + [Commit];
    forall k | 0 <= k < |tr| - 1
      ensures tr[k] != Commit
    {
      if k >= 2 {
        assert tr[k] == mid[k - 2];
      }
    }
    forall k | 0 <= k < |tr|
      ensures tr[k] != Rollback
    {
      if 2 <= k < |tr| - 1 {
        assert tr[k] == mid[k - 2];
      }
    }
  }

  /** The two outcomes the store can be left in differ by exactly one order header
      and one row per item, appended after what was there. */
  lemma WithOrderAppends(t: Tables, header: OrderRow, rows: seq<ItemRow>)
    ensures var u := WithOrder(t, header, rows);
            && |u.orders| == |t.orders| + 1 && u.orders[..|t.orders|] == t.orders
            && u.orders[|t.orders|] == header
            && |u.orderItems| == |t.orderItems| + |rows|
            && u.orderItems[..|t.orderItems|] == t.orderItems
            && u.orderItems[|t.orderItems|..] == rows
  {
    var u := WithOrder(t, header, rows);
    assert u.orders[..|t.orders|] == t.orders;
    assert u.orderItems[..|t.orderItems|] == t.orderItems;
  }

  /** An empty item list is not refused: the order commits with a header alone. */
  lemma EmptyOrderCommitsHeader(userId: int, totalPrice: int, address: string, orderId: int)
    ensures SuccessTrace(userId, totalPrice, address, orderId, [])
         == [Begin, InsertOrder(userId, totalPrice, address), Commit]
    ensures ItemRows(orderId, []) == []
  {
  }

  /** The first failing statement position in `[start, start + count)`, if any. */
  function FirstFailure(failAt: set<nat>, start: nat, count: nat): (r: Option<nat>)
    ensures r.Some? ==> start <= r.value < start + count && r.value in failAt
    ensures r.Some? ==> forall k :: start <= k < r.value ==> k !in failAt
    ensures r.None? ==> forall k :: start <= k < start + count ==> k !in failAt
    decreases count
  {
    if count == 0 then None
    else if start in failAt then Some(start)
    else FirstFailure(failAt, start + 1, count - 1)
  }

  // ------------------------------------------------------------ connection

  /** A pooled connection. Statement number `k` on this connection (counting
      from 0) fails exactly when `k` is in `failAt`. */
  class Client {
    var db: Db
    var log: seq<Query>
    var releases: nat
    const failAt: set<nat>

    constructor(db: Db, failAt: set<nat>)
      ensures this.db == db && this.failAt == failAt && log == [] && releases == 0
    {
      this.db := db;
      this.failAt := failAt;
      log := [];
      releases := 0;
    }

    /** `client.query(q)`: logged; applied when it succeeds; the id is the one an
        order insert returns. */
    method Execute(q: Query) returns (ok: bool, id: int)
      modifies this
      ensures log == old(log) + [q] && releases == old(releases)
      ensures ok <==> |old(log)| !in failAt
      ensures db == if ok then Apply(old(db), q) else old(db)
      ensures id == old(db).nextId
    {
      ok := |log| !in failAt;
      id := db.nextId;
      if ok {
        db := Apply(db, q);
      }
      log := log + [q];
    }

    /** `client.release()`. */
    method Release()
      modifies this
      ensures releases == old(releases) + 1 && db == old(db) && log == old(log)
    {
      releases := releases + 1;
    }
  }

  /** The item loop: one insert per item, stopping at the first that fails. */
  method InsertItems(client: Client, orderId: int, items: seq<ItemRequest>) returns (ok: bool)
    modifies client
    ensures client.releases == old(client.releases) && client.db.committed == old(client.db.committed)
    ensures var n := |old(client.log)|;
            var failure := FirstFailure(client.failAt, n, |items|);
            var queries := ItemQueries(orderId, items);
            && (ok <==> failure.None?)
            && (ok ==> client.log == old(client.log) + queries
                       && client.db == old(client.db).(working := old(client.db).working.(
                            orderItems := old(client.db).working.orderItems + ItemRows(orderId, items))))
            && (!ok ==> client.log == old(client.log) + queries[..failure.value - n + 1])
  {
    ghost var n := |client.log|;
    ghost var log0, db0 := client.log, client.db;
    ghost var queries := ItemQueries(orderId, items);
    var i := 0;
    while i < |items|
      invariant 0 <= i <= |items|
      invariant client.releases == old(client.releases)
      invariant client.log == log0 + queries[..i]
      invariant forall k :: n <= k < n + i ==> k !in client.failAt
      invariant client.db == db0.(working := db0.working.(
                  orderItems := db0.working.orderItems + ItemRows(orderId, items[..i])))
    {
      var item := items[i];
      var sequenceId;
      ok, sequenceId := client.Execute(InsertItem(orderId, item.productId, item.quantity, item.price));
      assert queries[..i + 1] == queries[..i] + [queries[i]];
      if !ok {
        FirstFailureAt(client.failAt, n, |items|, n + i);
        return;
      }
      assert items[..i + 1] == items[..i] + [item];
      assert ItemRows(orderId, items[..i + 1])
          == ItemRows(orderId, items[..i]) + [ItemRow(orderId, item.productId, item.quantity, item.price)];
      i := i + 1;
    }
    assert items[..|items|] == items && queries[..|items|] == queries;
    ok := true;
  }

  /** BEGIN and the order header insert, stopping at the first that fails. */
  method OpenOrder(client: Client, userId: int, totalPrice: int, address: string)
    returns (ok: bool, orderId: int)
    requires !client.db.inTransaction
    modifies client
    ensures client.releases == old(client.releases) && client.db.committed == old(client.db.committed)
    ensures var n0 := |old(client.log)|;
            var failure := FirstFailure(client.failAt, n0, 2);
            var header := [Begin, InsertOrder(userId, totalPrice, address)];
            && (ok <==> failure.None?)
            && (ok ==> && orderId == old(client.db.nextId)
                       && client.log == old(client.log) + header
                       && client.db == old(client.db).(
                            working := old(client.db.committed).(
                              orders := old(client.db.committed.orders)
                                        + [OrderRow(orderId, userId, totalPrice, address)]),
                            inTransaction := true,
                            nextId := orderId + 1))
            && (!ok ==> client.log == old(client.log) + header[..failure.value - n0 + 1])
  {
    ghost var n0 := |client.log|;
    ghost var header := [Begin, InsertOrder(userId, totalPrice, address)];
    ok, orderId := client.Execute(Begin);
    if !ok {
      assert header[..1] == [Begin];
      return;
    }
    ok, orderId := client.Execute(InsertOrder(userId, totalPrice, address));
    assert header[..2] == header;
  }

  /** BEGIN, the header insert and the item inserts, up to the first statement
      that fails; on success the transaction is left open with the order written. */
  method WriteOrder(client: Client, userId: int, items: seq<ItemRequest>, totalPrice: int,
                    address: string)
    returns (ok: bool, orderId: int)
    requires !client.db.inTransaction
    modifies client
    ensures client.releases == old(client.releases) && client.db.committed == old(client.db.committed)
    ensures var n0, id := |old(client.log)|, old(client.db.nextId);
            var failure := FirstFailure(client.failAt, n0, |items| + 2);
            var statements := [Begin, InsertOrder(userId, totalPrice, address)] + ItemQueries(id, items);
            && (ok <==> failure.None?)
            && (ok ==> && orderId == id
                       && client.log == old(client.log) + statements
                       && client.db == old(client.db).(
                            working := WithOrder(old(client.db.committed),
                                                 OrderRow(id, userId, totalPrice, address),
                                                 ItemRows(id, items)),
                            inTransaction := true,
                            nextId := id + 1))
            && (!ok ==> client.log == old(client.log) + statements[..failure.value - n0 + 1])
  {
    ghost var n0 := |client.log|;
    ghost var header := [Begin, InsertOrder(userId, totalPrice, address)];
    ghost var mid := ItemQueries(client.db.nextId, items);
    ghost var failAt := client.failAt;
    FirstFailureSplit(failAt, n0, 2, |items|);

    ok, orderId := OpenOrder(client, userId, totalPrice, address);
    if !ok {
      var f := FirstFailure(failAt, n0, 2).value;
      assert (header + mid)[..f - n0 + 1] == header[..f - n0 + 1];
      return;
    }
    ok := InsertItems(client, orderId, items);
    if !ok {
      var f := FirstFailure(failAt, n0 + 2, |items|).value;
      assert (header + mid)[..f - n0 + 1] == header + mid[..f - n0 - 1];
    }
  }

  /** BEGIN, the header insert, the item inserts and COMMIT, up to the first
      statement that fails. */
  method RunStatements(client: Client, userId: int, items: seq<ItemRequest>, totalPrice: int,
                       address: string)
    returns (ok: bool, orderId: int)
    requires !client.db.inTransaction
    modifies client
    ensures client.releases == old(client.releases)
    ensures var n0, id := |old(client.log)|, old(client.db.nextId);
            var failure := FirstFailure(client.failAt, n0, |items| + 3);
            var trace := SuccessTrace(userId, totalPrice, address, id, items);
            && (ok <==> failure.None?)
            && (ok ==> && orderId == id
                       && client.log == old(client.log) + trace
                       && client.db.committed
                          == WithOrder(old(client.db.committed), OrderRow(id, userId, totalPrice, address),
                                       ItemRows(id, items)))
            && (!ok ==> && client.log == old(client.log) + trace[..failure.value - n0 + 1]
                        && client.db.committed == old(client.db.committed))
  {
    ghost var n0 := |client.log|;
    ghost var statements := [Begin, InsertOrder(userId, totalPrice, address)]
                            + ItemQueries(client.db.nextId, items);
    ghost var trace := SuccessTrace(userId, totalPrice, address, client.db.nextId, items);
    assert trace == statements + [Commit];
    FirstFailureSplit(client.failAt, n0, |items| + 2, 1);

    ok, orderId := WriteOrder(client, userId, items, totalPrice, address);
    if !ok {
      var f := FirstFailure(client.failAt, n0, |items| + 2).value;
      assert trace[..f - n0 + 1] == statements[..f - n0 + 1];
      return;
    }
    var sequenceId;
    ok, sequenceId := client.Execute(Commit);
    if !ok {
      assert trace[..|items| + 3] == trace;
    }
  }

  /** `create`. The response is `None` when ROLLBACK itself fails: the error then
      escapes the handler after the connection is released and nothing is sent. */
  method Create(client: Client, userId: int, items: seq<ItemRequest>, totalPrice: int, address: string)
    returns (response: Option<Response>)
    requires !client.db.inTransaction
    modifies client
    ensures client.releases == old(client.releases) + 1
    ensures var n0, orderId := |old(client.log)|, old(client.db.nextId);
            var failure := FirstFailure(client.failAt, n0, |items| + 3);
            var trace := SuccessTrace(userId, totalPrice, address, orderId, items);
            && (failure.None? ==>
                  && client.log == old(client.log) + trace
                  && client.db.committed
                     == WithOrder(old(client.db.committed), OrderRow(orderId, userId, totalPrice, address),
                                  ItemRows(orderId, items))
                  && response == Some(Created(orderId, CreatedMessage)))
            && (failure.Some? ==>
                  && client.log == old(client.log) + trace[..failure.value - n0 + 1] + [Rollback]
                  && client.db.committed == old(client.db.committed)
                  && response == if failure.value + 1 in client.failAt then None
                                 else Some(Failed(CreateFailedMessage)))
  {
    var ok, orderId := RunStatements(client, userId, items, totalPrice, address);
    if ok {
      response := Some(Created(orderId, CreatedMessage));
    } else {
      var rolledBack, sequenceId := client.Execute(Rollback);
      response := if rolledBack then Some(Failed(CreateFailedMessage)) else None;
    }
    client.Release();
  }

  /** The first failure among `a + b` positions: among the first `a`, or else
      among the `b` after them. */
  lemma {:induction false} FirstFailureSplit(failAt: set<nat>, start: nat, a: nat, b: nat)
    ensures FirstFailure(failAt, start, a + b)
         == if FirstFailure(failAt, start, a).Some? then FirstFailure(failAt, start, a)
            else FirstFailure(failAt, start + a, b)
    decreases a
  {
    if a > 0 && start !in failAt {
      FirstFailureSplit(failAt, start + 1, a - 1, b);
    }
  }

  /** A position that fails with none failing before it is the first failure. */
  lemma {:induction false} FirstFailureAt(failAt: set<nat>, start: nat, count: nat, k: nat)
    requires start <= k < start + count && k in failAt
    requires forall j :: start <= j < k ==> j !in failAt
    ensures FirstFailure(failAt, start, count) == Some(k)
    decreases count
  {
    if start != k {
      FirstFailureAt(failAt, start + 1, count - 1, k);
    }
  }
}
