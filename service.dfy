/**
 * The order-lifecycle hooks and the module hooks of `Service`
 * (src/Service.php) over the `service_nextcloud` table.
 *
 * The table is an in-memory map from id to row with an auto-increment
 * counter. The host's order record is reduced to the fields the hooks read;
 * `$order->getService()` is the row the order's service id points to. The
 * host's client and product tables are parameters of `activate`, the clock
 * is a parameter of each hook that stamps a row.
 */
module ServiceNextcloud {
  import opened Common
  import opened Php

  /** The fields of the host's `Model_ClientOrder` the hooks read. */
  datatype Order = Order(id: int, clientId: int, productId: int, serviceId: Option<int>)

  /**
   * A row of `service_nextcloud`. The table has no `active` column; the
   * flag that the host model's `setActive` sets is kept here, absent until
   * a hook first sets it.
   */
  datatype ServiceRow = ServiceRow(
    clientId: int,
    orderId: int,
    serverId: Option<int>,
    serverUuid: Option<string>,
    hostname: Option<string>,
    password: Option<string>,
    config: Option<string>,
    active: Option<int>,
    createdAt: Timestamp,
    updatedAt: Timestamp)

  /**
   * A row of the host's product table. Its decoded `config` holds the
   * `server_id` that `activate` loads a server with; that lookup is not
   * modelled, so the field is only carried along.
   */
  datatype Product = Product(config: map<string, Value>)

  datatype HookError =
    | ServiceException(message: string)                // FOSSBilling\Exception
    | InformationException(message: string, code: int)  // FOSSBilling\InformationException
    | NoServiceForOrder                                 // a method called on the null `getService()` result
    | ModelTypeError                                    // null given to `activate`'s non-nullable `\Model_Service` parameter

  const ProductNotFound: string := "Product not found. Could not activate order"
  const ClientNotFound: string := "Client not found. Could not activate order"
  const UpdateRefused: string := "Throw exception to terminate module update process with a message"

  /** The fixed head of `getSearchQuery`'s SQL, line breaks and indentation included. */
  const SearchSelect: string :=
    "SELECT meta_key, meta_value\n            FROM extension_meta\n            WHERE extension = 'servicenextcloud'"
  const ClientClause: string := " AND client_id = :client_id"
  const OrderClause: string := " ORDER BY created_at DESC"

  /** The row `create` stores for `order`: ids and timestamps, nothing else. */
  function NewRow(order: Order, now: Timestamp): ServiceRow {
    ServiceRow(order.clientId, order.id, None, None, None, None, None, None, now, now)
  }

  /** `setActive($active)` and `setUpdatedAt($now)` on a row. */
  function WithActive(row: ServiceRow, active: int, now: Timestamp): (r: ServiceRow)
    ensures r.active == Some(active) && r.updatedAt == now
    ensures r.(active := row.active, updatedAt := row.updatedAt) == row
  {
    row.(active := Some(active), updatedAt := now)
  }

  /** `setUpdatedAt($now)` on a row. */
  function Touched(row: ServiceRow, now: Timestamp): (r: ServiceRow)
    ensures r.updatedAt == now && r.active == row.active
    ensures r.(updatedAt := row.updatedAt) == row
  {
    row.(updatedAt := now)
  }

  /** Setting the same flag twice is setting it once, at the later time. */
  lemma WithActiveIdempotent(row: ServiceRow, active: int, t1: Timestamp, t2: Timestamp)
    ensures WithActive(WithActive(row, active, t1), active, t2) == WithActive(row, active, t2)
  {
  }

  /** `$data['client_id'] ?? null`, when it is not null. */
  function ClientFilter(data: map<string, Value>): (r: Option<Value>)
    ensures r.Some? <==> "client_id" in data && data["client_id"] != VNull
    ensures r.Some? ==> r.value == data["client_id"]
  {
    var clientId := if "client_id" in data then data["client_id"] else VNull;
    if clientId != VNull then Some(clientId) else None
  }

  /** `update($manifest)` throws before its `return true`. */
  function Update(manifest: map<string, Value>): (r: Result<bool, HookError>)
    ensures r.Failure? && r.error.InformationException? && r.error.code == 125
    ensures r != Success(true)
  {
    Failure(InformationException(UpdateRefused, 125))
  }

  class Service {
    /** The `service_nextcloud` table, by id. */
    var rows: map<int, ServiceRow>
    /** The id the next stored row receives (AUTO_INCREMENT=1). */
    var nextId: int

    /** Every stored id was handed out by the counter. */
    ghost predicate Valid()
      reads this
    {
      1 <= nextId && forall id :: id in rows ==> 1 <= id < nextId
    }

    constructor ()
      ensures Valid() && rows == map[] && nextId == 1
    {
      rows := map[];
      nextId := 1;
    }

    /** `$order->getService()` is a stored row. */
    predicate Attached(order: Order)
      reads this
    {
      order.serviceId.Some? && order.serviceId.value in rows
    }

    /**
     * `getSearchQuery`: the fixed SELECT, the client filter when a non-null
     * `client_id` is given, and always the ordering clause last.
     */
    method GetSearchQuery(data: map<string, Value>) returns (sql: string, params: map<string, Value>)
      ensures ":client_id" in params <==> ClientFilter(data).Some?
      ensures params.Keys <= {":client_id"}
      ensures ClientFilter(data).Some? ==> params[":client_id"] == ClientFilter(data).value
      ensures |SearchSelect| + |OrderClause| <= |sql|
      ensures sql[..|SearchSelect|] == SearchSelect
      ensures sql[|sql| - |OrderClause|..] == OrderClause
      ensures sql[|SearchSelect|..|sql| - |OrderClause|] == if ClientFilter(data).Some? then ClientClause else ""
    {
      params := map[];
      sql := SearchSelect;
      var clientId := if "client_id" in data then data["client_id"] else VNull;
      if clientId != VNull {
        sql := sql + ClientClause;
        params := params[":client_id" := clientId];
      }
      sql := sql + OrderClause;
    }

    /** `create`: stores one new row for the order and returns its id. */
    method Create(order: Order, now: Timestamp) returns (id: int)
      requires Valid()
      modifies this
      ensures Valid()
      ensures id == old(nextId) && id !in old(rows) && nextId == old(nextId) + 1
      ensures rows == old(rows)[id := NewRow(order, now)]
    {
      id := nextId;
      rows := rows[id := NewRow(order, now)];
      nextId := nextId + 1;
    }

    /**
     * `activate`'s checks: the product, then the client must exist. A null
     * model never reaches the body: the parameter's type is not nullable, so
     * the call itself fails and the `is_object` test is dead code. Nothing is
     * written on any path.
     */
    method Activate(order: Order, model: Option<ServiceRow>, clients: set<int>, products: map<int, Product>)
      returns (r: Outcome<HookError>)
      ensures model.None? ==> r == Fail(ModelTypeError)
      ensures model.Some? && order.productId !in products ==> r == Fail(ServiceException(ProductNotFound))
      ensures model.Some? && order.productId in products && order.clientId !in clients ==>
                r == Fail(ServiceException(ClientNotFound))
      ensures r.Pass? <==> model.Some? && order.productId in products && order.clientId in clients
    {
      if model.None? {
        return Fail(ModelTypeError);
      }
      var clientFound := order.clientId in clients;
      var productFound := order.productId in products;
      if !productFound {
        return Fail(ServiceException(ProductNotFound));
      }
      if !clientFound {
        return Fail(ServiceException(ClientNotFound));
      }
      r := Pass;
    }

    /** `renew`: only the service's `updated_at` changes. */
    method Renew(order: Order, now: Timestamp) returns (r: Outcome<HookError>)
      requires Valid()
      modifies this
      ensures Valid() && nextId == old(nextId)
      ensures !old(Attached(order)) ==> r == Fail(NoServiceForOrder) && rows == old(rows)
      ensures old(Attached(order)) ==>
                var id := order.serviceId.value;
                r == Pass && rows == old(rows)[id := Touched(old(rows)[id], now)]
    {
      if !Attached(order) {
        return Fail(NoServiceForOrder);
      }
      var id := order.serviceId.value;
      rows := rows[id := Touched(rows[id], now)];
      r := Pass;
    }

    /** Sets the service's active flag and `updated_at`, as the four suspend/cancel hooks do. */
    method SetActive(order: Order, active: int, now: Timestamp) returns (r: Outcome<HookError>)
      requires Valid()
      modifies this
      ensures Valid() && nextId == old(nextId)
      ensures !old(Attached(order)) ==> r == Fail(NoServiceForOrder) && rows == old(rows)
      ensures old(Attached(order)) ==>
                var id := order.serviceId.value;
                r == Pass && rows == old(rows)[id := WithActive(old(rows)[id], active, now)]
    {
      if !Attached(order) {
        return Fail(NoServiceForOrder);
      }
      var id := order.serviceId.value;
      rows := rows[id := WithActive(rows[id], active, now)];
      r := Pass;
    }

    /** `suspend`: active becomes 0. */
    method Suspend(order: Order, now: Timestamp) returns (r: Outcome<HookError>)
      requires Valid()
      modifies this
      ensures Valid() && nextId == old(nextId)
      ensures !old(Attached(order)) ==> r == Fail(NoServiceForOrder) && rows == old(rows)
      ensures old(Attached(order)) ==>
                var id := order.serviceId.value;
                r == Pass && rows == old(rows)[id := WithActive(old(rows)[id], 0, now)]
    {
      r := SetActive(order, 0, now);
    }

    /** `unsuspend`: active becomes 1. */
    method Unsuspend(order: Order, now: Timestamp) returns (r: Outcome<HookError>)
      requires Valid()
      modifies this
      ensures Valid() && nextId == old(nextId)
      ensures !old(Attached(order)) ==> r == Fail(NoServiceForOrder) && rows == old(rows)
      ensures old(Attached(order)) ==>
                var id := order.serviceId.value;
                r == Pass && rows == old(rows)[id := WithActive(old(rows)[id], 1, now)]
    {
      r := SetActive(order, 1, now);
    }

    /** `cancel`: active becomes 0, as for `suspend`. */
    method Cancel(order: Order, now: Timestamp) returns (r: Outcome<HookError>)
      requires Valid()
      modifies this
      ensures Valid() && nextId == old(nextId)
      ensures !old(Attached(order)) ==> r == Fail(NoServiceForOrder) && rows == old(rows)
      ensures old(Attached(order)) ==>
                var id := order.serviceId.value;
                r == Pass && rows == old(rows)[id := WithActive(old(rows)[id], 0, now)]
    {
      r := SetActive(order, 0, now);
    }

    /** `uncancel`: active becomes 1, as for `unsuspend`. */
    method Uncancel(order: Order, now: Timestamp) returns (r: Outcome<HookError>)
      requires Valid()
      modifies this
      ensures Valid() && nextId == old(nextId)
      ensures !old(Attached(order)) ==> r == Fail(NoServiceForOrder) && rows == old(rows)
      ensures old(Attached(order)) ==>
                var id := order.serviceId.value;
                r == Pass && rows == old(rows)[id := WithActive(old(rows)[id], 1, now)]
    {
      r := SetActive(order, 1, now);
    }

    /** `delete`: the order's service row is removed. */
    method Delete(order: Order) returns (r: Outcome<HookError>)
      requires Valid()
      modifies this
      ensures Valid() && nextId == old(nextId)
      ensures !old(Attached(order)) ==> r == Fail(NoServiceForOrder) && rows == old(rows)
      ensures old(Attached(order)) ==>
                r == Pass && rows == old(rows) - {order.serviceId.value} && !Attached(order)
    {
      if !Attached(order) {
        return Fail(NoServiceForOrder);
      }
      rows := rows - {order.serviceId.value};
      r := Pass;
    }
  }

  /**
   * Create a service, suspend it, suspend it again, unsuspend it: the row
   * ends active with the last timestamp and its other fields as created.
   */
  method LifecycleScenario(order: Order)
    requires order.serviceId.None?
  {
    var service := new Service();
    var id := service.Create(order, "2024-01-01 10:00:00");
    var placed := order.(serviceId := Some(id));

    var r := service.Suspend(placed, "2024-01-02 10:00:00");
    assert r == Pass && service.rows[id].active == Some(0);
    r := service.Suspend(placed, "2024-01-03 10:00:00");
    assert r == Pass && service.rows[id].active == Some(0);

    r := service.Unsuspend(placed, "2024-01-04 10:00:00");
    assert r == Pass;
    var row := service.rows[id];
    assert row.active == Some(1) && row.updatedAt == "2024-01-04 10:00:00";
    assert row.createdAt == "2024-01-01 10:00:00" && row.orderId == order.id && row.clientId == order.clientId;
    assert row.serverId.None? && row.hostname.None? && row.password.None?;

    r := service.Delete(placed);
    assert r == Pass && id !in service.rows;
    r := service.Renew(placed, "2024-01-05 10:00:00");
    assert r == Fail(NoServiceForOrder);
  }
}
