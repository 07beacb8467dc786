/**
 * WooCommerce_Legacy_Grant_Download_Permissions::grant_download_permissions:
 * when an admin saves a downloadable product with a new set of files, update
 * the permission rows of every past order that already holds a row for the
 * product (or variation) and can be loaded. As the two filters allow, rows
 * for removed files are deleted and rows for added files are inserted where
 * the order has none yet. Orders without such a row get nothing.
 *
 * Everything the handler calls out to is a parameter: the product lookup
 * (with the keys of its downloads), the order lookup, and the two filters
 * that may veto a revocation or a grant.
 */
module GrantDownloadPermissions {
  import opened Wrappers
  import opened Sequences
  import opened DownloadIds
  import opened Permissions

  /** A product as the handler sees it: the keys of get_downloads(), in order. */
  datatype Product = Product(downloadIds: seq<DownloadId>)

  /** An order as the handler sees it: get_id(), passed on to the filters. */
  datatype Order = Order(id: OrderId)

  /**
   * The host framework: wc_get_product, wc_get_order, and the filters
   * ..._remove_access_to_old_file and ..._grant_access_to_new_file, each
   * applied to (download id, target product id, order) with default true.
   */
  datatype Host = Host(
    findProduct: ProductId -> Option<Product>,
    findOrder: OrderId -> Option<Order>,
    removeAccess: (DownloadId, ProductId, Order) -> bool,
    grantAccess: (DownloadId, ProductId, Order) -> bool)

  /** The order loaded for an id has that id, as WooCommerce's order store guarantees. */
  ghost predicate ConsistentOrderIds(host: Host)
  {
    forall o :: host.findOrder(o).Some? ==> host.findOrder(o).value.id == o
  }

  /** `$variation_id ?: $product_id`: the variation when it is set, else the product. */
  function TargetProduct(productId: ProductId, variationId: ProductId): (t: ProductId)
    ensures variationId != 0 ==> t == variationId
    ensures variationId == 0 ==> t == productId
  {
    if variationId != 0 then variationId else productId
  }

  /** What one save asks for: the product whose rows change and the ids to add and remove. */
  datatype Plan = Plan(target: ProductId, added: seq<DownloadId>, removed: seq<DownloadId>)

  /** The plan for a save, or None when the target product cannot be loaded. */
  function PlanFor(host: Host, productId: ProductId, variationId: ProductId,
                   newFileIds: seq<DownloadId>): (p: Option<Plan>)
    ensures p.None? <==> host.findProduct(TargetProduct(productId, variationId)).None?
    ensures p.Some? ==> p.value.target == TargetProduct(productId, variationId)
    ensures p.Some? ==> forall d :: d in p.value.added <==>
      d in newFileIds && d !in host.findProduct(p.value.target).value.downloadIds && !Falsy(d)
    ensures p.Some? ==> forall d :: d in p.value.removed <==>
      d !in newFileIds && d in host.findProduct(p.value.target).value.downloadIds && !Falsy(d)
  {
    var target := TargetProduct(productId, variationId);
    match host.findProduct(target)
    case None => None
    case Some(product) =>
      Some(Plan(target, Added(product.downloadIds, newFileIds), Removed(product.downloadIds, newFileIds)))
  }

  /** The row r is one order's row for a removed id that the remove filter lets go. */
  ghost predicate RevokedFor(host: Host, plan: Plan, order: Order, r: Row)
  {
    && r.order == order.id
    && r.product == plan.target
    && r.download in plan.removed
    && host.removeAccess(r.download, plan.target, order)
  }

  /** The row r is one order's row for an added id that the grant filter allows. */
  ghost predicate GrantedFor(host: Host, plan: Plan, order: Order, r: Row)
  {
    && r.order == order.id
    && r.product == plan.target
    && r.download in plan.added
    && host.grantAccess(r.download, plan.target, order)
  }

  /** The row r is deleted on behalf of the order stored under id o. */
  ghost predicate RevokedBy(host: Host, plan: Plan, o: OrderId, r: Row)
  {
    host.findOrder(o).Some? && RevokedFor(host, plan, host.findOrder(o).value, r)
  }

  /** The row r is granted on behalf of the order stored under id o. */
  ghost predicate GrantedBy(host: Host, plan: Plan, o: OrderId, r: Row)
  {
    host.findOrder(o).Some? && GrantedFor(host, plan, host.findOrder(o).value, r)
  }

  /** How many copies of r remain once the orders in `orders` have been processed. */
  ghost function CountAfter(t: multiset<Row>, host: Host, plan: Plan, orders: set<OrderId>, r: Row): nat
  {
    if exists o :: o in orders && RevokedBy(host, plan, o, r) then 0
    else if (exists o :: o in orders && GrantedBy(host, plan, o, r)) && t[r] == 0 then 1
    else t[r]
  }

  /** How many copies of r the table holds after one save, starting from t. */
  ghost function Reconciled(t: multiset<Row>, host: Host, productId: ProductId, variationId: ProductId,
                            newFileIds: seq<DownloadId>, r: Row): nat
  {
    match PlanFor(host, productId, variationId, newFileIds)
    case None => t[r]
    case Some(plan) =>
      if plan.added == [] && plan.removed == [] then t[r]
      else CountAfter(t, host, plan, OrdersOf(t, plan.target), r)
  }

  /** The ids of the orders the save works on: those loaded from the orders holding a target row. */
  ghost function TouchedOrderIds(t: multiset<Row>, host: Host, target: ProductId): set<OrderId>
  {
    set o | o in OrdersOf(t, target) && host.findOrder(o).Some? :: host.findOrder(o).value.id
  }

  /** Handling one more order o: its revocations, then its grants, extend the processed set by o. */
  lemma ProcessOrderStep(t: multiset<Row>, host: Host, plan: Plan, done: set<OrderId>, o: OrderId,
                         before: multiset<Row>, mid: multiset<Row>, after: multiset<Row>)
    requires forall d :: d in plan.added ==> d !in plan.removed
    requires forall r :: before[r] == CountAfter(t, host, plan, done, r)
    requires forall r :: mid[r] == if RevokedBy(host, plan, o, r) then 0 else before[r]
    requires forall r :: after[r] == if GrantedBy(host, plan, o, r) && mid[r] == 0 then 1 else mid[r]
    ensures forall r :: after[r] == CountAfter(t, host, plan, done + {o}, r)
  {
  }

  /**
   * The deletions for one order: for every removed id that the remove filter
   * lets go, every row (order, target, id) goes.
   */
  method RevokeRemovedIds(table: PermissionsTable, host: Host, plan: Plan, order: Order)
    modifies table
    ensures forall r :: table.rows[r] == if RevokedFor(host, plan, order, r) then 0 else old(table.rows)[r]
  {
    if |plan.removed| > 0 {
      var j := 0;
      while j < |plan.removed|
        invariant 0 <= j <= |plan.removed|
        invariant forall r :: table.rows[r] == (if r.download in plan.removed[..j] && RevokedFor(host, plan, order, r) then 0 else old(table.rows)[r])
      {
        var id := plan.removed[j];
        if host.removeAccess(id, plan.target, order) {
          table.Revoke(order.id, plan.target, id);
        }
        j := j + 1;
      }
      assert plan.removed[..j] == plan.removed;
    }
  }

  /**
   * The grants for one order: for every added id that the grant filter
   * allows and that the order holds no row for, one row (order, target, id).
   */
  method GrantAddedIds(table: PermissionsTable, host: Host, plan: Plan, order: Order)
    modifies table
    ensures forall r :: table.rows[r] == if GrantedFor(host, plan, order, r) && old(table.rows)[r] == 0 then 1 else old(table.rows)[r]
  {
    if |plan.added| > 0 {
      var j := 0;
      while j < |plan.added|
        invariant 0 <= j <= |plan.added|
        invariant forall r :: table.rows[r] == (if r.download in plan.added[..j] && GrantedFor(host, plan, order, r) && old(table.rows)[r] == 0 then 1 else old(table.rows)[r])
      {
        var id := plan.added[j];
        if host.grantAccess(id, plan.target, order) {
          var present := table.HasPermission(order.id, plan.target, id);
          if !present {
            table.Grant(order.id, plan.target, id);
          }
        }
        j := j + 1;
      }
      assert plan.added[..j] == plan.added;
    }
  }

  /**
   * The loop over orders: each order id is looked up, skipped when the lookup
   * fails, and otherwise has its revocations and then its grants applied.
   */
  method ReconcileOrders(table: PermissionsTable, host: Host, plan: Plan, orders: seq<OrderId>)
    requires forall d :: d in plan.added ==> d !in plan.removed
    modifies table
    ensures forall r :: table.rows[r] == CountAfter(old(table.rows), host, plan, Elems(orders), r)
  {
    ghost var t := table.rows;
    ghost var done: set<OrderId> := {};
    var i := 0;
    while i < |orders|
      invariant 0 <= i <= |orders|
      invariant done == Elems(orders[..i])
      invariant forall r :: table.rows[r] == CountAfter(t, host, plan, done, r)
    {
      ghost var before := table.rows;
      var found := host.findOrder(orders[i]);
      if found.Some? {
        RevokeRemovedIds(table, host, plan, found.value);
        ghost var mid := table.rows;
        GrantAddedIds(table, host, plan, found.value);
        ProcessOrderStep(t, host, plan, done, orders[i], before, mid, table.rows);
      } else {
        ProcessOrderStep(t, host, plan, done, orders[i], before, before, before);
      }
      ElemsOfLongerPrefix(orders, i);
      done := done + {orders[i]};
      i := i + 1;
    }
    assert orders[..i] == orders;
  }

  /**
   * The handler. For every order holding a row for the target product it
   * deletes the rows of removed ids the remove filter lets go, then inserts
   * a row for each added id the grant filter allows, unless one is there.
   */
  method GrantDownloadPermissions(table: PermissionsTable, host: Host, productId: ProductId,
                                  variationId: ProductId, newFileIds: seq<DownloadId>)
    modifies table
    ensures forall r :: table.rows[r] == Reconciled(old(table.rows), host, productId, variationId, newFileIds, r)
  {
    var planned := PlanFor(host, productId, variationId, newFileIds);
    if planned.None? {
      return;
    }
    var plan := planned.value;
    if |plan.added| > 0 || |plan.removed| > 0 {
      var orders := table.OrdersWithProduct(plan.target);
      assert Elems(orders) == OrdersOf(table.rows, plan.target) by {
        forall o ensures o in Elems(orders) <==> o in OrdersOf(table.rows, plan.target) {
        }
      }
      ReconcileOrders(table, host, plan, orders);
    }
  }

  // Properties of one save.

  /** A failed product lookup returns early: every row stays as it was. */
  lemma ProductMissingLeavesTable(t: multiset<Row>, host: Host, productId: ProductId, variationId: ProductId,
                                  newFileIds: seq<DownloadId>, r: Row)
    requires host.findProduct(TargetProduct(productId, variationId)).None?
    ensures Reconciled(t, host, productId, variationId, newFileIds, r) == t[r]
  {
  }

  /** A save whose old and new lists hold the same truthy ids runs no query: every row stays. */
  lemma SameIdsLeaveTable(t: multiset<Row>, host: Host, productId: ProductId, variationId: ProductId,
                          newFileIds: seq<DownloadId>, product: Product, r: Row)
    requires host.findProduct(TargetProduct(productId, variationId)) == Some(product)
    requires forall x :: !Falsy(x) ==> (x in product.downloadIds <==> x in newFileIds)
    ensures Reconciled(t, host, productId, variationId, newFileIds, r) == t[r]
  {
  }

  /** Rows for any product other than the target stay as they were. */
  lemma OtherProductsUnchanged(t: multiset<Row>, host: Host, productId: ProductId, variationId: ProductId,
                               newFileIds: seq<DownloadId>, r: Row)
    requires r.product != TargetProduct(productId, variationId)
    ensures Reconciled(t, host, productId, variationId, newFileIds, r) == t[r]
  {
  }

  /** Rows whose id is neither added nor removed stay as they were. */
  lemma OtherIdsUnchanged(t: multiset<Row>, host: Host, productId: ProductId, variationId: ProductId,
                          newFileIds: seq<DownloadId>, plan: Plan, r: Row)
    requires PlanFor(host, productId, variationId, newFileIds) == Some(plan)
    requires r.download !in plan.added && r.download !in plan.removed
    ensures Reconciled(t, host, productId, variationId, newFileIds, r) == t[r]
  {
  }

  /** Rows of an order the save does not work on stay as they were. */
  lemma UntouchedOrdersUnchanged(t: multiset<Row>, host: Host, productId: ProductId, variationId: ProductId,
                                 newFileIds: seq<DownloadId>, r: Row)
    requires r.order !in TouchedOrderIds(t, host, TargetProduct(productId, variationId))
    ensures Reconciled(t, host, productId, variationId, newFileIds, r) == t[r]
  {
  }

  /**
   * The save works only on orders that already held a row for the target
   * product and could be loaded: GROUP BY lists each once, a failed lookup
   * is skipped.
   */
  lemma TouchedOrdersHeldRows(t: multiset<Row>, host: Host, target: ProductId)
    requires ConsistentOrderIds(host)
    ensures forall o :: o in TouchedOrderIds(t, host, target) <==> o in OrdersOf(t, target) && host.findOrder(o).Some?
  {
  }

  /** The rows of an order that cannot be loaded stay as they were. */
  lemma MissingOrderUnchanged(t: multiset<Row>, host: Host, productId: ProductId, variationId: ProductId,
                              newFileIds: seq<DownloadId>, r: Row)
    requires ConsistentOrderIds(host)
    requires host.findOrder(r.order).None?
    ensures Reconciled(t, host, productId, variationId, newFileIds, r) == t[r]
  {
  }

  /**
   * For an order that held a row for the target and loads, and a removed id
   * the remove filter lets go, no row (order, target, id) is left.
   */
  lemma RevokedRowsGone(t: multiset<Row>, host: Host, productId: ProductId, variationId: ProductId,
                        newFileIds: seq<DownloadId>, plan: Plan, o: OrderId, d: DownloadId)
    requires PlanFor(host, productId, variationId, newFileIds) == Some(plan)
    requires o in OrdersOf(t, plan.target) && host.findOrder(o).Some?
    requires d in plan.removed && host.removeAccess(d, plan.target, host.findOrder(o).value)
    ensures Reconciled(t, host, productId, variationId, newFileIds, Row(host.findOrder(o).value.id, plan.target, d)) == 0
  {
  }

  /**
   * For an order that held a row for the target and loads, and an added id
   * the grant filter allows, a row (order, target, id) exists afterwards:
   * the one inserted, or the ones that were there, which are not doubled.
   */
  lemma GrantedRowsPresent(t: multiset<Row>, host: Host, productId: ProductId, variationId: ProductId,
                           newFileIds: seq<DownloadId>, plan: Plan, o: OrderId, d: DownloadId)
    requires PlanFor(host, productId, variationId, newFileIds) == Some(plan)
    requires o in OrdersOf(t, plan.target) && host.findOrder(o).Some?
    requires d in plan.added && host.grantAccess(d, plan.target, host.findOrder(o).value)
    ensures var r := Row(host.findOrder(o).value.id, plan.target, d);
      Reconciled(t, host, productId, variationId, newFileIds, r) == if t[r] == 0 then 1 else t[r]
  {
  }

  /** The save never doubles a key: a count grows only from none to one. */
  lemma NeverDuplicates(t: multiset<Row>, host: Host, productId: ProductId, variationId: ProductId,
                        newFileIds: seq<DownloadId>, r: Row)
    ensures Reconciled(t, host, productId, variationId, newFileIds, r) > t[r] ==>
      t[r] == 0 && Reconciled(t, host, productId, variationId, newFileIds, r) == 1
  {
  }

  /** The orders holding a target row after a save held one before it. */
  lemma SaveAddsNoOrders(t0: multiset<Row>, t1: multiset<Row>, host: Host, plan: Plan)
    requires ConsistentOrderIds(host)
    requires forall r :: t1[r] == CountAfter(t0, host, plan, OrdersOf(t0, plan.target), r)
    ensures OrdersOf(t1, plan.target) <= OrdersOf(t0, plan.target)
  {
  }

  /** Saving a second time with the same inputs and deterministic filters changes nothing. */
  lemma SaveTwiceIsSaveOnce(t0: multiset<Row>, t1: multiset<Row>, host: Host, productId: ProductId,
                            variationId: ProductId, newFileIds: seq<DownloadId>)
    requires ConsistentOrderIds(host)
    requires forall r :: t1[r] == Reconciled(t0, host, productId, variationId, newFileIds, r)
    ensures forall r :: Reconciled(t1, host, productId, variationId, newFileIds, r) == t1[r]
  {
  }
}
