/**
 * The download-permissions table: one row per (order, product, download id)
 * grant. Only the key columns are modelled. A SQL table may hold the same
 * key more than once, so the rows form a multiset.
 */
module Permissions {
  import opened Sequences
  import opened DownloadIds

  type OrderId = int
  type ProductId = int

  /** The key columns of one permission row. */
  datatype Row = Row(order: OrderId, product: ProductId, download: DownloadId)

  /** The orders holding at least one permission row for the product. */
  ghost function OrdersOf(rows: multiset<Row>, product: ProductId): set<OrderId>
  {
    set r | r in rows && r.product == product :: r.order
  }

  class PermissionsTable {
    var rows: multiset<Row>

    constructor (initial: multiset<Row>)
      ensures rows == initial
    {
      rows := initial;
    }

    /**
     * SELECT order_id ... WHERE product_id = product GROUP BY order_id: every
     * order holding a row for the product, each once, in an order the
     * database chooses.
     */
    method OrdersWithProduct(product: ProductId) returns (orders: seq<OrderId>)
      ensures NoDuplicates(orders)
      ensures forall o :: o in orders <==> o in OrdersOf(rows, product)
    {
      orders := [];
      var pending := set r | r in rows;
      while pending != {}
        invariant pending <= set r | r in rows
        invariant NoDuplicates(orders)
        invariant forall o :: o in orders ==> o in OrdersOf(rows, product)
        invariant forall r :: r in rows && r.product == product && r !in pending ==> r.order in orders
        decreases pending
      {
        var r :| r in pending;
        if r.product == product && r.order !in orders {
          orders := orders + [r.order];
        }
        pending := pending - {r};
      }
    }

    /** SELECT 1 ... WHERE order_id, product_id, download_id: is there such a row? */
    method HasPermission(order: OrderId, product: ProductId, download: DownloadId) returns (found: bool)
      ensures found <==> Row(order, product, download) in rows
    {
      found := Row(order, product, download) in rows;
    }

    /** DELETE ... WHERE order_id, product_id, download_id: every copy of the key goes. */
    method Revoke(order: OrderId, product: ProductId, download: DownloadId)
      modifies this
      ensures rows == old(rows)[Row(order, product, download) := 0]
    {
      rows := rows[Row(order, product, download) := 0];
    }

    /** wc_downloadable_file_permission: inserts one row, without looking for an existing one. */
    method Grant(order: OrderId, product: ProductId, download: DownloadId)
      modifies this
      ensures rows == old(rows) + multiset{Row(order, product, download)}
    {
      rows := rows + multiset{Row(order, product, download)};
    }
  }
}
