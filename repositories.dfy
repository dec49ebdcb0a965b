/** The order store behind the controller. Its implementation sits on a
    database layer that is not part of this model, so whether a create
    succeeds is an oracle: a fixed function of the rows already stored and
    the row offered. */
module Repositories {
  import opened Models

  class OrderRepository {
    /** Decides the outcome of a create, given the stored rows and the new row. */
    const accepts: (seq<OrderEntity>, OrderEntity) -> bool
    /** The rows the store holds, oldest first. */
    var orders: seq<OrderEntity>
    /** Every row handed to CreateAsync through this object, accepted or
        not, oldest first. It records calls only and is not stored anywhere. */
    ghost var requests: seq<OrderEntity>

    /** A store over a database that already holds the rows `stored`. */
    constructor (accepts: (seq<OrderEntity>, OrderEntity) -> bool, stored: seq<OrderEntity>)
      ensures this.accepts == accepts && orders == stored && requests == []
    {
      this.accepts := accepts;
      orders := stored;
      requests := [];
    }

    /** Offers one row to the store; true when the store took it. */
    method CreateAsync(entity: OrderEntity) returns (created: bool)
      modifies this
      ensures created == accepts(old(orders), entity)
      ensures requests == old(requests) + [entity]
      ensures orders == if created then old(orders) + [entity] else old(orders)
    {
      created := accepts(orders, entity);
      requests := requests + [entity];
      if created {
        orders := orders + [entity];
      }
    }
  }
}
