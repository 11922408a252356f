/** The customers of the routing problem, as the graph keys them. */
module Customers {

  /** A customer, identified by its name. */
  type CustomerId = string
}
