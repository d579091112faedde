/** What several parts share: an optional value, and the constants of src/include/common.h. */
module Common {

  datatype Option<+T> = None | Some(value: T)

  const DISTRICTS: nat := 10
  const CUSTOMERS: nat := 3000
  const ITEMS: nat := 100000
  const ORDERS: nat := 3000
  const NEW_ORDERS: nat := 900

  /** The types of transactions that have counters. */
  const TRANSACTIONS: nat := 5

  /** Orders whose index, counted from 0, is below this are generated with a carrier. */
  const CARRIED: nat := 2101
}
