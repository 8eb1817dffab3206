/** Where a value belongs. */
module Addresses {
  /** One channel of one device. */
  datatype Address = Address(device: string, number: nat)
}
