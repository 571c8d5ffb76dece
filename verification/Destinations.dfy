/** The hosts a proxy forwards to. */
module Destinations {
  type Destination = string
}
