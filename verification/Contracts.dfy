/** The vocabulary every part of the runner shares (internal/contracts/contracts.go). */
module Contracts {
  datatype TaskStatus = Open | InProgress | Blocked | Closed | Failed
}
