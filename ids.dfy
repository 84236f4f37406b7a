/** Identifiers of stored documents, compared by equality. */
module Ids {
  type UserId = nat
  type ProjectId = nat
}
