/** The values of the `UserRole` enumeration generated from the database schema. */
module Roles {

  const ADMIN: string := "ADMIN"
  const MANAGER: string := "MANAGER"
  const CLIENT: string := "CLIENT"
  const DELIVERY: string := "DELIVERY"

  /** `Object.values(UserRole)` */
  const VALID_ROLES: seq<string> := [ADMIN, MANAGER, CLIENT, DELIVERY]
}
