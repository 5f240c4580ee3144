/** Who is calling: the claims an authenticated request carries, and the two roles. */
module Identity {

  const RoleAdmin: string := "admin"
  const RoleDriver: string := "driver"

  /** The user id and role carried by a caller's token. */
  datatype Claims = Claims(userId: int, role: string)
}
