/** The user record and its public projection. Identifiers and instants are supplied by the caller
    (they come from uuid.New and time.Now). */
module UserModel {

  datatype User = User(id: string, phone: string, registeredAt: int, createdAt: int, updatedAt: int)

  /** The public view of a user: no internal timestamps beyond the registration instant. */
  datatype UserResponse = UserResponse(id: string, phone: string, registeredAt: int)

  /** NewUser: a fresh identifier and one instant used for all three timestamps. */
  function NewUser(phone: string, id: string, now: int): User {
    User(id, phone, now, now, now)
  }

  /** User.ToResponse */
  function ToResponse(u: User): UserResponse {
    UserResponse(u.id, u.phone, u.registeredAt)
  }

  /** A new user carries the given phone and identifier, and its registration, creation and
      update instants are one and the same. */
  lemma NewUserFields(phone: string, id: string, now: int)
    ensures NewUser(phone, id, now).phone == phone && NewUser(phone, id, now).id == id
    ensures NewUser(phone, id, now).registeredAt == NewUser(phone, id, now).createdAt
         == NewUser(phone, id, now).updatedAt == now
  {
  }

  /** The projection copies identifier, phone and registration instant unchanged. */
  lemma ToResponseCopies(u: User)
    ensures ToResponse(u).id == u.id && ToResponse(u).phone == u.phone
    ensures ToResponse(u).registeredAt == u.registeredAt
  {
  }

  /** Projecting a newly created user shows its phone and its creation instant. */
  lemma NewUserResponse(phone: string, id: string, now: int)
    ensures ToResponse(NewUser(phone, id, now)) == UserResponse(id, phone, now)
  {
  }
}
