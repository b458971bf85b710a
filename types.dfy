/** Identities, stored rows and the error shape shared by the server and the client store. */
module Types {
  /** User ids are the uuids the server stores in the users table. */
  type UserId = string
  /** Connection handles issued by the socket layer. */
  type SocketId = string

  datatype Option<T> = None | Some(value: T)

  /** An HTTP error response: status code and the JSON `message` text. */
  datatype HttpError = HttpError(status: nat, message: string)

  datatype Result<T> = Ok(value: T) | Err(error: HttpError)

  /** The `message` of every 500 answer to a failed database call. */
  const DatabaseError := "Databázová chyba"

  /** A row of the users table; `passwordHash` is whatever the hashing oracle produced. */
  datatype User = User(id: UserId, name: string, email: string, passwordHash: string, bio: Option<string>)

  /** The primary key and the UNIQUE email column of the users table. */
  function IdOf(u: User): UserId { u.id }
  function EmailOf(u: User): string { u.email }

  /** A row of the friends table: a directed edge owner -> friend. */
  datatype FriendLink = FriendLink(id: string, owner: UserId, friend: UserId)

  /** A row of the messages table; timestamps are abstract clock readings. */
  datatype Message = Message(id: string, senderId: UserId, recipientId: UserId, content: string, timestamp: nat)

  /** JavaScript truthiness of an optional string field of a request: present and not empty. */
  predicate Truthy(f: Option<string>)
  {
    f.Some? && f.value != ""
  }
}
