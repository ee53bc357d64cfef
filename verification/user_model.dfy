/** The `User` document: its fields and the schema's constraints. */
module UserModel {

  import opened Text

  type UserId = string
  type PlaceId = string

  /** `password` holds the digest the hashing plugin stores, never the plain text. */
  datatype User = User(name: string, email: string, password: string, image: string, places: seq<PlaceId>)

  /** A user as `getusers` returns it: every field except the password. */
  datatype PublicUser = PublicUser(name: string, email: string, image: string, places: seq<PlaceId>)

  const PasswordMinLength: nat := 6

  /** Schema validation, which runs on the plain values before the hashing
      hook: the four string fields are required (an empty string fails
      `required`) and the password is at least six long, measured the way
      JavaScript measures strings. */
  predicate SchemaValid(name: string, email: string, plainPassword: string, image: string) {
    && name != ""
    && email != ""
    && plainPassword != ""
    && image != ""
    && Utf16Length(plainPassword) >= PasswordMinLength
  }

  /** With the other fields present, a password passes exactly when it has at
      least six UTF-16 code units: three emoji are enough, five letters are not. */
  lemma PasswordLengthInCodeUnits(name: string, email: string, password: string, image: string)
    requires name != "" && email != "" && image != ""
    ensures SchemaValid(name, email, password, image) <==> Utf16Length(password) >= PasswordMinLength
    ensures SchemaValid(name, email, "\U{1F600}\U{1F600}\U{1F600}", image)
    ensures !SchemaValid(name, email, "abcde", image)
  {
  }

  /** `unique: true` on `email`, enforced by the unique-validator plugin. */
  ghost predicate UniqueEmails(users: map<UserId, User>) {
    forall a, b | a in users && b in users && a != b :: users[a].email != users[b].email
  }

  /** Some user already has this email. */
  predicate EmailTaken(users: map<UserId, User>, email: string) {
    exists id | id in users :: users[id].email == email
  }

  /** `find({}, '-password')` for one document. */
  function Public(u: User): (p: PublicUser)
    ensures p.name == u.name && p.email == u.email && p.image == u.image && p.places == u.places
  {
    PublicUser(u.name, u.email, u.image, u.places)
  }

  /** Adding a user whose email nobody has keeps emails unique. */
  lemma AddingFreshEmailKeepsUnique(users: map<UserId, User>, id: UserId, u: User)
    requires UniqueEmails(users) && !EmailTaken(users, u.email)
    ensures UniqueEmails(users[id := u])
  {
  }
}
