/**
 * The relational store the authentication core reads and writes, reduced to
 * keyed tables: users, password hashes, sessions, verifications and
 * provider connections. The unique indexes of the schema become the keys of
 * the maps (id, (target, type), (providerName, providerId)) and, for the
 * user's username and email, part of `Valid()`.
 */
module Database {
  import opened Http

  type UserId = string
  type SessionId = string

  /**
   * A bcrypt hash, idealised: no salt and no cost factor, but the two facts
   * the core relies on, `Compare(p, HashPassword(p))` and no collisions.
   */
  datatype Hash = Bcrypt(digestOf: string)

  function HashPassword(password: string): Hash {
    Bcrypt(password)
  }

  predicate Compare(candidate: string, stored: Hash) {
    stored.digestOf == candidate
  }

  lemma CompareMatchesOnlyItsPassword(candidate: string, password: string)
    ensures Compare(candidate, HashPassword(password)) <==> candidate == password
  {
  }

  datatype User = User(email: string, username: string, name: Option<string>, roles: set<string>, image: Option<string>)

  datatype SessionRow = SessionRow(userId: UserId, expirationDate: int)

  /** The composite unique key of a verification row. */
  datatype VerificationKey = VerificationKey(target: string, kind: string)

  /** What `generateTOTP` returns besides the code and what `verifyTOTP` needs back. */
  datatype TotpConfig = TotpConfig(algorithm: string, secret: string, period: int, digits: int, charSet: string)

  /** A verification row; a missing `expiresAt` never expires. */
  datatype Verification = Verification(config: TotpConfig, expiresAt: Option<int>)

  datatype ConnectionKey = ConnectionKey(providerName: string, providerId: string)

  ghost predicate UniqueUsernames(users: map<UserId, User>) {
    forall a, b :: a in users && b in users && users[a].username == users[b].username ==> a == b
  }

  ghost predicate UniqueEmails(users: map<UserId, User>) {
    forall a, b :: a in users && b in users && users[a].email == users[b].email ==> a == b
  }

  class Db {
    var users: map<UserId, User>
    var passwords: map<UserId, Hash>
    var sessions: map<SessionId, SessionRow>
    var verifications: map<VerificationKey, Verification>
    var connections: map<ConnectionKey, UserId>

    /** The schema's constraints: unique username and email, and owned rows point at a user. */
    ghost predicate Valid()
      reads this
    {
      && UniqueUsernames(users)
      && UniqueEmails(users)
      && passwords.Keys <= users.Keys
      && (forall c :: c in connections ==> connections[c] in users)
    }

    constructor ()
      ensures Valid()
      ensures users == map[] && passwords == map[] && sessions == map[]
      ensures verifications == map[] && connections == map[]
    {
      users, passwords, sessions, verifications, connections := map[], map[], map[], map[], map[];
    }
  }

  /** `findUnique({ where: { username } })`. */
  function UserByUsername(users: map<UserId, User>, username: string): (r: Option<UserId>)
    requires UniqueUsernames(users)
    ensures r.Some? ==> r.value in users && users[r.value].username == username
    ensures r.None? ==> forall id :: id in users ==> users[id].username != username
  {
    if exists id :: id in users && users[id].username == username then
      var id :| id in users && users[id].username == username; Some(id)
    else None
  }

  /** `findUnique({ where: { email } })`. */
  function UserByEmail(users: map<UserId, User>, email: string): (r: Option<UserId>)
    requires UniqueEmails(users)
    ensures r.Some? ==> r.value in users && users[r.value].email == email
    ensures r.None? ==> forall id :: id in users ==> users[id].email != email
  {
    if exists id :: id in users && users[id].email == email then
      var id :| id in users && users[id].email == email; Some(id)
    else None
  }

  /** An upsert by key: afterwards the key holds exactly the new row, all other keys are untouched. */
  function Upsert<K, V>(table: map<K, V>, key: K, row: V): (r: map<K, V>)
    ensures key in r && r[key] == row
    ensures r.Keys == table.Keys + {key}
    ensures forall k :: k in table && k != key ==> r[k] == table[k]
  {
    table[key := row]
  }

  /** A delete by key; deleting an absent key changes nothing. */
  function DeleteKey<K, V>(table: map<K, V>, key: K): (r: map<K, V>)
    ensures key !in r
    ensures r.Keys == table.Keys - {key}
    ensures forall k :: k in r ==> r[k] == table[k]
  {
    table - {key}
  }
}
