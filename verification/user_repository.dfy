/** The user table of `UserRepository`: three derived equality queries, and
    `UserRepositoryImpl`, whose mutators look up a managed `User` entity by
    id and assign its fields in place.

    The table is viewed abstractly as id to `UserRow`; `UpdateUsernameOutcome`
    and `UpdateOutcome` give the specification of the two find-then-mutate
    operations on that view, and the repository's methods, which work on the
    entity objects, are proved to agree with them. */
module UserDb {
  import opened Kotlin
  import opened Tables

  /** The fields of a user besides its id. */
  datatype UserRow = UserRow(username: string, mail: string, address: string)

  /** The users table: id to row. */
  type UserTable = map<int, UserRow>

  // ---------------------------------------------------------------------
  // UserRepository's derived queries.
  // ---------------------------------------------------------------------

  /** `findAllByUsername`: exactly the users with that username. */
  function FindAllByUsername(table: UserTable, username: string): (r: UserTable)
    ensures forall id | id in r :: id in table && r[id] == table[id]
    ensures forall id | id in table :: id in r <==> table[id].username == username
  {
    Where(table, (u: UserRow) => u.username == username)
  }

  /** `findAllByMail`: exactly the users with that mail. */
  function FindAllByMail(table: UserTable, mail: string): (r: UserTable)
    ensures forall id | id in r :: id in table && r[id] == table[id]
    ensures forall id | id in table :: id in r <==> table[id].mail == mail
  {
    Where(table, (u: UserRow) => u.mail == mail)
  }

  /** `findAllByAddress`: exactly the users with that address. */
  function FindAllByAddress(table: UserTable, address: string): (r: UserTable)
    ensures forall id | id in r :: id in table && r[id] == table[id]
    ensures forall id | id in table :: id in r <==> table[id].address == address
  {
    Where(table, (u: UserRow) => u.address == address)
  }

  // ---------------------------------------------------------------------
  // The mutators on the abstract table.
  // ---------------------------------------------------------------------

  /** What a mutator returns, and the table after it. */
  datatype Change = Change(updated: bool, after: UserTable)

  /** `updateUsername`: false and no change when no user has the id;
      otherwise true, and that user's username is the new one while its mail,
      its address, its id and every other user stay as they were. */
  function UpdateUsernameOutcome(table: UserTable, userId: int, username: string): (r: Change)
    ensures r.updated <==> userId in table
    ensures !r.updated ==> r.after == table
    ensures r.after.Keys == table.Keys
    ensures r.updated ==>
      && r.after[userId].username == username
      && r.after[userId].mail == table[userId].mail
      && r.after[userId].address == table[userId].address
    ensures forall id | id in table && id != userId :: r.after[id] == table[id]
  {
    if userId !in table then Change(false, table)
    else Change(true, table[userId := table[userId].(username := username)])
  }

  /** `update`: false and no change when no user has the id; otherwise true,
      and that user's username, mail and address are all replaced while its
      id and every other user stay as they were. */
  function UpdateOutcome(table: UserTable, userId: int, username: string, mail: string,
                         address: string): (r: Change)
    ensures r.updated <==> userId in table
    ensures !r.updated ==> r.after == table
    ensures r.after.Keys == table.Keys
    ensures r.updated ==> r.after[userId] == UserRow(username, mail, address)
    ensures forall id | id in table && id != userId :: r.after[id] == table[id]
  {
    if userId !in table then Change(false, table)
    else Change(true, table[userId := UserRow(username, mail, address)])
  }

  /** Updating a user with the values it already has changes nothing. */
  lemma UpdateWithCurrentValuesIsNoOp(table: UserTable, userId: int)
    requires userId in table
    ensures var row := table[userId];
      UpdateOutcome(table, userId, row.username, row.mail, row.address) == Change(true, table)
  {
  }

  /** Applying the same `update` twice leaves the table as applying it once. */
  lemma UpdateIsIdempotent(table: UserTable, userId: int, username: string, mail: string,
                           address: string)
    ensures var once := UpdateOutcome(table, userId, username, mail, address);
      UpdateOutcome(once.after, userId, username, mail, address) == once
  {
  }

  /** `update` subsumes `updateUsername`: renaming with the user's current
      mail and address gives the same result. */
  lemma UpdateUsernameIsPartialUpdate(table: UserTable, userId: int, username: string)
    requires userId in table
    ensures UpdateUsernameOutcome(table, userId, username)
         == UpdateOutcome(table, userId, username, table[userId].mail, table[userId].address)
  {
  }

  // ---------------------------------------------------------------------
  // Entities and the repository.
  // ---------------------------------------------------------------------

  /** The `User` entity: null id until persisted, then the generated id. */
  class User {
    var id: Option<int>
    var username: string
    var mail: string
    var address: string

    constructor(username: string, mail: string, address: string)
      ensures id.None? && this.username == username && this.mail == mail && this.address == address
    {
      id := None;
      this.username := username;
      this.mail := mail;
      this.address := address;
    }
  }

  class UserRepositoryImpl {
    /** The persistence context: the managed entity of each stored user. */
    var managed: map<int, User>

    /** Each managed entity carries the id it is stored under, so no entity
        is stored under two ids. */
    ghost predicate Valid()
      reads this, managed.Values
    {
      forall id | id in managed :: managed[id].id == Some(id)
    }

    /** The table the managed entities hold. */
    ghost function Table(): UserTable
      reads this, managed.Values
    {
      map id | id in managed :: UserRow(managed[id].username, managed[id].mail, managed[id].address)
    }

    /** The repository over the entities the injected `EntityManager`
        already manages, each under its own id. */
    constructor(managed: map<int, User>)
      requires forall id | id in managed :: managed[id].id == Some(id)
      ensures Valid() && this.managed == managed
    {
      this.managed := managed;
    }

    /** After the entity under `userId` was given the fields of `row`, and no
        other entity changed, the table is `before` with that one row replaced. */
    lemma TableAfterWrite(before: UserTable, userId: int, row: UserRow)
      requires userId in managed && before.Keys == managed.Keys
      requires forall id | id in managed && id != userId ::
        before[id] == UserRow(managed[id].username, managed[id].mail, managed[id].address)
      requires row == UserRow(managed[userId].username, managed[userId].mail, managed[userId].address)
      ensures Table() == before[userId := row]
    {
    }

    /** `createUser`: persists a new entity; `generatedId` is the identity the
        database assigns to it on persist, and is what comes back. */
    method CreateUser(username: string, mail: string, address: string, generatedId: int)
      returns (id: int)
      requires Valid() && generatedId !in managed
      modifies this
      ensures Valid()
      ensures id == generatedId && id !in old(Table())
      ensures Table() == old(Table())[id := UserRow(username, mail, address)]
    {
      var entity := new User(username, mail, address);
      entity.id := Some(generatedId);
      managed := managed[generatedId := entity];
      id := entity.id.value;
    }

    /** `updateUsername`. */
    method UpdateUsername(userId: int, username: string) returns (updated: bool)
      requires Valid()
      modifies managed.Values
      ensures Valid()
      ensures Change(updated, Table()) == UpdateUsernameOutcome(old(Table()), userId, username)
    {
      if userId !in managed {
        return false;
      }
      var user := managed[userId];
      ghost var before := Table();
      ghost var row := before[userId].(username := username);
      user.username := username;
      TableAfterWrite(before, userId, row);
      return true;
    }

    /** `update`. */
    method Update(userId: int, username: string, mail: string, address: string)
      returns (updated: bool)
      requires Valid()
      modifies managed.Values
      ensures Valid()
      ensures Change(updated, Table()) == UpdateOutcome(old(Table()), userId, username, mail, address)
    {
      if userId !in managed {
        return false;
      }
      var user := managed[userId];
      ghost var before := Table();
      user.username := username;
      user.mail := mail;
      user.address := address;
      TableAfterWrite(before, userId, UserRow(username, mail, address));
      return true;
    }
  }
}
