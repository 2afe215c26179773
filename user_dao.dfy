/** The Room DAO of the `users` table. */
module UserDaos {
  import opened Wrappers
  import opened Tables
  import opened UserEntities

  function UserId(e: UserEntity): string { e.id }

  class UserDao {
    /** The table: rows by primary key `id`. */
    var rows: map<string, UserEntity>

    ghost predicate Valid()
      reads this
    {
      Keyed(rows, UserId)
    }

    constructor()
      ensures Valid() && rows == map[]
    {
      rows := map[];
    }

    /** `insertUser`: REPLACE on the id; other users stay. */
    method InsertUser(user: UserEntity)
      requires Valid()
      modifies this
      ensures Valid()
      ensures rows == old(rows)[user.id := user]
    {
      rows := rows[user.id := user];
    }

    /** `updateUser`: rewrites the row with that id, and does nothing when there is none. */
    method UpdateUser(user: UserEntity)
      requires Valid()
      modifies this
      ensures Valid()
      ensures rows == if user.id in old(rows) then old(rows)[user.id := user] else old(rows)
    {
      if user.id in rows {
        rows := rows[user.id := user];
      }
    }

    /** `getUserById`. */
    method GetUserById(userId: string) returns (r: Option<UserEntity>)
      requires Valid()
      ensures r.Some? <==> userId in rows
      ensures r.Some? ==> r.value == rows[userId] && r.value.id == userId
    {
      r := if userId in rows then Some(rows[userId]) else None;
    }

    /** `getAllUsers`: every row once; the query has no ORDER BY, so the order is open. */
    method GetAllUsers() returns (r: seq<UserEntity>)
      requires Valid()
      ensures ListsRows(r, rows, UserId)
    {
      r := RowsInAnyOrder(rows, UserId);
    }

    /** `deleteUser`: removes the row with that id only. */
    method DeleteUser(userId: string)
      requires Valid()
      modifies this
      ensures Valid()
      ensures rows == old(rows) - {userId}
    {
      rows := rows - {userId};
    }

    /** `deleteAllUsers`. */
    method DeleteAllUsers()
      modifies this
      ensures Valid() && rows == map[]
    {
      rows := map[];
    }

    /** `clearAllUsers`: the same `DELETE FROM users`. */
    method ClearAllUsers()
      modifies this
      ensures Valid() && rows == map[]
    {
      rows := map[];
    }
  }
}
