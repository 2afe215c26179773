/**
 * The profile repository: emit the first cached user, then fetch the
 * profile and REPLACE its row, emitting the row re-read by id.
 */
module UserRepositories {
  import opened Wrappers
  import opened Tables
  import opened Models
  import opened UserEntities
  import opened UserDaos

  class UserRepository {
    const userDao: UserDao

    constructor(userDao: UserDao)
      ensures this.userDao == userDao
    {
      this.userDao := userDao;
    }

    /**
     * `getCurrentUserProfile()`; `reply` is what
     * `SpotifyUserService.fetchUserProfile` gives and `now` the clock.
     */
    method GetCurrentUserProfile(reply: ServiceResult<SpotifyUserProfile>, now: int)
      returns (emitted: seq<Option<UserEntity>>)
      requires userDao.Valid()
      modifies userDao
      ensures userDao.Valid()
      ensures 1 <= |emitted| <= 2
      // a cached user, if any, is some row of the table and is emitted first
      ensures old(userDao.rows) != map[] ==>
        emitted[0].Some? && emitted[0].value.id in old(userDao.rows) && old(userDao.rows)[emitted[0].value.id] == emitted[0].value
      // a fetched profile replaces only its own row, and is emitted last
      ensures reply.Returned? && reply.value.Some? ==>
        var entity := FromSpotifyUserProfile(reply.value.value, now);
        && userDao.rows == old(userDao.rows)[entity.id := entity]
        && emitted[|emitted| - 1] == Some(entity)
        && |emitted| == (if old(userDao.rows) == map[] then 1 else 2)
      // otherwise the table is unchanged and null is emitted only without a cached user
      ensures !(reply.Returned? && reply.value.Some?) ==>
        && userDao.rows == old(userDao.rows)
        && |emitted| == 1
        && (old(userDao.rows) == map[] ==> emitted == [None])
    {
      var users := userDao.GetAllUsers();
      ListsEmpty(users, userDao.rows, UserId);
      var cachedUser: Option<UserEntity> := if users == [] then None else Some(users[0]);
      emitted := [];
      if cachedUser.Some? {
        emitted := emitted + [cachedUser];
      }
      if reply.Returned? && reply.value.Some? {
        var userEntity := FromSpotifyUserProfile(reply.value.value, now);
        userDao.InsertUser(userEntity);
        var updatedUser := userDao.GetUserById(userEntity.id);
        emitted := emitted + [updatedUser];
      } else if cachedUser.None? {
        emitted := emitted + [None];
      }
    }

    /** `clearUserData`. */
    method ClearUserData()
      modifies userDao
      ensures userDao.Valid() && userDao.rows == map[]
    {
      userDao.ClearAllUsers();
    }
  }
}
