/** The user table of the database context, as far as the controller uses
    it: lookup by id, adding a row, and committing. */
module Database {
  import opened Models

  class DatabaseContext {
    /** The tracked user rows by id. */
    var users: map<int, User>
    /** The id the store assigns to the next added row. */
    var nextId: int
    /** How many times the changes have been committed. */
    var saves: nat

    /** Every row is stored under its own id, below `nextId`, and every
        creator reference points at a row of the table. */
    ghost predicate Valid()
      reads this, users.Values
    {
      && (forall id :: id in users ==> users[id].id == id && id < nextId)
      && (forall u :: u in users.Values && u.createdBy != null ==> u.createdBy in users.Values)
    }

    constructor ()
      ensures Valid() && users == map[] && saves == 0
    {
      users, nextId, saves := map[], 1, 0;
    }

    /** `Users.Add` followed by the id assignment of the commit: the row
        gets the next id and nothing else in the table changes. */
    method Add(u: User)
      requires Valid()
      requires forall id :: id in users ==> users[id] != u
      requires u.createdBy == null || u.createdBy in users.Values
      modifies this, u
      ensures Valid()
      ensures u.Record() == old(u.Record()).(id := old(nextId))
      ensures u.createdBy == old(u.createdBy)
      ensures old(nextId) !in old(users) && users == old(users)[old(nextId) := u]
      ensures nextId > old(nextId) && saves == old(saves)
    {
      ghost var before := users;
      u.id := nextId;
      users := users[nextId := u];
      nextId := nextId + 1;
      forall k | k in before ensures before[k] in users.Values {
        assert users[k] == before[k];
      }
    }

    /** `Save`: commits the tracked changes. */
    method Save()
      modifies this`saves
      ensures saves == old(saves) + 1
    {
      saves := saves + 1;
    }
  }
}
