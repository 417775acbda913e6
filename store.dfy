/**
 * The database, as the routes see it: one sequence of rows per table, in the order the rows
 * were created. The routes read it through queries modelled as filters and change it by
 * creating a row at the end or updating a row in place.
 */
module Store {
  import opened Common
  import opened Domain

  /**
   * A `DateTime` column takes a date given as a string only when the database reads it as a
   * date and time (`storable`, an ISO-8601 date-time); an absent date is stored as null.
   */
  predicate DateStorable(d: Option<string>, storable: string -> bool) {
    d.None? || storable(d.value)
  }

  /** A foreign key to `User` holds when it is absent or names a user. */
  predicate UserKnown(users: seq<User>, userId: Option<string>) {
    userId.None? || exists i :: 0 <= i < |users| && users[i].id == userId.value
  }

  class Db {
    var users: seq<User>
    var projects: seq<Project>
    var tasks: seq<Task>
    var transactions: seq<Transaction>
    var invoices: seq<Invoice>
    var schedules: seq<ReportSchedule>
    var logs: seq<ActivityLog>

    constructor ()
      ensures users == [] && projects == [] && tasks == [] && transactions == []
      ensures invoices == [] && schedules == [] && logs == []
    {
      users, projects, tasks, transactions := [], [], [], [];
      invoices, schedules, logs := [], [], [];
    }
  }
}
