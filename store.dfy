/** The backend's persisted state: the `users`, `accounts` and `transfers`
    tables the Spring services read and write through their repositories.
    Rows are the entities the API serializes (Account, Transfer) plus the
    user row of User.java. */
module Store {
  import opened Domain

  /** A `users` row; `password` holds what the encoder produced. */
  datatype User = User(
    id: int, email: string, password: string, firstName: string, lastName: string,
    country: string, phoneNumber: string, profilePhoto: string, idNumber: string, idPhoto: string)

  /** How a service call ends: with the saved value, or with a
      `RuntimeException` carrying `message`. */
  datatype Completion<T> = Saved(value: T) | Thrown(message: string)

  predicate HasEmail(users: seq<User>, email: string) {
    exists u :: u in users && u.email == email
  }

  predicate UniqueEmails(users: seq<User>) {
    forall i, j :: 0 <= i < j < |users| ==> users[i].email != users[j].email
  }

  class Database {
    var users: seq<User>
    var accounts: seq<Account>
    var transfers: seq<Transfer>

    /** `register` refuses a taken email, so emails stay unique. */
    ghost predicate Valid()
      reads this
    {
      UniqueEmails(users)
    }

    constructor ()
      ensures Valid() && users == [] && accounts == [] && transfers == []
    {
      users := [];
      accounts := [];
      transfers := [];
    }
  }
}
