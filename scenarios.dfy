/** Concrete runs of the store that exhibit behaviour of InsertUserCredentials
    and of the secret operations on one small state. */
module Scenarios {
  import opened Wrappers
  import opened Dal

  /** One client, no users; the account ("fitbit", "A1B2C3"). */
  const Account := UserCredentials("fitbit", "A1B2C3", "AC3$$T0K3N;R3FR3$HT0K3N;")
  const NoFaults := TxFaults(None, None, None, None, None)

  /** As written, a commit that fails after three successful inserts is
      reported as success with a fresh id, yet CheckUser finds no user. */
  method CommitFailureIsSwallowed() returns (userId: int, err: Option<Error>, found: int, users: set<int>)
    ensures userId == 1 && err == None
    ensures found == 0 && users == {}
  {
    var store := new Store(map[7 := []], map[]);
    userId, err := store.InsertUserCredentials(Account, 7, NoFaults.(commit := Some("connection reset")));
    var lookup := store.CheckUser(Account.platformId, Account.platformName, None);
    found, users := lookup.0, store.users;
  }

  /** With named results, the same run reports the commit's error. */
  method CommitFailureIsReported() returns (err: Option<Error>, users: set<int>)
    ensures err == Some(DriverError("connection reset")) && users == {}
  {
    var store := new Store(map[7 := []], map[]);
    var userId;
    userId, err := store.InsertUserCredentialsNamedResults(Account, 7, NoFaults.(commit := Some("connection reset")));
    users := store.users;
  }

  /** Linking the same platform account twice: the second attempt is refused
      by the uniqueness constraint and the store keeps one user, whom CheckUser
      finds. */
  method DuplicateLinkIsRejected() returns (first: Option<Error>, second: Option<Error>, users: set<int>, found: int)
    ensures first == None && second == Some(UniqueViolation)
    ensures users == {1} && found == 1
  {
    var store := new Store(map[7 := []], map[]);
    var id1, id2;
    id1, first := store.InsertUserCredentialsNamedResults(Account, 7, NoFaults);
    id2, second := store.InsertUserCredentialsNamedResults(Account, 7, NoFaults);
    users := store.users;
    found := store.CheckUser(Account.platformId, Account.platformName, None).0;
  }

  /** A link through a client that does not exist fails at the userbase insert
      and leaves no user behind. */
  method UnknownClientRollsBack() returns (userId: int, err: Option<Error>, users: set<int>, credentials: seq<CredentialsRow>)
    ensures userId == 0 && err == Some(ForeignKeyViolation)
    ensures users == {} && credentials == []
  {
    var store := new Store(map[7 := []], map[]);
    userId, err := store.InsertUserCredentials(Account, 8, NoFaults);
    users, credentials := store.users, store.credentials;
  }

  /** Setting the secret of a missing client affects no row and is no error;
      reading that client's secret then fails with ErrNoRows. */
  method SecretOfMissingClient() returns (rows: int, err: Option<Error>, readErr: Option<Error>)
    ensures rows == 0 && err == None && readErr == Some(ErrNoRows)
  {
    var store := new Store(map[7 := []], map[]);
    rows, err := store.InsertSecretInExistingClient(8, [1, 2, 3], None);
    readErr := store.GetClientSecret(8, None).1;
  }

  /** The `platforms` column is read from the user's row: an id whose insert
      was rolled back is no user (ErrNoRows), and a committed new user holds
      NULL there. */
  method PlatformsOfNewUsers() returns (rolledBack: Option<Error>, committed: Option<Error>)
    ensures rolledBack == Some(ErrNoRows) && committed == Some(NullColumn)
  {
    var store := new Store(map[7 := []], map[]);
    var id, err := store.InsertUserCredentials(Account, 7, NoFaults.(commit := Some("connection reset")));
    rolledBack := store.GetPlatformsString(id, None).1;
    id, err := store.InsertUserCredentials(Account, 7, NoFaults);
    committed := store.GetPlatformsString(id, None).1;
  }
}
