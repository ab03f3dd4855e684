/** The credential persistence layer of package `dal`.

    The relational store is replaced by an in-memory `Store` whose fields are
    the tables the queries touch. Every statement that can fail for reasons
    outside the program (a lost connection, a server error) takes that failure
    as an input: `failure: Option<string>` is the driver's error message, if any.
    Failures that follow from the data itself (no row, a unique or foreign key
    violation, an unknown table) are computed from the store. */
module Dal {
  import opened Wrappers
  import GoStrings

  newtype byte = b: int | 0 <= b < 256

  /** The errors an operation of the layer can return. */
  datatype Error =
    | ErrNoRows                     // database/sql's ErrNoRows: a single-row query matched nothing
    | DriverError(reason: string)   // any failure reported by the driver or the server
    | UndefinedTable(name: string)  // the statement names a table that does not exist
    | UniqueViolation               // a second credentials row for one (platform_name, platform_id)
    | ForeignKeyViolation           // a userbase row for a client that does not exist
    | NoConnectionParams            // CreateUserCredentials was given no parameters
    | NullColumn                    // Scan met a NULL column, which a Go string cannot hold

  /** The `UserCredentials` struct: what a new linked account is made of. */
  datatype UserCredentials = UserCredentials(platformName: string, platformId: string, connectionString: string)

  /** A row of the `credentials` table. */
  datatype CredentialsRow = CredentialsRow(userId: int, platformName: string, platformId: string, connectionString: string)

  /** A row of the `userbase` table: a user's membership of a client application. */
  datatype UserbaseRow = UserbaseRow(userId: int, clientId: int)

  /** The `access_token` and `refresh_token` columns of an `oauth2` row. */
  datatype TokenPair = TokenPair(accessToken: string, refreshToken: string)

  /** The tables the transaction of InsertUserCredentials writes, as one value:
      what a rollback restores. */
  datatype Tables = Tables(users: set<int>, credentials: seq<CredentialsRow>, userbase: seq<UserbaseRow>)

  /** The injected failure of each statement of InsertUserCredentials. */
  datatype TxFaults = TxFaults(
    begin: Option<string>,
    insertUser: Option<string>,
    insertCredentials: Option<string>,
    insertUserbase: Option<string>,
    commit: Option<string>)

  // ---------------------------------------------------------------------------
  // CreateUserCredentials: the connection string
  // ---------------------------------------------------------------------------

  /** The connection string of a parameter list: each parameter followed by ";". */
  function Terminated(params: seq<string>): (s: string)
  {
    if params == [] then "" else params[0] + ";" + Terminated(params[1..])
  }

  function SumOfLengths(params: seq<string>): (n: nat)
  {
    if params == [] then 0 else |params[0]| + SumOfLengths(params[1..])
  }

  /** Appending a parameter appends that parameter and one ";". */
  lemma {:induction false} TerminatedSnoc(params: seq<string>, p: string)
    ensures Terminated(params + [p]) == Terminated(params) + p + ";"
  {
    if params != [] {
      assert (params + [p])[1..] == params[1..] + [p];
      TerminatedSnoc(params[1..], p);
    } else {
      assert params + [p] == [p];
    }
  }

  /** A non-empty parameter list gives a string that ends with ";". */
  lemma {:induction false} TerminatedEndsWithSemicolon(params: seq<string>)
    requires params != []
    ensures var s := Terminated(params); |s| > 0 && s[|s| - 1] == ';'
  {
    if params[1..] != [] {
      TerminatedEndsWithSemicolon(params[1..]);
    }
  }

  /** The string is as long as all parameters together plus one ";" per parameter. */
  lemma {:induction false} TerminatedLength(params: seq<string>)
    ensures |Terminated(params)| == SumOfLengths(params) + |params|
  {
    if params != [] {
      TerminatedLength(params[1..]);
    }
  }

  /** When no parameter contains ";", splitting on ";" gives the parameters back,
      in order, followed by exactly one empty field. */
  lemma {:induction false} SplitTerminated(params: seq<string>)
    requires forall k :: 0 <= k < |params| ==> ';' !in params[k]
    ensures GoStrings.Split(Terminated(params), ';') == params + [""]
  {
    if params != [] {
      SplitTerminated(params[1..]);
      GoStrings.SplitField(params[0], ';', Terminated(params[1..]));
      assert params[0] + ";" + Terminated(params[1..]) == params[0] + [';'] + Terminated(params[1..]);
      assert [params[0]] + (params[1..] + [""]) == params + [""];
    }
  }

  /** The round trip holds exactly when no parameter contains ";". */
  lemma SplitTerminatedIff(params: seq<string>)
    ensures GoStrings.Split(Terminated(params), ';') == params + [""]
            <==> forall k :: 0 <= k < |params| ==> ';' !in params[k]
  {
    if forall k :: 0 <= k < |params| ==> ';' !in params[k] {
      SplitTerminated(params);
    } else {
      var k :| 0 <= k < |params| && ';' in params[k];
      var fields := GoStrings.Split(Terminated(params), ';');
      GoStrings.SplitFieldsAreFree(Terminated(params), ';');
      if |fields| == |params| + 1 {
        assert ';' !in fields[k];
        assert fields[k] != (params + [""])[k];
      }
    }
  }

  /** Parameter lists free of ";" are told apart by their connection strings. */
  lemma TerminatedInjective(a: seq<string>, b: seq<string>)
    requires forall k :: 0 <= k < |a| ==> ';' !in a[k]
    requires forall k :: 0 <= k < |b| ==> ';' !in b[k]
    requires Terminated(a) == Terminated(b)
    ensures a == b
  {
    SplitTerminated(a);
    SplitTerminated(b);
    assert a + [""] == b + [""];
    assert a == (a + [""])[..|a|];
    assert b == (b + [""])[..|b|];
  }

  /** CreateUserCredentials: the platform name and id are always set; the
      connection string is built only from a non-empty parameter list. */
  method CreateUserCredentials(platform: string, platformID: string, connectionParams: seq<string>)
    returns (credentials: UserCredentials, err: Option<Error>)
    ensures credentials.platformName == platform && credentials.platformId == platformID
    ensures err.Some? <==> connectionParams == []
    ensures err.Some? ==> err == Some(NoConnectionParams) && credentials.connectionString == ""
    ensures err.None? ==> credentials.connectionString == Terminated(connectionParams)
  {
    credentials := UserCredentials(platform, platformID, "");
    if |connectionParams| == 0 {
      return credentials, Some(NoConnectionParams);
    }
    var sb := "";
    for i := 0 to |connectionParams|
      invariant sb == Terminated(connectionParams[..i])
    {
      TerminatedSnoc(connectionParams[..i], connectionParams[i]);
      assert connectionParams[..i + 1] == connectionParams[..i] + [connectionParams[i]];
      sb := sb + connectionParams[i] + ";";
    }
    assert connectionParams[..|connectionParams|] == connectionParams;
    credentials := credentials.(connectionString := sb);
    err := None;
  }

  // ---------------------------------------------------------------------------
  // Queries over the credentials table
  // ---------------------------------------------------------------------------

  /** The row is the linked account (platformName, platformId). */
  predicate IsAccount(row: CredentialsRow, platformId: string, platformName: string)
  {
    row.platformId == platformId && row.platformName == platformName
  }

  /** The position of the first row of the linked account, |rows| when there is none:
      the row a single-row query over `rows` reads. */
  function FirstMatch(rows: seq<CredentialsRow>, platformId: string, platformName: string): (k: nat)
    ensures k <= |rows|
    ensures forall i :: 0 <= i < k ==> !IsAccount(rows[i], platformId, platformName)
    ensures k < |rows| ==> IsAccount(rows[k], platformId, platformName)
  {
    if rows == [] then 0
    else if IsAccount(rows[0], platformId, platformName) then 0
    else 1 + FirstMatch(rows[1..], platformId, platformName)
  }

  /** A row appended after rows that do not hold the account is where it is found. */
  lemma {:induction false} FirstMatchAppended(rows: seq<CredentialsRow>, row: CredentialsRow)
    requires forall i :: 0 <= i < |rows| ==> !IsAccount(rows[i], row.platformId, row.platformName)
    ensures FirstMatch(rows + [row], row.platformId, row.platformName) == |rows|
  {
    if rows != [] {
      assert (rows + [row])[1..] == rows[1..] + [row];
      FirstMatchAppended(rows[1..], row);
    }
  }

  /** No two rows are the same linked account: the (platform_name, platform_id)
      uniqueness constraint. */
  ghost predicate UniqueAccounts(rows: seq<CredentialsRow>)
  {
    forall i, j :: 0 <= i < j < |rows| ==>
      !IsAccount(rows[j], rows[i].platformId, rows[i].platformName)
  }

  /** The schema's constraints and the layer's own invariant: ids come from
      the sequence, rows reference existing users and clients, a linked
      account exists once, and every user was created together with its
      credentials row and its userbase row. */
  ghost predicate TablesValid(t: Tables, nextUserId: int, clients: map<int, seq<byte>>)
  {
    && nextUserId >= 1
    && (forall u :: u in t.users ==> 1 <= u < nextUserId)
    && (forall i :: 0 <= i < |t.credentials| ==> t.credentials[i].userId in t.users)
    && (forall i :: 0 <= i < |t.userbase| ==> t.userbase[i].userId in t.users && t.userbase[i].clientId in clients)
    && UniqueAccounts(t.credentials)
    && (forall u :: u in t.users ==> HasCredentials(t.credentials, u) && HasMembership(t.userbase, u))
  }

  ghost predicate HasCredentials(rows: seq<CredentialsRow>, u: int)
  {
    exists i :: 0 <= i < |rows| && rows[i].userId == u
  }

  ghost predicate HasMembership(rows: seq<UserbaseRow>, u: int)
  {
    exists i :: 0 <= i < |rows| && rows[i].userId == u
  }

  /** The tables after a committed InsertUserCredentials that created user `id`. */
  ghost function Linked(before: Tables, id: int, c: UserCredentials, clientId: int): (after: Tables)
  {
    Tables(before.users + {id},
           before.credentials + [CredentialsRow(id, c.platformName, c.platformId, c.connectionString)],
           before.userbase + [UserbaseRow(id, clientId)])
  }

  /** Linking a new account, under a fresh id, for an existing client, keeps
      every constraint: the three rows are added together. */
  lemma LinkedIsValid(before: Tables, id: int, c: UserCredentials, clientId: int, clients: map<int, seq<byte>>)
    requires TablesValid(before, id, clients)
    requires clientId in clients
    requires FirstMatch(before.credentials, c.platformId, c.platformName) == |before.credentials|
    ensures TablesValid(Linked(before, id, c, clientId), id + 1, clients)
  {
    var after := Linked(before, id, c, clientId);
    var n, m := |before.credentials|, |before.userbase|;
    assert after.credentials[n].userId == id;
    assert after.userbase[m].userId == id;
    forall u | u in after.users
      ensures HasCredentials(after.credentials, u) && HasMembership(after.userbase, u)
    {
      if u == id {
        assert after.credentials[n].userId == u;
        assert after.userbase[m].userId == u;
      } else {
        var i :| 0 <= i < n && before.credentials[i].userId == u;
        assert after.credentials[i].userId == u;
        var j :| 0 <= j < m && before.userbase[j].userId == u;
        assert after.userbase[j].userId == u;
      }
    }
    forall i, j | 0 <= i < j < |after.credentials|
      ensures !IsAccount(after.credentials[j], after.credentials[i].platformId, after.credentials[i].platformName)
    {
      if j == n {
        assert after.credentials[i] == before.credentials[i];
      }
    }
  }

  // ---------------------------------------------------------------------------
  // The store
  // ---------------------------------------------------------------------------

  class Store {
    /** The next value of the `user` table's id sequence. */
    var nextUserId: int
    /** The `user` table (its ids). */
    var users: set<int>
    /** The `credentials` table. */
    var credentials: seq<CredentialsRow>
    /** The `userbase` table. */
    var userbase: seq<UserbaseRow>
    /** The `client` table: id to secret. */
    var clients: map<int, seq<byte>>
    /** The `oauth2` rows reachable through each platform's table: platform, then user. */
    var oauth2: map<string, map<int, TokenPair>>
    /** The `platforms` column of the `user` table: a user without an entry
        holds NULL there, which is what a new user gets. */
    var platforms: map<int, string>

    /** The schema's constraints and the layer's own invariant, on the fields:
        those of the tables the transaction writes, and `platforms` being a
        column of the user table. */
    ghost predicate Valid()
      reads this
    {
      TablesValid(TxTables(), nextUserId, clients) && platforms.Keys <= users
    }

    /** A store whose client and token data were provisioned elsewhere and
        which has no users yet. */
    constructor (clients: map<int, seq<byte>>, oauth2: map<string, map<int, TokenPair>>)
      ensures Valid()
      ensures nextUserId == 1 && users == {} && credentials == [] && userbase == []
      ensures this.clients == clients && this.oauth2 == oauth2 && platforms == map[]
    {
      nextUserId := 1;
      users, credentials, userbase := {}, [], [];
      this.clients, this.oauth2, platforms := clients, oauth2, map[];
    }

    /** A store over existing tables that keep the schema's constraints. */
    constructor Open(nextUserId: int, tables: Tables, clients: map<int, seq<byte>>,
                     oauth2: map<string, map<int, TokenPair>>, platforms: map<int, string>)
      requires TablesValid(tables, nextUserId, clients) && platforms.Keys <= tables.users
      ensures Valid()
      ensures this.nextUserId == nextUserId && TxTables() == tables
      ensures this.clients == clients && this.oauth2 == oauth2 && this.platforms == platforms
    {
      this.nextUserId := nextUserId;
      users, credentials, userbase := tables.users, tables.credentials, tables.userbase;
      this.clients, this.oauth2, this.platforms := clients, oauth2, platforms;
    }

    function TxTables(): (t: Tables)
      reads this
    {
      Tables(users, credentials, userbase)
    }

    // -------------------------------------------------------------------------
    // Client secrets
    // -------------------------------------------------------------------------

    /** InsertSecretInExistingClient: `UPDATE client SET secret WHERE id`. */
    method InsertSecretInExistingClient(clientId: int, secret: seq<byte>, failure: Option<string>)
      returns (rows: int, err: Option<Error>)
      requires Valid()
      modifies this
      ensures Valid()
      ensures failure.Some? ==> rows == 0 && err == Some(DriverError(failure.value)) && clients == old(clients)
      ensures failure.None? ==> err == None && rows == (if clientId in old(clients) then 1 else 0)
      ensures failure.None? && clientId in old(clients) ==> clients == old(clients)[clientId := secret]
      ensures failure.None? && clientId !in old(clients) ==> clients == old(clients)
      ensures failure.None? ==>
        GetClientSecret(clientId, None) == if rows == 1 then (secret, None) else ([], Some(ErrNoRows))
      ensures forall c :: c != clientId ==> GetClientSecret(c, None) == old(GetClientSecret(c, None))
      ensures clients.Keys == old(clients.Keys)
      ensures nextUserId == old(nextUserId) && TxTables() == old(TxTables())
      ensures oauth2 == old(oauth2) && platforms == old(platforms)
    {
      if failure.Some? {
        return 0, Some(DriverError(failure.value));
      }
      if clientId in clients {
        clients := clients[clientId := secret];
        rows := 1;
      } else {
        rows := 0;
      }
      err := None;
    }

    /** GetClientSecret: the secret of an existing client, an error otherwise. */
    function GetClientSecret(fromClientId: int, failure: Option<string>): (r: (seq<byte>, Option<Error>))
      reads this
      ensures failure.Some? ==> r == ([], Some(DriverError(failure.value)))
      ensures failure.None? ==> (r.1 == None <==> fromClientId in clients)
      ensures failure.None? && fromClientId in clients ==> r.0 == clients[fromClientId]
      ensures failure.None? && fromClientId !in clients ==> r == ([], Some(ErrNoRows))
    {
      if failure.Some? then ([], Some(DriverError(failure.value)))
      else if fromClientId in clients then (clients[fromClientId], None)
      else ([], Some(ErrNoRows))
    }

    // -------------------------------------------------------------------------
    // Lookups
    // -------------------------------------------------------------------------

    /** CheckUser: the user id of a linked account, `0` when there is none, or
        an error when the query itself fails. */
    function CheckUser(platformId: string, platformName: string, failure: Option<string>): (r: (int, Option<Error>))
      reads this
      ensures failure.Some? ==> r == (0, Some(DriverError(failure.value)))
      ensures failure.None? ==> r.1 == None
      ensures failure.None? && (forall i :: 0 <= i < |credentials| ==> !IsAccount(credentials[i], platformId, platformName))
              ==> r.0 == 0
      ensures failure.None? && r.0 != 0 ==>
              exists i :: 0 <= i < |credentials| && IsAccount(credentials[i], platformId, platformName)
                          && credentials[i].userId == r.0
      ensures Valid() && failure.None? ==>
              (r.0 != 0 <==> exists i :: 0 <= i < |credentials| && IsAccount(credentials[i], platformId, platformName))
      ensures Valid() && failure.None? ==>
              forall i :: 0 <= i < |credentials| && IsAccount(credentials[i], platformId, platformName)
                          ==> credentials[i].userId == r.0
    {
      if failure.Some? then (0, Some(DriverError(failure.value)))
      else
        var k := FirstMatch(credentials, platformId, platformName);
        if k == |credentials| then (0, None)   // sql.ErrNoRows is reported as "no user"
        else (credentials[k].userId, None)
    }

    /** GetUserTokens: the token pair stored for the user in the platform's table. */
    function GetUserTokens(fromUserId: int, platform: string, failure: Option<string>): (r: (string, string, Option<Error>))
      reads this
      ensures failure.Some? ==> r == ("", "", Some(DriverError(failure.value)))
      ensures failure.None? && platform !in oauth2 ==> r == ("", "", Some(UndefinedTable(platform)))
      ensures failure.None? && platform in oauth2 && fromUserId !in oauth2[platform] ==> r == ("", "", Some(ErrNoRows))
      ensures failure.None? ==> (r.2 == None <==> platform in oauth2 && fromUserId in oauth2[platform])
      ensures r.2 == None ==> TokenPair(r.0, r.1) == oauth2[platform][fromUserId]
      ensures r.2 != None ==> r.0 == "" && r.1 == ""
    {
      if failure.Some? then ("", "", Some(DriverError(failure.value)))
      else if platform !in oauth2 then ("", "", Some(UndefinedTable(platform)))
      else if fromUserId !in oauth2[platform] then ("", "", Some(ErrNoRows))
      else
        var t := oauth2[platform][fromUserId];
        (t.accessToken, t.refreshToken, None)
    }

    /** GetPlatformsString: the `platforms` column of the user's row. */
    function GetPlatformsString(fromUserId: int, failure: Option<string>): (r: (string, Option<Error>))
      reads this
      ensures failure.Some? ==> r == ("", Some(DriverError(failure.value)))
      ensures failure.None? && fromUserId !in users ==> r == ("", Some(ErrNoRows))
      ensures failure.None? && fromUserId in users && fromUserId !in platforms ==> r == ("", Some(NullColumn))
      ensures failure.None? ==> (r.1 == None <==> fromUserId in users && fromUserId in platforms)
      ensures r.1 == None ==> r.0 == platforms[fromUserId]
      ensures Valid() && failure.None? ==> (r.1 == None <==> fromUserId in platforms)
    {
      if failure.Some? then ("", Some(DriverError(failure.value)))
      else if fromUserId !in users then ("", Some(ErrNoRows))
      else if fromUserId !in platforms then ("", Some(NullColumn))
      else (platforms[fromUserId], None)
    }

    // -------------------------------------------------------------------------
    // InsertUserCredentials: the three statements of the transaction
    // -------------------------------------------------------------------------

    /** `INSERT INTO user DEFAULT VALUES RETURNING id`. The id is drawn from the
        sequence, which a rollback does not give back. */
    method InsertUserRow(failure: Option<string>) returns (id: int, err: Option<Error>)
      modifies this
      ensures failure.Some? ==> id == 0 && err == Some(DriverError(failure.value)) && unchanged(this)
      ensures failure.None? ==> err == None && id == old(nextUserId) && nextUserId == old(nextUserId) + 1
      ensures failure.None? ==> TxTables() == old(TxTables()).(users := old(users) + {id})
      ensures clients == old(clients) && oauth2 == old(oauth2) && platforms == old(platforms)
    {
      if failure.Some? {
        return 0, Some(DriverError(failure.value));
      }
      id := nextUserId;
      nextUserId := nextUserId + 1;
      users := users + {id};
      err := None;
    }

    /** `INSERT INTO credentials`: refused when the account is already linked. */
    method InsertCredentialsRow(row: CredentialsRow, failure: Option<string>) returns (err: Option<Error>)
      modifies this
      ensures failure.Some? ==> err == Some(DriverError(failure.value))
      ensures failure.None? ==>
        err == (if FirstMatch(old(credentials), row.platformId, row.platformName) < |old(credentials)|
                then Some(UniqueViolation) else None)
      ensures err.Some? ==> unchanged(this)
      ensures err.None? ==> credentials == old(credentials) + [row]
      ensures users == old(users) && userbase == old(userbase) && nextUserId == old(nextUserId)
      ensures clients == old(clients) && oauth2 == old(oauth2) && platforms == old(platforms)
    {
      if failure.Some? {
        return Some(DriverError(failure.value));
      }
      if FirstMatch(credentials, row.platformId, row.platformName) < |credentials| {
        return Some(UniqueViolation);
      }
      credentials := credentials + [row];
      err := None;
    }

    /** `INSERT INTO userbase`: refused when the client does not exist. */
    method InsertUserbaseRow(row: UserbaseRow, failure: Option<string>) returns (err: Option<Error>)
      modifies this
      ensures failure.Some? ==> err == Some(DriverError(failure.value))
      ensures failure.None? ==> err == (if row.clientId in clients then None else Some(ForeignKeyViolation))
      ensures err.Some? ==> unchanged(this)
      ensures err.None? ==> userbase == old(userbase) + [row]
      ensures users == old(users) && credentials == old(credentials) && nextUserId == old(nextUserId)
      ensures clients == old(clients) && oauth2 == old(oauth2) && platforms == old(platforms)
    {
      if failure.Some? {
        return Some(DriverError(failure.value));
      }
      if row.clientId !in clients {
        return Some(ForeignKeyViolation);
      }
      userbase := userbase + [row];
      err := None;
    }

    /** The deferred function: roll back when `pending` holds an error,
        otherwise commit. A failed commit leaves nothing of the transaction. */
    method Finish(saved: Tables, pending: Option<Error>, failure: Option<string>) returns (err: Option<Error>)
      modifies this
      ensures pending.Some? ==> err == pending && TxTables() == saved
      ensures pending.None? && failure.Some? ==> err == Some(DriverError(failure.value)) && TxTables() == saved
      ensures pending.None? && failure.None? ==> err == None && TxTables() == old(TxTables())
      ensures nextUserId == old(nextUserId)
      ensures clients == old(clients) && oauth2 == old(oauth2) && platforms == old(platforms)
    {
      if pending.Some? {
        users, credentials, userbase := saved.users, saved.credentials, saved.userbase;   // tx.Rollback()
        err := pending;
      } else if failure.Some? {
        users, credentials, userbase := saved.users, saved.credentials, saved.userbase;
        err := Some(DriverError(failure.value));
      } else {
        err := None;
      }
    }

    /** The error of the first statement of InsertUserCredentials that fails,
        on the state before the call; None when all three inserts succeed. */
    ghost function StepFailure(c: UserCredentials, clientId: int, faults: TxFaults): (e: Option<Error>)
      reads this
    {
      if faults.begin.Some? then Some(DriverError(faults.begin.value))
      else if faults.insertUser.Some? then Some(DriverError(faults.insertUser.value))
      else if faults.insertCredentials.Some? then Some(DriverError(faults.insertCredentials.value))
      else if FirstMatch(credentials, c.platformId, c.platformName) < |credentials| then Some(UniqueViolation)
      else if faults.insertUserbase.Some? then Some(DriverError(faults.insertUserbase.value))
      else if clientId !in clients then Some(ForeignKeyViolation)
      else None
    }

    /** The body of InsertUserCredentials: `returned` and `returnedErr` are the
        operands of the `return` statement that ends it, `finalErr` is the
        function's `err` once the deferred function has run. */
    method LinkTransaction(c: UserCredentials, clientId: int, faults: TxFaults)
      returns (returned: int, returnedErr: Option<Error>, finalErr: Option<Error>)
      requires Valid()
      modifies this
      ensures Valid()
      ensures clients == old(clients) && oauth2 == old(oauth2) && platforms == old(platforms)
      ensures nextUserId == if faults.begin.None? && faults.insertUser.None? then old(nextUserId) + 1 else old(nextUserId)
      ensures old(StepFailure(c, clientId, faults)).Some? ==>
        returned == 0 && returnedErr == old(StepFailure(c, clientId, faults)) && finalErr == returnedErr
        && TxTables() == old(TxTables())
      ensures old(StepFailure(c, clientId, faults)).None? ==>
        returned == old(nextUserId) && returned >= 1 && returned !in old(users) && returnedErr == None
      ensures old(StepFailure(c, clientId, faults)).None? && faults.commit.None? ==>
        finalErr == None && TxTables() == Linked(old(TxTables()), returned, c, clientId)
        && CheckUser(c.platformId, c.platformName, None) == (returned, None)
      ensures old(StepFailure(c, clientId, faults)).None? && faults.commit.Some? ==>
        finalErr == Some(DriverError(faults.commit.value)) && TxTables() == old(TxTables())
        && CheckUser(c.platformId, c.platformName, None) == (0, None)
    {
      // tx, err := db.Begin()
      if faults.begin.Some? {
        returned, returnedErr := 0, Some(DriverError(faults.begin.value));
        return returned, returnedErr, returnedErr;
      }
      var tx := TxTables();
      var id: int;
      var err: Option<Error>;
      id, err := InsertUserRow(faults.insertUser);
      if err.Some? {
        returned, returnedErr := 0, err;
        finalErr := Finish(tx, err, faults.commit);
        return;
      }
      assert FirstMatch(credentials, c.platformId, c.platformName) == FirstMatch(tx.credentials, c.platformId, c.platformName);
      err := InsertCredentialsRow(CredentialsRow(id, c.platformName, c.platformId, c.connectionString), faults.insertCredentials);
      if err.Some? {
        returned, returnedErr := 0, err;
        finalErr := Finish(tx, err, faults.commit);
        return;
      }
      err := InsertUserbaseRow(UserbaseRow(id, clientId), faults.insertUserbase);
      if err.Some? {
        returned, returnedErr := 0, err;
        finalErr := Finish(tx, err, faults.commit);
        return;
      }
      LinkedIsValid(tx, id, c, clientId, clients);
      FirstMatchAppended(tx.credentials, CredentialsRow(id, c.platformName, c.platformId, c.connectionString));
      returned, returnedErr := id, err;
      finalErr := Finish(tx, err, faults.commit);
    }

    /** InsertUserCredentials as written: its results are unnamed, so the caller
        receives the operands of `return` and the deferred `err = tx.Commit()`
        is lost. A failed commit is reported as success. */
    method InsertUserCredentials(c: UserCredentials, clientId: int, faults: TxFaults)
      returns (userId: int, err: Option<Error>)
      requires Valid()
      modifies this
      ensures Valid()
      ensures clients == old(clients) && oauth2 == old(oauth2) && platforms == old(platforms)
      ensures nextUserId == if faults.begin.None? && faults.insertUser.None? then old(nextUserId) + 1 else old(nextUserId)
      ensures old(StepFailure(c, clientId, faults)).Some? ==>
        userId == 0 && err == old(StepFailure(c, clientId, faults)) && TxTables() == old(TxTables())
      ensures old(StepFailure(c, clientId, faults)).None? ==>
        err == None && userId == old(nextUserId) && userId >= 1 && userId !in old(users)
      ensures old(StepFailure(c, clientId, faults)).None? && faults.commit.None? ==>
        TxTables() == Linked(old(TxTables()), userId, c, clientId)
        && CheckUser(c.platformId, c.platformName, None) == (userId, None)
      // the defect: success is reported, and the account is not there
      ensures old(StepFailure(c, clientId, faults)).None? && faults.commit.Some? ==>
        TxTables() == old(TxTables()) && CheckUser(c.platformId, c.platformName, None) == (0, None)
    {
      var afterDefer;
      userId, err, afterDefer := LinkTransaction(c, clientId, faults);
    }

    /** InsertUserCredentials with named results `(userId int, err error)`: the
        deferred commit's error reaches the caller, so success is reported
        exactly when the three rows were committed. */
    method InsertUserCredentialsNamedResults(c: UserCredentials, clientId: int, faults: TxFaults)
      returns (userId: int, err: Option<Error>)
      requires Valid()
      modifies this
      ensures Valid()
      ensures clients == old(clients) && oauth2 == old(oauth2) && platforms == old(platforms)
      ensures nextUserId == if faults.begin.None? && faults.insertUser.None? then old(nextUserId) + 1 else old(nextUserId)
      ensures err.None? <==> old(StepFailure(c, clientId, faults)).None? && faults.commit.None?
      ensures err.None? ==>
        userId == old(nextUserId) && userId >= 1 && userId !in old(users)
        && TxTables() == Linked(old(TxTables()), userId, c, clientId)
        && CheckUser(c.platformId, c.platformName, None) == (userId, None)
      ensures err.Some? ==> TxTables() == old(TxTables())
      ensures old(StepFailure(c, clientId, faults)).Some? ==> userId == 0 && err == old(StepFailure(c, clientId, faults))
      ensures old(StepFailure(c, clientId, faults)).None? && faults.commit.Some? ==>
        userId == old(nextUserId) && err == Some(DriverError(faults.commit.value))
      // linking an account that is already linked never creates a user
      ensures old(FirstMatch(credentials, c.platformId, c.platformName) < |credentials|) ==>
        err.Some? && users == old(users)
    {
      var returnedErr;
      userId, returnedErr, err := LinkTransaction(c, clientId, faults);
    }
  }
}
