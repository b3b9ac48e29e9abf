/** The GitHub authentication gate: the two module-level variables `authenticatedUser` and
    `octokit`, the `authenticateWithGitHub` step that sets them, and the `isAuthenticated`
    test that every weather tool applies before it does any work. */
module Auth {
  import opened Wrappers

  /** The Octokit client kept after a successful verification; the model keeps only the token it was built with. */
  datatype Client = Client(token: string)

  /** What `users.getAuthenticated()` does with a token: resolve to the account's login, or
      throw. A thrown `Error` carries its message (`Some`); anything else thrown carries none. */
  type Lookup = Result<string, Option<string>>

  /** What `authenticateWithGitHub` resolves to: `{success: true, username}` or `{success: false, error}`. */
  datatype AuthResult = Verified(username: string) | Rejected(error: string)

  /** The values of `authenticatedUser` and `octokit`. */
  datatype Gate = Gate(user: Option<string>, client: Option<Client>) {

    /** `isAuthenticated()`: neither variable is null. */
    predicate IsAuthenticated() {
      user.Some? && client.Some?
    }

    /** The two variables are only ever set together. */
    predicate Valid() {
      user.Some? == client.Some?
    }
  }

  /** Both variables start out null. */
  const Initial: Gate := Gate(None, None)

  /** The error text of a failed verification: the thrown `Error`'s message, or the generic text. */
  function ErrorText(thrown: Option<string>): string {
    if thrown.Some? then thrown.value else "Authentication failed"
  }

  /** One call of `authenticateWithGitHub(token)`, from the variables before it to the variables
      after it and the value it resolves to. */
  function Authenticate(g: Gate, token: string, lookup: Lookup): (r: (Gate, AuthResult))
    ensures r.1.Verified? <==> lookup.Success?
    ensures lookup.Success? ==> r.0 == Gate(Some(lookup.value), Some(Client(token))) && r.1.username == lookup.value
    ensures lookup.Failure? ==> r.0 == g && r.1.error == ErrorText(lookup.error)
    ensures r.0.IsAuthenticated() <==> lookup.Success? || g.IsAuthenticated()
    ensures g.Valid() ==> r.0.Valid()
  {
    match lookup
    case Success(login) => (Gate(Some(login), Some(Client(token))), Verified(login))
    case Failure(thrown) => (g, Rejected(ErrorText(thrown)))
  }

  /** One call of the `authenticate` tool: the token supplied and what the lookup did with it. */
  datatype Attempt = Attempt(token: string, lookup: Lookup)

  /** The variables after a series of `authenticate` calls, in order. */
  function Run(g: Gate, attempts: seq<Attempt>): Gate
    decreases |attempts|
  {
    if |attempts| == 0 then g
    else Run(Authenticate(g, attempts[0].token, attempts[0].lookup).0, attempts[1..])
  }

  /** The session is authenticated after a series of calls exactly when it was before, or one
      of the calls was verified: a rejected call never logs a session out. */
  lemma {:induction false} RunAuthenticated(g: Gate, attempts: seq<Attempt>)
    ensures Run(g, attempts).IsAuthenticated() <==>
      g.IsAuthenticated() || exists i :: 0 <= i < |attempts| && attempts[i].lookup.Success?
    decreases |attempts|
  {
    if |attempts| > 0 {
      var next := Authenticate(g, attempts[0].token, attempts[0].lookup).0;
      RunAuthenticated(next, attempts[1..]);
      if exists i :: 0 <= i < |attempts| && attempts[i].lookup.Success? {
        var i :| 0 <= i < |attempts| && attempts[i].lookup.Success?;
        if i > 0 {
          assert attempts[1..][i - 1] == attempts[i];
        }
      }
      if exists i :: 0 <= i < |attempts| - 1 && attempts[1..][i].lookup.Success? {
        var i :| 0 <= i < |attempts| - 1 && attempts[1..][i].lookup.Success?;
        assert attempts[i + 1] == attempts[1..][i];
      }
    }
  }

  /** Rejected calls leave both variables as they were. */
  lemma {:induction false} RunRejected(g: Gate, attempts: seq<Attempt>)
    requires forall i :: 0 <= i < |attempts| ==> attempts[i].lookup.Failure?
    ensures Run(g, attempts) == g
    decreases |attempts|
  {
    if |attempts| > 0 {
      RunRejected(g, attempts[1..]);
    }
  }

  /** After a series of calls, the session belongs to the last verified call: its login and a
      client built with its token. */
  lemma {:induction false} RunLastVerified(g: Gate, attempts: seq<Attempt>, i: nat)
    requires i < |attempts| && attempts[i].lookup.Success?
    requires forall k :: i < k < |attempts| ==> attempts[k].lookup.Failure?
    ensures Run(g, attempts) == Gate(Some(attempts[i].lookup.value), Some(Client(attempts[i].token)))
    decreases |attempts|
  {
    var next := Authenticate(g, attempts[0].token, attempts[0].lookup).0;
    if i == 0 {
      RunRejected(next, attempts[1..]);
    } else {
      RunLastVerified(next, attempts[1..], i - 1);
    }
  }

  /** The two variables stay set together through any series of calls. */
  lemma {:induction false} RunValid(g: Gate, attempts: seq<Attempt>)
    requires g.Valid()
    ensures Run(g, attempts).Valid()
    decreases |attempts|
  {
    if |attempts| > 0 {
      RunValid(Authenticate(g, attempts[0].token, attempts[0].lookup).0, attempts[1..]);
    }
  }

  /** The process-wide authentication state. */
  class Session {
    var authenticatedUser: Option<string>
    var octokit: Option<Client>

    /** The two variables as a value. */
    function State(): Gate
      reads this
    {
      Gate(authenticatedUser, octokit)
    }

    /** At start-up both variables are null. */
    constructor ()
      ensures State() == Initial
    {
      authenticatedUser := None;
      octokit := None;
    }

    /** `isAuthenticated()`. */
    predicate IsAuthenticated()
      reads this
      ensures IsAuthenticated() <==> State().IsAuthenticated()
    {
      authenticatedUser != None && octokit != None
    }

    /** `authenticateWithGitHub(token)`, where `lookup` is what `users.getAuthenticated()` did
        with a client built on `token`. On success it stores the client and then the login; on
        failure it stores nothing. */
    method AuthenticateWithGitHub(token: string, lookup: Lookup) returns (result: AuthResult)
      modifies this
      ensures (State(), result) == Authenticate(old(State()), token, lookup)
    {
      match lookup {
        case Success(login) =>
          octokit := Some(Client(token));
          authenticatedUser := Some(login);
          result := Verified(login);
        case Failure(thrown) =>
          result := Rejected(ErrorText(thrown));
      }
    }
  }
}
