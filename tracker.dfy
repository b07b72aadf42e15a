/** The issue tracker as the synchronizer sees it: a remote service that answers
    `login` and `addVersion` calls. Its behaviour is not known in advance, so it is
    modelled as a script: each remote call consumes the next reply of the script.
    A call made when the script is exhausted never returns (the run stalls).
    The service records the calls it received: the number of logins, every
    `addVersion` attempt with the session token it carried, and the names it created. */
module Tracker {
  import opened Names

  /** A session token. The k-th login call of a run hands out token k, so every
      login yields a token not seen before; 0 stands for "no session". */
  type Token = nat

  /** What a remote call may throw. `AuthError` is the tracker's authentication
      exception; `IOError` any other I/O or remote exception; `OtherError` anything
      else (a runtime failure). The authentication exception is itself an I/O
      exception (it derives from the RMI remote exception). */
  datatype Error = AuthError | IOError | OtherError

  predicate IsIOException(e: Error)
  {
    e == AuthError || e == IOError
  }

  /** The tracker's answer to one call. */
  datatype Reply = Accepted | Rejected(error: Error)

  /** How a step of the run ended: normally, by an exception, or never. */
  datatype Status = Done | Raised(error: Error) | Stalled

  /** A version entry as submitted: always marked released, dated by the release. */
  datatype VersionEntry = VersionEntry(name: Name, released: bool, releaseDate: int)

  /** One `addVersion` call as the tracker received it, and whether it accepted it. */
  datatype Attempt = Attempt(token: Token, entry: VersionEntry, accepted: bool)

  /** The tracker's side of a run. */
  datatype Remote = Remote(script: seq<Reply>, logins: nat, attempts: seq<Attempt>, created: seq<Name>)

  /** The tracker after a call, the session token the caller holds afterwards, and
      how the call ended. */
  datatype Exchange = Exchange(remote: Remote, token: Token, status: Status)

  /** `loginToJira`: on success, a fresh token; otherwise the failure and no session. */
  function Authenticate(r: Remote): (x: Exchange)
  {
    if r.script == [] then Exchange(r, 0, Stalled)
    else
      var r' := r.(script := r.script[1..], logins := r.logins + 1);
      match r.script[0]
      case Accepted => Exchange(r', r'.logins, Done)
      case Rejected(e) => Exchange(r', 0, Raised(e))
  }

  /** One `addVersion` call with the given token. */
  function Submit(r: Remote, token: Token, entry: VersionEntry): (x: Exchange)
  {
    if r.script == [] then Exchange(r, token, Stalled)
    else
      var r' := r.(script := r.script[1..], attempts := r.attempts + [Attempt(token, entry, r.script[0] == Accepted)]);
      match r.script[0]
      case Accepted => Exchange(r'.(created := r'.created + [entry.name]), token, Done)
      case Rejected(e) => Exchange(r', token, Raised(e))
  }

  /** The authentication-retry write loop: submit the entry; when the tracker rejects
      the session, log in again and resubmit the same entry with the new token; any
      other failure, including one of the login itself, ends the loop. */
  function Write(r: Remote, token: Token, entry: VersionEntry): (x: Exchange)
    decreases |r.script|
  {
    var s := Submit(r, token, entry);
    if s.status != Raised(AuthError) then s
    else
      var l := Authenticate(s.remote);
      if l.status != Done then Exchange(l.remote, token, l.status)
      else Write(l.remote, l.token, entry)
  }

  /** The tracker client the synchronizer drives. Its fields are the tracker's side
      of the run; `State` is their value. */
  class JiraService {
    var script: seq<Reply>
    var logins: nat
    var attempts: seq<Attempt>
    var created: seq<Name>

    function State(): Remote
      reads this
    {
      Remote(script, logins, attempts, created)
    }

    constructor (r: Remote)
      ensures State() == r
    {
      script, logins, attempts, created := r.script, r.logins, r.attempts, r.created;
    }

    /** `loginToJira`: a fresh session token, or the exception the login threw. */
    method Login() returns (token: Token, status: Status)
      modifies this
      ensures Exchange(State(), token, status) == Authenticate(old(State()))
    {
      if script == [] {
        return 0, Stalled;
      }
      var reply := script[0];
      script, logins := script[1..], logins + 1;
      match reply
      case Accepted => token, status := logins, Done;
      case Rejected(e) => token, status := 0, Raised(e);
    }

    /** `addVersion`: file the entry under the given session. */
    method AddVersion(token: Token, entry: VersionEntry) returns (status: Status)
      modifies this
      ensures Exchange(State(), token, status) == Submit(old(State()), token, entry)
    {
      if script == [] {
        return Stalled;
      }
      var reply := script[0];
      script, attempts := script[1..], attempts + [Attempt(token, entry, reply == Accepted)];
      match reply
      case Accepted =>
        created := created + [entry.name];
        status := Done;
      case Rejected(e) =>
        status := Raised(e);
    }
  }
}
