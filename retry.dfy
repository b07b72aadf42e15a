/** Properties of the authentication-retry write loop (`Tracker.Write`). */
module Retry {
  import opened Names
  import opened Tracker

  /** k rounds of "session rejected, then re-login accepted". */
  function AuthCycles(k: nat): (s: seq<Reply>)
    ensures |s| == 2 * k
  {
    if k == 0 then [] else [Rejected(AuthError), Accepted] + AuthCycles(k - 1)
  }

  /** The `addVersion` calls of a write that is retried k times: the first with the
      caller's token, each retry with the token of the login just before it. */
  function RetryAttempts(token: Token, logins: nat, k: nat, entry: VersionEntry): (s: seq<Attempt>)
    ensures |s| == k + 1
    decreases k
  {
    if k == 0 then [Attempt(token, entry, true)]
    else [Attempt(token, entry, false)] + RetryAttempts(logins + 1, logins + 1, k - 1, entry)
  }

  /** Whatever the tracker answers, the write loop only ever submits its own entry,
      keeps what the tracker had recorded, creates at most that entry, and creates it
      exactly when the loop ends normally. Only the last submission can have been
      accepted, and only when the loop ends normally. When it does, every attempt but
      the last was followed by exactly one login. */
  lemma {:induction false} WriteEffect(r: Remote, token: Token, entry: VersionEntry)
    ensures var x := Write(r, token, entry);
      && r.attempts <= x.remote.attempts
      && (forall a | a in x.remote.attempts[|r.attempts|..] :: a.entry == entry)
      && (forall i | |r.attempts| <= i < |x.remote.attempts| && x.remote.attempts[i].accepted ::
            i == |x.remote.attempts| - 1 && x.status == Done)
      && x.remote.created == r.created + (if x.status == Done then [entry.name] else [])
      && r.logins <= x.remote.logins
      && (x.status == Done ==> |x.remote.attempts| - |r.attempts| == x.remote.logins - r.logins + 1)
    decreases |r.script|
  {
    var s := Submit(r, token, entry);
    if s.status == Raised(AuthError) {
      var l := Authenticate(s.remote);
      if l.status == Done {
        WriteEffect(l.remote, l.token, entry);
        var x := Write(l.remote, l.token, entry);
        assert x.remote.attempts[|r.attempts|..]
            == [Attempt(token, entry, false)] + x.remote.attempts[|l.remote.attempts|..];
      }
    }
  }

  /** One round of the loop: a rejected session followed by an accepted login leaves
      the loop where it started, one attempt and one login later, holding the new
      token. */
  lemma RetryRound(r: Remote, token: Token, entry: VersionEntry)
    requires |r.script| >= 2 && r.script[0] == Rejected(AuthError) && r.script[1] == Accepted
    ensures Write(r, token, entry)
         == Write(Remote(r.script[2..], r.logins + 1, r.attempts + [Attempt(token, entry, false)], r.created),
                  r.logins + 1, entry)
  {
  }

  /** A submission accepted at once ends the loop after that one call. */
  lemma AcceptedAtOnce(r: Remote, token: Token, entry: VersionEntry)
    requires r.script != [] && r.script[0] == Accepted
    ensures Write(r, token, entry)
         == Exchange(Remote(r.script[1..], r.logins, r.attempts + [Attempt(token, entry, true)], r.created + [entry.name]), token, Done)
  {
  }

  /** A write whose script begins with k rejected sessions, each followed by an
      accepted login, and then an accepted submission, succeeds: it consumes exactly
      those replies, logs in k times, submits k + 1 times with the tokens those logins
      handed out, and creates the entry once. */
  lemma {:induction false} WriteSucceedsAfter(r: Remote, token: Token, entry: VersionEntry, k: nat)
    requires AuthCycles(k) + [Accepted] <= r.script
    ensures var x := Write(r, token, entry);
      && x.status == Done
      && x.token == (if k == 0 then token else r.logins + k)
      && x.remote.script == r.script[2 * k + 1..]
      && x.remote.logins == r.logins + k
      && x.remote.attempts == r.attempts + RetryAttempts(token, r.logins, k, entry)
      && x.remote.created == r.created + [entry.name]
    decreases k
  {
    if k == 0 {
      AcceptedAtOnce(r, token, entry);
    } else {
      var r' := Remote(r.script[2..], r.logins + 1, r.attempts + [Attempt(token, entry, false)], r.created);
      assert AuthCycles(k - 1) + [Accepted] <= r'.script && Write(r, token, entry) == Write(r', r.logins + 1, entry) by {
        var cycles := AuthCycles(k) + [Accepted];
        assert cycles == [Rejected(AuthError), Accepted] + (AuthCycles(k - 1) + [Accepted]);
        assert r.script[0] == cycles[0] && r.script[1] == cycles[1];
        RetryRound(r, token, entry);
      }
      WriteSucceedsAfter(r', r.logins + 1, entry, k - 1);
      assert r'.script[2 * (k - 1) + 1..] == r.script[2 * k + 1..];
      assert r'.attempts + RetryAttempts(r.logins + 1, r'.logins, k - 1, entry)
          == r.attempts + RetryAttempts(token, r.logins, k, entry);
    }
  }

  /** The write loop ends normally exactly when the tracker eventually accepts the
      entry after some number of rejected sessions, each renewed by a successful
      login. */
  lemma {:induction false} WriteDoneIff(r: Remote, token: Token, entry: VersionEntry)
    ensures Write(r, token, entry).status == Done <==> exists k: nat :: AuthCycles(k) + [Accepted] <= r.script
    decreases |r.script|
  {
    if exists k: nat :: AuthCycles(k) + [Accepted] <= r.script {
      var k: nat :| AuthCycles(k) + [Accepted] <= r.script;
      WriteSucceedsAfter(r, token, entry, k);
    }
    if Write(r, token, entry).status == Done {
      var s := Submit(r, token, entry);
      if s.status == Done {
        assert AuthCycles(0) + [Accepted] <= r.script;
      } else {
        var l := Authenticate(s.remote);
        WriteDoneIff(l.remote, l.token, entry);
        var k: nat :| AuthCycles(k) + [Accepted] <= l.remote.script;
        assert r.script == [Rejected(AuthError), Accepted] + l.remote.script;
        assert AuthCycles(k + 1) + [Accepted] <= r.script;
      }
    }
  }

  /** Rejected sessions do not end the loop, however many there are: a tracker that
      keeps rejecting every renewed session keeps the loop going until nothing is left
      to answer, and nothing is created. */
  lemma {:induction false} PersistentAuthFailureStalls(r: Remote, token: Token, entry: VersionEntry, k: nat)
    requires r.script == AuthCycles(k)
    ensures Write(r, token, entry).status == Stalled
    ensures Write(r, token, entry).remote.created == r.created
    decreases k
  {
    if k > 0 {
      var l := Authenticate(Submit(r, token, entry).remote);
      assert l.remote.script == AuthCycles(k - 1);
      PersistentAuthFailureStalls(l.remote, l.token, entry, k - 1);
    }
  }

  /** Any rejection of a submission other than an authentication failure ends the
      loop at once with that exception, after however many renewed sessions came
      before it: no further login, no creation. */
  lemma {:induction false} OtherErrorEscapes(r: Remote, token: Token, entry: VersionEntry, k: nat, e: Error, rest: seq<Reply>)
    requires e != AuthError
    requires r.script == AuthCycles(k) + [Rejected(e)] + rest
    ensures var x := Write(r, token, entry);
      && x.status == Raised(e)
      && x.remote.script == rest
      && x.remote.logins == r.logins + k
      && |x.remote.attempts| == |r.attempts| + k + 1
      && x.remote.created == r.created
      && x.token == (if k == 0 then token else r.logins + k)
    decreases k
  {
    if k > 0 {
      var l := Authenticate(Submit(r, token, entry).remote);
      assert r.script == [Rejected(AuthError), Accepted] + (AuthCycles(k - 1) + [Rejected(e)] + rest);
      OtherErrorEscapes(l.remote, l.token, entry, k - 1, e, rest);
    }
  }

  /** A login that fails inside the loop is not retried, however many sessions were
      renewed before it: its exception leaves the loop, the token in hand stays the
      last one obtained, and the entry is not created. */
  lemma {:induction false} LoginFailureEscapes(r: Remote, token: Token, entry: VersionEntry, k: nat, e: Error, rest: seq<Reply>)
    requires r.script == AuthCycles(k) + [Rejected(AuthError), Rejected(e)] + rest
    ensures var x := Write(r, token, entry);
      && x.status == Raised(e)
      && x.remote.script == rest
      && x.remote.logins == r.logins + k + 1
      && |x.remote.attempts| == |r.attempts| + k + 1
      && x.remote.created == r.created
      && x.token == (if k == 0 then token else r.logins + k)
    decreases k
  {
    if k == 0 {
      assert r.script == [Rejected(AuthError), Rejected(e)] + rest;
      assert r.script[1..][1..] == rest;
    } else {
      var l := Authenticate(Submit(r, token, entry).remote);
      assert r.script == [Rejected(AuthError), Accepted] + (AuthCycles(k - 1) + [Rejected(AuthError), Rejected(e)] + rest);
      LoginFailureEscapes(l.remote, l.token, entry, k - 1, e, rest);
    }
  }
}
