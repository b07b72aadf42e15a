/** Whole runs on small, concrete repositories and tracker replies: one renewed
    session, a core/plugin name collision, the token handed from phase to phase and
    from plugin to plugin, and a name that occurs twice. */
module Scenarios {
  import opened Names
  import opened Tracker
  import opened Reconciliation
  import Retry

  /** A session rejected once: one re-login, the same entry resubmitted with the new
      token, one creation, two logins in the whole run. */
  lemma AuthRetryOnce()
    ensures var e := VersionEntry("jenkins-1.410", true, 7);
      var p := Synchronize(Remote([Accepted, Rejected(AuthError), Accepted, Accepted], 0, [], []),
                           [], [CoreRelease("1.410", Known(7))], []);
      && p.status == Done
      && p.remote.logins == 2
      && p.remote.attempts == [Attempt(1, e, false), Attempt(2, e, true)]
      && p.remote.created == ["jenkins-1.410"]
      && p.names == ["jenkins-1.410"]
  {
    var r := Remote([Accepted, Rejected(AuthError), Accepted, Accepted], 0, [], []);
    var e := VersionEntry("jenkins-1.410", true, 7);
    var l := Authenticate(r);
    assert l.remote.script == [Rejected(AuthError), Accepted, Accepted] && l.token == 1;
    assert Retry.AuthCycles(1) + [Accepted] <= l.remote.script;
    Retry.WriteSucceedsAfter(l.remote, l.token, e, 1);
    assert CoreName("1.410") == "jenkins-1.410";
    var cs := CoreCandidates([CoreRelease("1.410", Known(7))]);
    assert cs == [Candidate("jenkins-1.410", Known(7))];
    assert cs[1..] == [];
  }

  /** A core release and a plugin release with the same name: the core entry is
      created, the plugin entry is then skipped; one write in all. */
  lemma CoreBeforePlugin()
    ensures var p := Synchronize(Remote([Accepted, Accepted], 0, [], []), [],
                                 [CoreRelease("1.0", Known(1))],
                                 [PluginHistory("jenkins-plugin", Listed(false), [Hpi("jenkins-plugin", "1.0", Known(2))])]);
      && p.status == Done
      && p.remote.created == ["jenkins-1.0"]
      && |p.remote.attempts| == 1
      && p.names == ["jenkins-1.0"]
  {
    CorePluginCollision("1.0");
    assert CoreName("1.0") == "jenkins-1.0";
    var cs := CoreCandidates([CoreRelease("1.0", Known(1))]);
    assert cs == [Candidate("jenkins-1.0", Known(1))] && cs[1..] == [];
    var ps := PluginCandidates([Hpi("jenkins-plugin", "1.0", Known(2))]);
    assert ps == [Candidate("jenkins-1.0", Known(2))] && ps[1..] == [];
  }

  /** The token the core phase renewed is not handed on: the plugin phase submits
      with the token of the run's first login. */
  lemma PluginPhaseStartsWithFirstToken()
    ensures var p := Synchronize(Remote([Accepted, Rejected(AuthError), Accepted, Accepted, Accepted], 0, [], []), [],
                                 [CoreRelease("1.410", Known(7))],
                                 [PluginHistory("foo-plugin", Listed(false), [Hpi("foo-plugin", "1.2", Known(8))])]);
      && p.status == Done
      && |p.remote.attempts| == 3
      && p.remote.attempts[1].token == 2
      && p.remote.attempts[2] == Attempt(1, VersionEntry("foo-1.2", true, 8), true)
  {
  }

  /** Within the plugin phase the renewed token is kept: after a re-login for one
      plugin, the next plugin submits with the new token. */
  lemma TokenKeptAcrossPlugins()
    ensures var p := PluginPhase(Remote([Rejected(AuthError), Accepted, Accepted, Accepted], 1, [], []), 1, [],
                                 [PluginHistory("foo", Listed(false), [Hpi("foo", "1.0", Known(1))]),
                                  PluginHistory("bar", Listed(false), [Hpi("bar", "2.0", Known(2))])]);
      && p.status == Done
      && p.token == 2
      && p.remote.attempts
         == [Attempt(1, VersionEntry("foo-1.0", true, 1), false), Attempt(2, VersionEntry("foo-1.0", true, 1), true),
             Attempt(2, VersionEntry("bar-2.0", true, 2), true)]
      && p.names == ["foo-1.0", "bar-2.0"]
  {
    var r := Remote([Rejected(AuthError), Accepted, Accepted, Accepted], 1, [], []);
    var e := VersionEntry("foo-1.0", true, 1);
    var eb := VersionEntry("bar-2.0", true, 2);
    var fs := PluginCandidates([Hpi("foo", "1.0", Known(1))]);
    var bs := PluginCandidates([Hpi("bar", "2.0", Known(2))]);
    var x1 := Write(r, 1, e);
    assert x1 == Exchange(Remote([Accepted], 2, [Attempt(1, e, false), Attempt(2, e, true)], ["foo-1.0"]), 2, Done) by {
      assert Retry.AuthCycles(1) + [Accepted] <= r.script;
      Retry.WriteSucceedsAfter(r, 1, e, 1);
      assert r.script[3..] == [Accepted];
    }
    var x2 := Write(x1.remote, 2, eb);
    assert x2 == Exchange(Remote([], 2, x1.remote.attempts + [Attempt(2, eb, true)], ["foo-1.0", "bar-2.0"]), 2, Done);
    assert Reconcile(r, 1, [], fs) == Pass(x1.remote, 2, ["foo-1.0"], Done) by {
      assert !HasPluginSuffix("foo") && PluginName("foo", "1.0") == "foo-1.0";
      assert fs == [Candidate("foo-1.0", Known(1))] && fs[1..] == [];
    }
    assert Reconcile(x1.remote, 2, ["foo-1.0"], bs) == Pass(x2.remote, 2, ["foo-1.0", "bar-2.0"], Done) by {
      assert !HasPluginSuffix("bar") && PluginName("bar", "2.0") == "bar-2.0";
      assert bs == [Candidate("bar-2.0", Known(2))] && bs[1..] == [];
    }
  }

  /** Two releases that share a name: exactly one create call. */
  lemma RepeatedNameWrittenOnce(r: Remote, name: Name, d1: int, d2: int)
    requires r.script == [Accepted] && r.created == [] && r.attempts == []
    ensures var p := Reconcile(r, 1, [], [Candidate(name, Known(d1)), Candidate(name, Known(d2))]);
      && p.status == Done
      && p.remote.attempts == [Attempt(1, VersionEntry(name, true, d1), true)]
      && p.remote.created == [name]
      && p.names == [name]
  {
    var cs := [Candidate(name, Known(d1)), Candidate(name, Known(d2))];
    var e := VersionEntry(name, true, d1);
    var x := Write(r, 1, e);
    assert x == Exchange(Remote([], r.logins, [Attempt(1, e, true)], [name]), 1, Done);
    assert cs[1..] == [Candidate(name, Known(d2))] && cs[1..][1..] == [];
    assert Reconcile(x.remote, 1, [name], cs[1..]) == Pass(x.remote, 1, [name], Done);
  }
}
