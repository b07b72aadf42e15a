/** The synchronizer as it runs: the ledger `allVersions` is a list object that the
    phases append to in place, the session token is a local variable renewed by the
    retry loop, and the tracker is the `JiraService` object. Each method is proved to
    do exactly what the corresponding function of module Reconciliation (or
    Tracker.Write) says, so the properties proved there hold of these methods. */
module JiraVersions {
  import opened Names
  import opened Tracker
  import opened Reconciliation

  /** The list of known version names, shared by both phases of a run. */
  class VersionList {
    var items: seq<Name>

    constructor (seed: seq<Name>)
      ensures items == seed
    {
      items := seed;
    }

    method Add(name: Name)
      modifies this
      ensures items == old(items) + [name]
    {
      items := items + [name];
    }
  }

  /** The authentication-retry loop around `addVersion`: retried, with a fresh login,
      for as long as the tracker rejects the session; ended by success or by any other
      exception, including one thrown by the login. Returns the token held at the end. */
  method AddVersionRetrying(jira: JiraService, token: Token, entry: VersionEntry) returns (session: Token, status: Status)
    modifies jira
    ensures Exchange(jira.State(), session, status) == Write(old(jira.State()), token, entry)
  {
    ghost var goal := Write(jira.State(), token, entry);
    session, status := token, Done;
    var added := false;
    while !added
      invariant !added ==> Write(jira.State(), session, entry) == goal
      invariant added ==> Exchange(jira.State(), session, Done) == goal && status == Done
      decreases |jira.script|, !added
    {
      status := jira.AddVersion(session, entry);
      if status == Done {
        added := true;
      } else if status == Raised(AuthError) {
        var renewed, login := jira.Login();
        if login != Done {
          return session, login;
        }
        session := renewed;
      } else {
        return;
      }
    }
  }

  /** `addCoreVersions`: every core release not yet in the ledger is written and then
      appended to it; the first failure ends the phase. */
  method AddCoreVersions(jira: JiraService, token: Token, wars: seq<CoreRelease>, allVersions: VersionList)
    returns (status: Status)
    modifies jira, allVersions
    ensures var p := Reconcile(old(jira.State()), token, old(allVersions.items), CoreCandidates(wars));
      jira.State() == p.remote && allVersions.items == p.names && status == p.status
  {
    ghost var cs := CoreCandidates(wars);
    ghost var goal := Reconcile(jira.State(), token, allVersions.items, cs);
    var session := token;
    for i := 0 to |wars|
      invariant Reconcile(jira.State(), session, allVersions.items, cs[i..]) == goal
    {
      assert cs[i..][0] == cs[i] && cs[i..][1..] == cs[i + 1..];
      var current := wars[i];
      var coreVersion := CoreName(current.version);
      if coreVersion in allVersions.items {
        continue;
      }
      match current.timestamp {
        case Unreadable(e) =>
          return Raised(e);
        case Known(date) =>
          var entry := VersionEntry(coreVersion, true, date);
          var written;
          session, written := AddVersionRetrying(jira, session, entry);
          if written != Done {
            return written;
          }
          allVersions.Add(coreVersion);
      }
    }
    status := Done;
  }

  /** The releases of one plugin inside the per-plugin `try`: like the core loop, with
      plugin names, and handing back the token it ends with so that the next plugin
      uses it. */
  method AddPluginReleases(jira: JiraService, token: Token, artifacts: seq<Hpi>, allVersions: VersionList)
    returns (session: Token, outcome: Status)
    modifies jira, allVersions
    ensures Pass(jira.State(), session, allVersions.items, outcome)
         == Reconcile(old(jira.State()), token, old(allVersions.items), PluginCandidates(artifacts))
  {
    ghost var cs := PluginCandidates(artifacts);
    ghost var goal := Reconcile(jira.State(), token, allVersions.items, cs);
    session, outcome := token, Done;
    var j := 0;
    while j < |artifacts| && outcome == Done
      invariant 0 <= j <= |artifacts|
      invariant outcome == Done ==> Reconcile(jira.State(), session, allVersions.items, cs[j..]) == goal
      invariant outcome != Done ==> Pass(jira.State(), session, allVersions.items, outcome) == goal
      decreases |artifacts| - j
    {
      assert cs[j..][0] == cs[j] && cs[j..][1..] == cs[j + 1..];
      var current := artifacts[j];
      var pluginVersion := PluginName(current.artifactId, current.version);
      if pluginVersion !in allVersions.items {
        match current.timestamp {
          case Unreadable(e) =>
            outcome := Raised(e);
          case Known(date) =>
            var entry := VersionEntry(pluginVersion, true, date);
            session, outcome := AddVersionRetrying(jira, session, entry);
            if outcome == Done {
              allVersions.Add(pluginVersion);
            }
        }
      }
      j := j + 1;
    }
  }

  /** `addPluginVersions`: plugins in order; a deprecated plugin is skipped; the
      releases of the others are written like core releases, with one token for the
      whole phase. An I/O exception abandons the current plugin only; any other
      failure ends the phase. */
  method AddPluginVersions(jira: JiraService, token: Token, plugins: seq<PluginHistory>, allVersions: VersionList)
    returns (status: Status)
    modifies jira, allVersions
    ensures var p := PluginPhase(old(jira.State()), token, old(allVersions.items), plugins);
      jira.State() == p.remote && allVersions.items == p.names && status == p.status
  {
    ghost var goal := PluginPhase(jira.State(), token, allVersions.items, plugins);
    var session := token;
    for i := 0 to |plugins|
      invariant PluginPhase(jira.State(), session, allVersions.items, plugins[i..]) == goal
    {
      assert plugins[i..][0] == plugins[i] && plugins[i..][1..] == plugins[i + 1..];
      var hpi := plugins[i];
      var outcome := Done;
      match hpi.metadata {
        case Unavailable(e) =>
          outcome := Raised(e);
        case Listed(deprecated) =>
          if !deprecated {
            session, outcome := AddPluginReleases(jira, session, hpi.artifacts, allVersions);
          }
      }
      if !Recovered(outcome) {
        return outcome;
      }
    }
    status := Done;
  }

  /** `run()`: log in, seed the ledger with the names the tracker already lists, then
      the core phase and the plugin phase, both starting from the first login's token. */
  method Run(jira: JiraService, existing: seq<Name>, wars: seq<CoreRelease>, plugins: seq<PluginHistory>)
    returns (status: Status)
    modifies jira
    ensures var p := Synchronize(old(jira.State()), existing, wars, plugins);
      jira.State() == p.remote && status == p.status
  {
    var token, login := jira.Login();
    if login != Done {
      return login;
    }
    var allVersions := new VersionList(existing);
    status := AddCoreVersions(jira, token, wars, allVersions);
    if status != Done {
      return;
    }
    status := AddPluginVersions(jira, token, plugins, allVersions);
  }
}
