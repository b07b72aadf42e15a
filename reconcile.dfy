/** Version reconciliation: which releases get a tracker version entry, in what order,
    against the running list of known version names (the ledger). This module states
    the behaviour as functions and proves its properties; module JiraVersions runs it
    step by step. */
module Reconciliation {
  import opened Names
  import opened Tracker
  import Retry

  /** A release date as the repository reports it; reading it may fail. */
  datatype Timestamp = Known(date: int) | Unreadable(error: Error)

  /** A core (war) release in the repository. */
  datatype CoreRelease = CoreRelease(version: string, timestamp: Timestamp)

  /** One released artifact of a plugin. */
  datatype Hpi = Hpi(artifactId: string, version: string, timestamp: Timestamp)

  /** What the plugin documentation listing says of a plugin: whether it is
      deprecated, or the exception reading it threw. */
  datatype Metadata = Listed(deprecated: bool) | Unavailable(error: Error)

  /** A plugin with its released artifacts, in the repository's iteration order. */
  datatype PluginHistory = PluginHistory(artifactId: string, metadata: Metadata, artifacts: seq<Hpi>)

  /** A release in the tracker's namespace: its canonical name and its date. */
  datatype Candidate = Candidate(name: Name, timestamp: Timestamp)

  /** The state after a phase: the tracker, the session token in hand, the ledger,
      and how the phase ended. */
  datatype Pass = Pass(remote: Remote, token: Token, names: seq<Name>, status: Status)

  function CoreCandidates(wars: seq<CoreRelease>): (cs: seq<Candidate>)
    ensures |cs| == |wars|
    ensures forall i | 0 <= i < |wars| :: cs[i].name == CoreName(wars[i].version)
  {
    seq(|wars|, i requires 0 <= i < |wars| => Candidate(CoreName(wars[i].version), wars[i].timestamp))
  }

  function PluginCandidates(hpis: seq<Hpi>): (cs: seq<Candidate>)
    ensures |cs| == |hpis|
    ensures forall i | 0 <= i < |hpis| :: cs[i].name == PluginName(hpis[i].artifactId, hpis[i].version)
  {
    seq(|hpis|, i requires 0 <= i < |hpis| => Candidate(PluginName(hpis[i].artifactId, hpis[i].version), hpis[i].timestamp))
  }

  /** The candidates' loop of `addCoreVersions` and of each plugin in
      `addPluginVersions`: a candidate already in the ledger is skipped; otherwise its
      date is read, the entry is written through the retry loop, and its name is
      appended to the ledger once the write succeeded. Any failure ends the loop. */
  function Reconcile(r: Remote, token: Token, names: seq<Name>, cs: seq<Candidate>): (p: Pass)
    decreases |cs|
  {
    if cs == [] then Pass(r, token, names, Done)
    else if cs[0].name in names then Reconcile(r, token, names, cs[1..])
    else match cs[0].timestamp
      case Unreadable(e) => Pass(r, token, names, Raised(e))
      case Known(date) =>
        var x := Write(r, token, VersionEntry(cs[0].name, true, date));
        if x.status == Done then Reconcile(x.remote, x.token, names + [cs[0].name], cs[1..])
        else Pass(x.remote, x.token, names, x.status)
  }

  /** The body of the per-plugin `try`: a plugin whose metadata cannot be read fails;
      a deprecated plugin contributes nothing; otherwise its artifacts are reconciled. */
  function PluginPass(r: Remote, token: Token, names: seq<Name>, h: PluginHistory): (p: Pass)
  {
    match h.metadata
    case Unavailable(e) => Pass(r, token, names, Raised(e))
    case Listed(deprecated) =>
      if deprecated then Pass(r, token, names, Done)
      else Reconcile(r, token, names, PluginCandidates(h.artifacts))
  }

  /** Is a failure of one plugin caught, so that the run moves on to the next? */
  predicate Recovered(s: Status)
  {
    s == Done || (s.Raised? && IsIOException(s.error))
  }

  /** `addPluginVersions`: the plugins in order, one token for the whole phase
      (renewed in place by the retry loop); an I/O exception abandons the plugin it
      occurred in, any other failure ends the phase. */
  function PluginPhase(r: Remote, token: Token, names: seq<Name>, plugins: seq<PluginHistory>): (p: Pass)
    decreases |plugins|
  {
    if plugins == [] then Pass(r, token, names, Done)
    else
      var p := PluginPass(r, token, names, plugins[0]);
      if Recovered(p.status) then PluginPhase(p.remote, p.token, p.names, plugins[1..])
      else p
  }

  /** `run()`: log in, seed the ledger with the tracker's existing version names,
      reconcile core releases, then plugins against the same ledger. The plugin
      phase starts from the token of the first login, not from one the core phase
      renewed. */
  function Synchronize(r: Remote, existing: seq<Name>, wars: seq<CoreRelease>, plugins: seq<PluginHistory>): (p: Pass)
  {
    var l := Authenticate(r);
    if l.status != Done then Pass(l.remote, l.token, existing, l.status)
    else
      var c := Reconcile(l.remote, l.token, existing, CoreCandidates(wars));
      if c.status != Done then c
      else PluginPhase(c.remote, l.token, c.names, plugins)
  }

  // ---------------------------------------------------------------------------
  // The ledger

  predicate NoDuplicates(s: seq<Name>)
  {
    forall i, j | 0 <= i < j < |s| :: s[i] != s[j]
  }

  /** No submission repeats a name the tracker has already accepted. */
  predicate NoResubmission(attempts: seq<Attempt>)
  {
    forall i, j | 0 <= i < j < |attempts| && attempts[i].accepted :: attempts[j].entry.name != attempts[i].entry.name
  }

  /** How a phase may change the ledger and the tracker: the tracker's records only
      grow; the ledger is the old ledger followed by exactly the names the tracker
      created, none of them created twice and none already known; every submission
      carried a name absent from the ledger when it was made (not known beforehand,
      and not accepted earlier in the phase); and every accepted name is in the
      ledger. */
  predicate Grows(r: Remote, names: seq<Name>, p: Pass)
  {
    && r.created <= p.remote.created
    && r.attempts <= p.remote.attempts
    && p.names == names + p.remote.created[|r.created|..]
    && NoDuplicates(p.remote.created[|r.created|..])
    && (forall n | n in p.remote.created[|r.created|..] :: n !in names)
    && (forall a | a in p.remote.attempts[|r.attempts|..] :: a.entry.name !in names)
    && NoResubmission(p.remote.attempts[|r.attempts|..])
    && (forall a | a in p.remote.attempts[|r.attempts|..] && a.accepted :: a.entry.name in p.names)
  }

  lemma GrowsUnchanged(r: Remote, token: Token, names: seq<Name>, s: Status)
    ensures Grows(r, names, Pass(r, token, names, s))
  {
  }

  lemma GrowsTransitive(r: Remote, names: seq<Name>, p: Pass, q: Pass)
    requires Grows(r, names, p) && Grows(p.remote, p.names, q)
    ensures Grows(r, names, q)
  {
    var n1, n2 := p.remote.created[|r.created|..], q.remote.created[|p.remote.created|..];
    assert q.remote.created[|r.created|..] == n1 + n2;
    var a1: seq<Attempt>, a2: seq<Attempt> := p.remote.attempts[|r.attempts|..], q.remote.attempts[|p.remote.attempts|..];
    assert q.remote.attempts[|r.attempts|..] == a1 + a2;
    forall i, j | 0 <= i < j < |n1 + n2|
      ensures (n1 + n2)[i] != (n1 + n2)[j]
    {
      if i < |n1| && |n1| <= j {
        assert (n1 + n2)[i] in p.names;
        assert (n1 + n2)[j] in n2;
      }
    }
    forall i, j | 0 <= i < j < |a1 + a2| && (a1 + a2)[i].accepted
      ensures (a1 + a2)[j].entry.name != (a1 + a2)[i].entry.name
    {
      if i < |a1| && |a1| <= j {
        assert (a1 + a2)[i] in a1 && (a1 + a2)[i].entry.name in p.names;
        assert (a1 + a2)[j] in a2;
      }
    }
  }

  /** One write through the retry loop, for a name the ledger does not hold. */
  lemma WriteGrows(r: Remote, token: Token, names: seq<Name>, entry: VersionEntry)
    requires entry.name !in names
    ensures var x := Write(r, token, entry);
      Grows(r, names, Pass(x.remote, x.token, names + (if x.status == Done then [entry.name] else []), x.status))
  {
    Retry.WriteEffect(r, token, entry);
    var x := Write(r, token, entry);
    assert x.remote.created[|r.created|..] == if x.status == Done then [entry.name] else [];
    var a := x.remote.attempts[|r.attempts|..];
    forall i | 0 <= i < |a| && a[i].accepted
      ensures i == |a| - 1 && x.status == Done
    {
      assert x.remote.attempts[|r.attempts| + i] == a[i];
    }
  }

  /** The reconciler's loop keeps the ledger append-only, in step with what the tracker
      created, and free of repeated submissions. */
  lemma {:induction false} ReconcileGrows(r: Remote, token: Token, names: seq<Name>, cs: seq<Candidate>)
    ensures Grows(r, names, Reconcile(r, token, names, cs))
    decreases |cs|
  {
    if cs == [] {
      GrowsUnchanged(r, token, names, Done);
    } else if cs[0].name in names {
      ReconcileGrows(r, token, names, cs[1..]);
    } else {
      match cs[0].timestamp
      case Unreadable(e) =>
        GrowsUnchanged(r, token, names, Raised(e));
      case Known(date) =>
        var entry := VersionEntry(cs[0].name, true, date);
        var x := Write(r, token, entry);
        WriteGrows(r, token, names, entry);
        if x.status == Done {
          var p := Pass(x.remote, x.token, names + [cs[0].name], Done);
          ReconcileGrows(x.remote, x.token, p.names, cs[1..]);
          GrowsTransitive(r, names, p, Reconcile(x.remote, x.token, p.names, cs[1..]));
        }
    }
  }

  /** A completed loop leaves every candidate's name in the ledger. */
  lemma {:induction false} ReconcileCovers(r: Remote, token: Token, names: seq<Name>, cs: seq<Candidate>)
    ensures var p := Reconcile(r, token, names, cs);
      p.status == Done ==> forall c | c in cs :: c.name in p.names
    decreases |cs|
  {
    if cs != [] {
      var p := Reconcile(r, token, names, cs);
      if cs[0].name in names {
        ReconcileCovers(r, token, names, cs[1..]);
        ReconcileGrows(r, token, names, cs[1..]);
      } else if cs[0].timestamp.Known? {
        var x := Write(r, token, VersionEntry(cs[0].name, true, cs[0].timestamp.date));
        if x.status == Done {
          ReconcileCovers(x.remote, x.token, names + [cs[0].name], cs[1..]);
          ReconcileGrows(x.remote, x.token, names + [cs[0].name], cs[1..]);
        }
      }
      if p.status == Done {
        forall c | c in cs ensures c.name in p.names {
          if c != cs[0] { assert c in cs[1..]; }
        }
      }
    }
  }

  predicate AllKnown(cs: seq<Candidate>, names: seq<Name>)
  {
    forall c | c in cs :: c.name in names
  }

  /** When every candidate is already in the ledger, the loop makes no remote call
      and leaves the ledger and the token as they were. */
  lemma {:induction false} ReconcileSkipsKnown(r: Remote, token: Token, names: seq<Name>, cs: seq<Candidate>)
    requires AllKnown(cs, names)
    ensures Reconcile(r, token, names, cs) == Pass(r, token, names, Done)
    decreases |cs|
  {
    if cs != [] {
      assert cs[0] in cs;
      ReconcileSkipsKnown(r, token, names, cs[1..]);
    }
  }

  // ---------------------------------------------------------------------------
  // The plugin phase

  lemma PluginPassGrows(r: Remote, token: Token, names: seq<Name>, h: PluginHistory)
    ensures Grows(r, names, PluginPass(r, token, names, h))
  {
    var p := PluginPass(r, token, names, h);
    if h.metadata.Listed? && !h.metadata.deprecated {
      ReconcileGrows(r, token, names, PluginCandidates(h.artifacts));
    } else {
      GrowsUnchanged(r, token, names, p.status);
    }
  }

  /** The plugin phase keeps the ledger append-only, in step with what the tracker
      created, and free of repeated submissions, whichever plugins fail. */
  lemma {:induction false} PluginPhaseGrows(r: Remote, token: Token, names: seq<Name>, plugins: seq<PluginHistory>)
    ensures Grows(r, names, PluginPhase(r, token, names, plugins))
    decreases |plugins|
  {
    if plugins == [] {
      GrowsUnchanged(r, token, names, Done);
    } else {
      var p := PluginPass(r, token, names, plugins[0]);
      PluginPassGrows(r, token, names, plugins[0]);
      if Recovered(p.status) {
        PluginPhaseGrows(p.remote, p.token, p.names, plugins[1..]);
        GrowsTransitive(r, names, p, PluginPhase(p.remote, p.token, p.names, plugins[1..]));
      }
    }
  }

  /** An I/O exception never ends the plugin phase: it abandons only the plugin it
      occurred in and the phase goes on with the next one. The phase therefore ends
      normally, stalls, or raises an exception that is not an I/O exception. */
  lemma {:induction false} PluginFailureContained(r: Remote, token: Token, names: seq<Name>, plugins: seq<PluginHistory>)
    ensures var p := PluginPhase(r, token, names, plugins);
      p.status.Raised? ==> !IsIOException(p.status.error)
    decreases |plugins|
  {
    if plugins != [] {
      var p := PluginPass(r, token, names, plugins[0]);
      if Recovered(p.status) {
        PluginFailureContained(p.remote, p.token, p.names, plugins[1..]);
      }
    }
  }

  /** A plugin that makes no remote call and leaves nothing behind: a deprecated one,
      or one whose metadata read throws an I/O exception. */
  predicate Inert(h: PluginHistory)
  {
    h.metadata == Listed(true) || (h.metadata.Unavailable? && IsIOException(h.metadata.error))
  }

  function Contributing(plugins: seq<PluginHistory>): (active: seq<PluginHistory>)
    ensures forall h | h in active :: h in plugins && !Inert(h)
    decreases |plugins|
  {
    if plugins == [] then []
    else if Inert(plugins[0]) then Contributing(plugins[1..])
    else [plugins[0]] + Contributing(plugins[1..])
  }

  /** Deprecated plugins, and plugins whose metadata cannot be read for an I/O
      reason, contribute nothing: the phase behaves as if they were not in the
      repository at all. */
  lemma {:induction false} InertPluginsIgnored(r: Remote, token: Token, names: seq<Name>, plugins: seq<PluginHistory>)
    ensures PluginPhase(r, token, names, plugins) == PluginPhase(r, token, names, Contributing(plugins))
    decreases |plugins|
  {
    if plugins != [] {
      var p := PluginPass(r, token, names, plugins[0]);
      if Inert(plugins[0]) {
        InertPluginsIgnored(r, token, names, plugins[1..]);
      } else {
        var active := Contributing(plugins);
        assert active[0] == plugins[0] && active[1..] == Contributing(plugins[1..]);
        if Recovered(p.status) {
          InertPluginsIgnored(p.remote, p.token, p.names, plugins[1..]);
        }
      }
    }
  }

  /** When the ledger already holds the name of every release of every plugin that
      is neither deprecated nor unreadable, the phase makes no remote call and leaves
      the ledger and the token as they were. */
  lemma {:induction false} PluginPhaseSkipsKnown(r: Remote, token: Token, names: seq<Name>, plugins: seq<PluginHistory>)
    requires forall h | h in plugins && h.metadata == Listed(false) :: AllKnown(PluginCandidates(h.artifacts), names)
    ensures var p := PluginPhase(r, token, names, plugins);
      p.remote == r && p.token == token && p.names == names
    decreases |plugins|
  {
    if plugins != [] {
      var h := plugins[0];
      assert h in plugins;
      if h.metadata == Listed(false) {
        ReconcileSkipsKnown(r, token, names, PluginCandidates(h.artifacts));
      }
      PluginPhaseSkipsKnown(r, token, names, plugins[1..]);
    }
  }

  // ---------------------------------------------------------------------------
  // The whole run

  /** A run keeps the ledger append-only and in step with what the tracker created:
      nothing already in the tracker is submitted, and no name is created twice. */
  lemma SynchronizeGrows(r: Remote, existing: seq<Name>, wars: seq<CoreRelease>, plugins: seq<PluginHistory>)
    ensures Grows(r, existing, Synchronize(r, existing, wars, plugins))
  {
    var l := Authenticate(r);
    var c := Reconcile(l.remote, l.token, existing, CoreCandidates(wars));
    var lp := Pass(l.remote, l.token, existing, l.status);
    GrowsUnchanged(r, l.token, existing, l.status);
    assert Grows(r, existing, lp);
    if l.status == Done {
      ReconcileGrows(l.remote, l.token, existing, CoreCandidates(wars));
      GrowsTransitive(r, existing, lp, c);
      if c.status == Done {
        PluginPhaseGrows(c.remote, l.token, c.names, plugins);
        GrowsTransitive(r, existing, c, PluginPhase(c.remote, l.token, c.names, plugins));
      }
    }
  }

  /** Idempotence: a run whose tracker already lists the name of every core release
      and of every release of each plugin that is neither deprecated nor unreadable
      submits nothing and creates nothing; it only logs in once. */
  lemma SynchronizeIdempotent(r: Remote, existing: seq<Name>, wars: seq<CoreRelease>, plugins: seq<PluginHistory>)
    requires AllKnown(CoreCandidates(wars), existing)
    requires forall h | h in plugins && h.metadata == Listed(false) :: AllKnown(PluginCandidates(h.artifacts), existing)
    ensures var p := Synchronize(r, existing, wars, plugins);
      p.remote == Authenticate(r).remote && p.names == existing
  {
    var l := Authenticate(r);
    if l.status == Done {
      ReconcileSkipsKnown(l.remote, l.token, existing, CoreCandidates(wars));
      PluginPhaseSkipsKnown(l.remote, l.token, existing, plugins);
    }
  }

  /** Core releases come first: once the core phase has completed, no plugin release
      whose name equals a core release's name is ever submitted. */
  lemma CoreNamesWin(r: Remote, existing: seq<Name>, wars: seq<CoreRelease>, plugins: seq<PluginHistory>)
    ensures var l := Authenticate(r);
      var c := Reconcile(l.remote, l.token, existing, CoreCandidates(wars));
      var p := Synchronize(r, existing, wars, plugins);
      l.status == Done && c.status == Done ==>
        && c.remote.attempts <= p.remote.attempts
        && forall a, w | a in p.remote.attempts[|c.remote.attempts|..] && w in wars :: a.entry.name != CoreName(w.version)
  {
    var l := Authenticate(r);
    var c := Reconcile(l.remote, l.token, existing, CoreCandidates(wars));
    if l.status == Done && c.status == Done {
      ReconcileCovers(l.remote, l.token, existing, CoreCandidates(wars));
      PluginPhaseGrows(c.remote, l.token, c.names, plugins);
      var cs := CoreCandidates(wars);
      forall w | w in wars ensures CoreName(w.version) in c.names {
        var i :| 0 <= i < |wars| && wars[i] == w;
        assert cs[i] in cs;
      }
    }
  }
}
