# jira-versions: version reconciliation and the authentication-retry write loop

The synchronizer reads the releases known to the Jenkins Maven repository (core wars
and plugin artifacts) and creates, in the `JENKINS` project of the issue tracker, a
version entry for each release the tracker does not yet list. This project models its
core in Dafny and proves what it does:

- **Canonical names** (module `Names`, `names.dfy`): a core release is filed as
  `jenkins-<version>`; a plugin release as its artifactId with one trailing `-plugin`
  removed, then `-<version>`.
- **The tracker** (module `Tracker`, `tracker.dfy`): the remote service is an oracle
  driven by a script of replies. Every remote call (`login` or `addVersion`) consumes
  the next reply. A call made when the script is exhausted never returns, and the run
  stalls. The service logs the logins, every `addVersion` attempt with its session
  token and whether it was accepted, and the names it created. `Write` is the authentication-retry loop as a
  function. `JiraService` is the client object the synchronizer drives.
- **The retry loop** (module `Retry`, `retry.dfy`): lemmas about `Write`. It ends
  normally exactly when the tracker accepts after some rounds of "session rejected,
  re-login accepted". Each rejection costs one login and one resubmission of the same
  entry with the new token. A login failure, and any rejection other than an
  authentication failure, leaves the loop. A tracker that keeps rejecting sessions
  keeps it going.
- **Reconciliation** (module `Reconciliation`, `reconcile.dfy`): the candidate loop,
  the per-plugin `try`, the plugin phase and the whole run as functions. Lemmas show
  the following. The ledger `allVersions` only grows, and it grows by exactly the
  names the tracker created. No name is created twice, and nothing the ledger held is
  submitted. A completed core phase covers every core release. A ledger that already
  holds every name it would submit makes a run submit nothing. Deprecated plugins,
  and plugins whose metadata read throws an I/O exception, contribute nothing. An I/O
  exception abandons only its own plugin and never ends the phase. Core names win
  over colliding plugin names.
- **The running program** (module `JiraVersions`, `jira_versions.dfy`): the ledger is
  a `VersionList` object appended to in place, and the token is a local variable. The
  methods `AddVersionRetrying`, `AddCoreVersions`, `AddPluginVersions` and `Run` have
  the source's loops; the loop over one plugin's releases is the method
  `AddPluginReleases`. Each is proved equal to its function in `Tracker` or
  `Reconciliation`, so the lemmas above hold of them.
- **Scenarios** (module `Scenarios`, `scenarios.dfy`): whole runs on small concrete
  inputs: one authentication failure, a core/plugin name collision, token hand-over
  between phases and between plugins, and a repeated name.

Error classes follow the Java types. The tracker's authentication exception derives
from `java.rmi.RemoteException` and therefore from `IOException`. So a login that fails
inside the plugin phase is caught by the per-plugin `catch (IOException e)`
(`Main.java:162`), like any other remote or I/O failure. A runtime failure
(`OtherError`) is not caught, and it ends the run.

Only a rejected session is retried. The retry loop catches
`RemoteAuthenticationException` alone (`Main.java:114`, `156`), so any other exception
of `addVersion` leaves the loop at once (`Retry.OtherErrorEscapes`). `loginToJira` is
called inside the `catch` handler (`Main.java:115`, `157`), so an exception of the
re-login is not caught by the same `try` either: it leaves the loop, whatever the
number of sessions renewed before it (`Retry.LoginFailureEscapes`).

## Model

| member | source | states |
|---|---|---|
| `Names.CoreName` | src/main/java/org/jenkinsci/jira_versions/Main.java:98 | the name of a core release is the prefix `jenkins-` followed by the version, and nothing else |
| `Names.CoreNameInjective` | src/main/java/org/jenkinsci/jira_versions/Main.java:98 | distinct core versions get distinct names |
| `Names.HasPluginSuffix` | src/main/java/org/jenkinsci/jira_versions/Main.java:139 | an artifactId matches `-plugin$` exactly when it is some stem followed by `-plugin` |
| `Names.StripPluginSuffix` | src/main/java/org/jenkinsci/jira_versions/Main.java:138-139 | an artifactId ending in `-plugin` is cut to the stem that, followed by `-plugin`, gives it back; any other artifactId is left as it is |
| `Names.StripAppendedSuffix` | src/main/java/org/jenkinsci/jira_versions/Main.java:139 | stripping removes exactly one trailing `-plugin` (`x-plugin-plugin` becomes `x-plugin`) |
| `Names.PluginName` | src/main/java/org/jenkinsci/jira_versions/Main.java:138-140 | defines a plugin release's name: the artifactId less one trailing `-plugin`, a dash, the version |
| `Names.PluginNameParts` | src/main/java/org/jenkinsci/jira_versions/Main.java:138-140 | a plugin release's name ends in `-` and the version, and what precedes is the artifactId itself or the artifactId less a trailing `-plugin` |
| `Names.PluginNameOfStem` | src/main/java/org/jenkinsci/jira_versions/Main.java:138-140 | `stem-plugin` and a suffix-free `stem` at version v are both named `stem-v` |
| `Names.NamingExamples` | src/main/java/org/jenkinsci/jira_versions/Main.java:98-140 | `1.410` gives `jenkins-1.410`; `foo-plugin` 1.2 gives `foo-1.2`; `bar` 3.0 gives `bar-3.0`; `x-plugin-plugin` 1.0 gives `x-plugin-1.0` |
| `Names.CorePluginCollision` | src/main/java/org/jenkinsci/jira_versions/Main.java:138-140 | the plugin `jenkins-plugin` names its releases exactly as core names the same versions |
| `Tracker.Authenticate` | src/main/java/org/jenkinsci/jira_versions/Main.java:80-90 | defines a login: one reply consumed, one more login counted; on acceptance the caller holds token k for the k-th login, otherwise the rejection is thrown and no session is held |
| `Tracker.Submit` | src/main/java/org/jenkinsci/jira_versions/Main.java:112 | defines one `addVersion` call: one reply consumed, the attempt logged with its token and whether it was accepted, the name created only on acceptance |
| `Tracker.Write` | src/main/java/org/jenkinsci/jira_versions/Main.java:109-117 | defines the retry loop: submit; on a rejected session log in and resubmit with the new token; end on acceptance, on any other exception, or on a failed login |
| `Tracker.JiraService.Login` | src/main/java/org/jenkinsci/jira_versions/Main.java:80-90 | a login consumes one reply and either yields a token no earlier login gave out or throws the rejection |
| `Tracker.JiraService.AddVersion` | src/main/java/org/jenkinsci/jira_versions/Main.java:112 | one `addVersion` call is logged with its token, its entry and whether it was accepted; the tracker creates the name only when it accepts |
| `Retry.WriteEffect` | src/main/java/org/jenkinsci/jira_versions/Main.java:109-118 | the loop only submits its own entry; only its last submission can be accepted; it creates that name exactly when it ends normally, and then it has made one login per resubmission |
| `Retry.AcceptedAtOnce` | src/main/java/org/jenkinsci/jira_versions/Main.java:112-113 | a submission accepted at once ends the loop after that one call, logged as accepted, the name created |
| `Retry.RetryRound` | src/main/java/org/jenkinsci/jira_versions/Main.java:110-116 | a rejected session followed by an accepted login returns to the top of the loop with one more failed attempt, one more login and the new token |
| `Retry.WriteSucceedsAfter` | src/main/java/org/jenkinsci/jira_versions/Main.java:109-117 | after k rejected sessions, each renewed by a successful login, and then an acceptance: exactly k logins, k+1 submissions with the successive tokens, one creation |
| `Retry.WriteDoneIff` | src/main/java/org/jenkinsci/jira_versions/Main.java:109-117 | the loop ends normally if and only if the tracker's replies are some rounds of "rejected, re-login accepted" followed by an acceptance |
| `Retry.PersistentAuthFailureStalls` | src/main/java/org/jenkinsci/jira_versions/Main.java:110-116 | no number of rejected sessions ends the loop; nothing is created while they last |
| `Retry.OtherErrorEscapes` | src/main/java/org/jenkinsci/jira_versions/Main.java:110-116 | after any number k of renewed sessions, a rejection other than an authentication failure ends the loop with that exception: k logins, k + 1 attempts, nothing created, the last token kept |
| `Retry.LoginFailureEscapes` | src/main/java/org/jenkinsci/jira_versions/Main.java:114-116 | after any number k of renewed sessions, a failing re-login is not retried: its exception leaves the loop after k + 1 logins and k + 1 attempts, the entry is not created, and the last token obtained is kept |
| `Reconciliation.CoreCandidates` | src/main/java/org/jenkinsci/jira_versions/Main.java:96-98 | the core releases in order, each under its core name |
| `Reconciliation.PluginCandidates` | src/main/java/org/jenkinsci/jira_versions/Main.java:135-140 | a plugin's releases in order, each under its plugin name |
| `Reconciliation.Reconcile` | src/main/java/org/jenkinsci/jira_versions/Main.java:96-119 | defines the candidate loop: skip a name already in the ledger, else read the date, write through the retry loop and append the name; the first failure ends the loop |
| `Reconciliation.PluginPass` | src/main/java/org/jenkinsci/jira_versions/Main.java:126-161 | defines the body of the per-plugin `try`: a metadata failure is raised, a deprecated plugin does nothing, otherwise its releases go through the candidate loop |
| `Reconciliation.PluginPhase` | src/main/java/org/jenkinsci/jira_versions/Main.java:125-166 | defines the plugin loop: an I/O exception moves on to the next plugin with the ledger and token as the failed plugin left them; any other failure ends the phase |
| `Reconciliation.Synchronize` | src/main/java/org/jenkinsci/jira_versions/Main.java:65-78 | defines a run: login, core phase, then plugin phase on the same ledger with the first login's token |
| `Reconciliation.ReconcileGrows` | src/main/java/org/jenkinsci/jira_versions/Main.java:96-119 | the ledger is append-only and becomes the old ledger followed by exactly the names the tracker created; no name is created twice or was already known; every submission carries a name absent from the ledger at that moment (not known before, not accepted earlier); every accepted name is in the ledger |
| `Reconciliation.ReconcileCovers` | src/main/java/org/jenkinsci/jira_versions/Main.java:96-119 | a loop that completes leaves every candidate's name in the ledger |
| `Reconciliation.ReconcileSkipsKnown` | src/main/java/org/jenkinsci/jira_versions/Main.java:100 | candidates whose names the ledger already holds cause no remote call and leave ledger and token unchanged |
| `Reconciliation.PluginPhaseGrows` | src/main/java/org/jenkinsci/jira_versions/Main.java:125-166 | the plugin phase keeps the ledger append-only and in step with the tracker, with no repeated creation and no resubmission of an accepted name, whichever plugins fail |
| `Reconciliation.PluginFailureContained` | src/main/java/org/jenkinsci/jira_versions/Main.java:125-166 | whatever the plugins and the tracker do, the plugin phase never ends with an I/O exception: it ends normally, stalls, or raises a non-I/O exception |
| `Reconciliation.InertPluginsIgnored` | src/main/java/org/jenkinsci/jira_versions/Main.java:126-133 | the phase behaves exactly as if deprecated plugins, and plugins whose metadata read throws an I/O exception, were absent |
| `Reconciliation.PluginPhaseSkipsKnown` | src/main/java/org/jenkinsci/jira_versions/Main.java:142 | when every release of every plugin that is neither deprecated nor unreadable is already known, the phase makes no remote call and leaves ledger and token unchanged |
| `Reconciliation.SynchronizeGrows` | src/main/java/org/jenkinsci/jira_versions/Main.java:65-78 | over a whole run nothing already in the tracker is submitted, no name the tracker accepted is submitted again, no name is created twice, and the ledger ends as the existing names followed by the created ones |
| `Reconciliation.SynchronizeIdempotent` | src/main/java/org/jenkinsci/jira_versions/Main.java:65-78 | a run against a tracker that lists every core release's name and the name of every release of each plugin that is neither deprecated nor unreadable makes only its login call and creates nothing |
| `Reconciliation.CoreNamesWin` | src/main/java/org/jenkinsci/jira_versions/Main.java:76-77 | once the core phase completes, no later submission carries a core release's name |
| `Scenarios.AuthRetryOnce` | src/main/java/org/jenkinsci/jira_versions/Main.java:109-118 | one rejected session: two logins in the run, the same entry submitted with token 1 then token 2, one creation |
| `Scenarios.CoreBeforePlugin` | src/main/java/org/jenkinsci/jira_versions/Main.java:76-77 | core `1.0` and plugin `jenkins-plugin` 1.0: `jenkins-1.0` is created once and only one submission is made |
| `Scenarios.PluginPhaseStartsWithFirstToken` | src/main/java/org/jenkinsci/jira_versions/Main.java:76-77 | a token renewed in the core phase is dropped; the plugin phase submits with the first login's token |
| `Scenarios.TokenKeptAcrossPlugins` | src/main/java/org/jenkinsci/jira_versions/Main.java:151-159 | a token renewed for one plugin is used for the next plugin |
| `Scenarios.RepeatedNameWrittenOnce` | src/main/java/org/jenkinsci/jira_versions/Main.java:100-118 | two releases with one name lead to exactly one submission and one ledger entry |
| `JiraVersions.VersionList.Add` | src/main/java/org/jenkinsci/jira_versions/Main.java:118 | a successful write appends its own name at the end of the ledger |
| `JiraVersions.AddVersionRetrying` | src/main/java/org/jenkinsci/jira_versions/Main.java:109-117 | the `while (!added)` loop leaves the tracker, token and outcome that `Tracker.Write` gives |
| `JiraVersions.AddCoreVersions` | src/main/java/org/jenkinsci/jira_versions/Main.java:92-120 | leaves the tracker, ledger and outcome that `Reconcile` over the core candidates gives |
| `JiraVersions.AddPluginReleases` | src/main/java/org/jenkinsci/jira_versions/Main.java:135-161 | the loop over one plugin's releases leaves the tracker, ledger, token and outcome that `Reconcile` over its candidates gives |
| `JiraVersions.AddPluginVersions` | src/main/java/org/jenkinsci/jira_versions/Main.java:122-168 | leaves the tracker, ledger and outcome that `PluginPhase` gives |
| `JiraVersions.Run` | src/main/java/org/jenkinsci/jira_versions/Main.java:65-78 | leaves the tracker and outcome that `Synchronize` gives: login, core phase, then plugin phase on the same ledger with the first token |

## Left out

- Command-line parsing, the usage message and the exit codes of `run(String[])` and `main` (`Main.java:47-63`): argument handling in a library.
- `createRepository` and the alpha/beta filter (`Main.java:170-175`): the core releases and plugin histories are inputs, given in the repository's iteration order and already filtered.
- `JIRA.connect` and the base URL (`Main.java:67`): the tracker client is the `JiraService` object.
- `getVersions` (`Main.java:71-74`): its result is the `existing` parameter of `Run`. A failure of that call is not modelled.
- Listing the wars and the plugin histories (`Main.java:93`, `125`): these reads are assumed to succeed. Reading plugin metadata and release dates can fail, and is modelled.
- The credentials file in `loginToJira` (`Main.java:81-88`): a login is one scripted remote reply.
- The project key `JENKINS`: there is one tracker project, so the key is not modelled.
- Release dates are plain integers, with no `Calendar` conversion.
- Progress printing and `printStackTrace`.
- The early `return` when there are no wars (`Main.java:94`): it gives the same result as the loop over no releases, so it is not a separate branch.
- Java's regular-expression `$`, which also matches before a final line terminator: the suffix strip is plain suffix removal.
- Unbounded retrying: the script of replies is finite, and a call made after it runs out stalls the run (`Status.Stalled`). A tracker that rejects sessions forever is a script that runs out (`Retry.PersistentAuthFailureStalls`).
- The retry loop appears twice in the source, once per phase (`Main.java:109-117`, `151-159`). Both phases here call one method, `AddVersionRetrying`.
