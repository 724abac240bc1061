/** The local-inference supervisor `OllamaManager`
    (apps/desktop/electron/main/ollama-manager.ts).

    The manager holds at most one handle to an `ollama serve` child process.
    `start`, `stop` and the process's 'exit'/'error' events write that handle.
    What the outside world answers (`checkInstalled`, `getVersion`,
    `isRunning`, the identity `spawn` returns, the installer's exit code) is
    given to each operation as an oracle argument. Sleeps appear only as poll
    counts. */
module Ollama {
  import opened Wrappers
  import opened Text

  /** The identity of one spawned `ChildProcess` object. */
  type ProcessId = nat

  const MaxRetries: nat := 20
  const NotInstalledMessage := "Ollama is not installed"
  const StartFailedMessage := "Failed to start Ollama server"

  /* ---------------------------------------------------------------------
     The process handle and the child processes it is meant to control.
     --------------------------------------------------------------------- */

  /** `held` is the manager's `ollamaProcess`. `live` holds the spawned
      processes that have not exited yet, and `signalled` those sent SIGTERM. */
  datatype Handles = Handles(held: Option<ProcessId>, live: set<ProcessId>, signalled: set<ProcessId>)

  /** Every live child is either the held one, which `stop` can still
      terminate, or one already sent SIGTERM. No server is left running out
      of the manager's reach. */
  ghost predicate NoOrphan(h: Handles)
  {
    forall p :: p in h.live ==> h.held == Some(p) || p in h.signalled
  }

  /** With no orphan, at most one live child has not been asked to stop. */
  lemma AtMostOneUnsignalled(h: Handles)
    requires NoOrphan(h)
    ensures h.live - h.signalled <= (match h.held case Some(p) => {p} case None => {})
  {
  }

  /** The 'exit' and 'error' handlers as written (ollama-manager.ts:87-95):
      the handle is cleared whichever child the event came from. */
  function EndedAsWritten(h: Handles, child: ProcessId): (r: Handles)
    ensures r.held == None
    ensures r.live == h.live - {child} && r.signalled == h.signalled
  {
    Handles(None, h.live - {child}, h.signalled)
  }

  /** The handlers as intended: the handle is cleared only when the event
      comes from the held child. */
  function Ended(h: Handles, child: ProcessId): (r: Handles)
    ensures r.live == h.live - {child} && r.signalled == h.signalled
    ensures h.held == Some(child) ==> r.held == None
    ensures h.held != Some(child) ==> r.held == h.held
  {
    Handles(if h.held == Some(child) then None else h.held, h.live - {child}, h.signalled)
  }

  /** The intended handler keeps every live child within reach. */
  lemma EndedKeepsNoOrphan(h: Handles, child: ProcessId)
    requires NoOrphan(h)
    ensures NoOrphan(Ended(h, child))
  {
  }

  /** The handler as written breaks that: start child 0, stop it (SIGTERM,
      handle cleared), start child 1, and only then does child 0's 'exit'
      arrive. The handle to child 1 is dropped while child 1 still runs, so
      child 1 is out of `stop`'s reach from then on. */
  lemma LateExitOrphansServer()
    ensures var restarted := Handles(Some(1), {0, 1}, {0});
            && NoOrphan(restarted)
            && EndedAsWritten(restarted, 0).held == None
            && 1 in EndedAsWritten(restarted, 0).live
            && !NoOrphan(EndedAsWritten(restarted, 0))
            && NoOrphan(Ended(restarted, 0))
            && Ended(restarted, 0).held == Some(1)
  {
    var restarted := Handles(Some(1), {0, 1}, {0});
    assert 1 in EndedAsWritten(restarted, 0).live;
  }

  /* ---------------------------------------------------------------------
     The readiness loop of `start`.
     --------------------------------------------------------------------- */

  /** Some poll among the first MaxRetries reports the server live. */
  ghost predicate BecomesLive(liveAt: nat -> bool)
  {
    exists i :: 0 <= i < MaxRetries && liveAt(i)
  }

  /** The loop of `start` (ollama-manager.ts:98-107). Each round waits, then
      polls `isRunning`; `liveAt(i)` is the answer of poll i. It stops at the
      first live answer and gives up after MaxRetries polls. */
  method AwaitServer(liveAt: nat -> bool) returns (ready: bool, polls: nat)
    ensures 1 <= polls <= MaxRetries
    ensures ready <==> BecomesLive(liveAt)
    ensures ready ==> liveAt(polls - 1) && forall i :: 0 <= i < polls - 1 ==> !liveAt(i)
    ensures !ready ==> polls == MaxRetries
  {
    var retries := 0;
    while retries < MaxRetries
      invariant 0 <= retries <= MaxRetries
      invariant forall i :: 0 <= i < retries ==> !liveAt(i)
    {
      if liveAt(retries) {
        return true, retries + 1;
      }
      retries := retries + 1;
    }
    return false, MaxRetries;
  }

  /* ---------------------------------------------------------------------
     The manager.
     --------------------------------------------------------------------- */

  class OllamaManager {
    /** `ollamaProcess` */
    var process: Option<ProcessId>
    /** Children spawned so far, those not yet exited and those sent SIGTERM. */
    ghost var spawned: set<ProcessId>
    ghost var live: set<ProcessId>
    ghost var signalled: set<ProcessId>

    ghost function State(): Handles
      reads this
    {
      Handles(process, live, signalled)
    }

    /** The bookkeeping is consistent: only spawned children are live,
        signalled or held. Whether a live child has escaped the handle is
        `NoOrphan(State())`, which the code as written does not keep. */
    ghost predicate Valid()
      reads this
    {
      && live <= spawned
      && signalled <= spawned
      && (process.Some? ==> process.value in spawned)
    }

    /** `new OllamaManager()`: no handle. */
    constructor ()
      ensures Valid() && NoOrphan(State())
      ensures process == None && spawned == {} && live == {} && signalled == {}
    {
      process := None;
      spawned, live, signalled := {}, {}, {};
    }

    /** `start` (ollama-manager.ts:69-110). `installed` is what
        `checkInstalled` reports, `child` the fresh process `spawn` returns,
        `liveAt(i)` the answer of the i-th liveness poll. With a handle already
        held it returns at once. Without the binary it rejects and spawns
        nothing. Otherwise it spawns, holds the handle and polls; if no poll
        succeeds it rejects and leaves the child running and held. */
    method Start(installed: bool, child: ProcessId, liveAt: nat -> bool) returns (result: Outcome, polls: nat)
      requires Valid()
      requires child !in spawned
      modifies this
      ensures Valid()
      ensures old(NoOrphan(State())) ==> NoOrphan(State())
      ensures old(process).Some? ==>
        result == Pass && polls == 0 && State() == old(State()) && spawned == old(spawned)
      ensures old(process).None? && !installed ==>
        result == Fail(NotInstalledMessage) && polls == 0 && State() == old(State()) && spawned == old(spawned)
      ensures old(process).None? && installed ==>
        && process == Some(child)
        && spawned == old(spawned) + {child} && live == old(live) + {child} && signalled == old(signalled)
        && 1 <= polls <= MaxRetries
        && (result == Pass <==> BecomesLive(liveAt))
        && (result != Pass ==> result == Fail(StartFailedMessage) && polls == MaxRetries)
    {
      if process.Some? {
        return Pass, 0;
      }
      if !installed {
        return Fail(NotInstalledMessage), 0;
      }
      process := Some(child);
      spawned, live := spawned + {child}, live + {child};
      var ready;
      ready, polls := AwaitServer(liveAt);
      result := if ready then Pass else Fail(StartFailedMessage);
    }

    /** `stop` (ollama-manager.ts:112-121). With no handle it does nothing.
        Otherwise it sends SIGTERM to the held child once and clears the handle
        at once, without waiting for the child to exit. `sentTo` is the child
        signalled, if any. */
    method Stop() returns (sentTo: Option<ProcessId>)
      requires Valid()
      modifies this
      ensures Valid()
      ensures old(NoOrphan(State())) ==> NoOrphan(State())
      ensures sentTo == old(process)
      ensures process == None && live == old(live) && spawned == old(spawned)
      ensures signalled == old(signalled) + (match old(process) case Some(p) => {p} case None => {})
    {
      sentTo := process;
      match process {
        case Some(p) =>
          signalled := signalled + {p};
          process := None;
        case None =>
      }
    }

    /** A child's 'exit' or 'error' event, handled as the code does
        (ollama-manager.ts:87-95). It does not keep `NoOrphan`: see
        LateExitOrphansServer. */
    method ProcessEndedAsWritten(child: ProcessId)
      requires Valid() && child in spawned
      modifies this
      ensures Valid()
      ensures State() == EndedAsWritten(old(State()), child) && spawned == old(spawned)
    {
      live := live - {child};
      process := None;
    }

    /** A child's 'exit' or 'error' event, handled as intended: the handle
        is cleared only if it is that child's. */
    method ProcessEnded(child: ProcessId)
      requires Valid() && child in spawned
      modifies this
      ensures Valid()
      ensures old(NoOrphan(State())) ==> NoOrphan(State())
      ensures State() == Ended(old(State()), child) && spawned == old(spawned)
    {
      live := live - {child};
      if process == Some(child) {
        process := None;
      }
    }

    /** `ensureRunning` (ollama-manager.ts:240-245): `running` is what
        `isRunning` reports first. `start` is called only when it is false. */
    method EnsureRunning(running: bool, installed: bool, child: ProcessId, liveAt: nat -> bool)
      returns (result: Outcome, polls: nat)
      requires Valid()
      requires child !in spawned
      modifies this
      ensures Valid()
      ensures old(NoOrphan(State())) ==> NoOrphan(State())
      ensures running ==> result == Pass && polls == 0 && State() == old(State()) && spawned == old(spawned)
      ensures !running && old(process).Some? ==>
        result == Pass && polls == 0 && State() == old(State()) && spawned == old(spawned)
      ensures !running && old(process).None? && !installed ==>
        result == Fail(NotInstalledMessage) && polls == 0 && State() == old(State()) && spawned == old(spawned)
      ensures !running && old(process).None? && installed ==>
        && process == Some(child)
        && spawned == old(spawned) + {child} && live == old(live) + {child} && signalled == old(signalled)
        && 1 <= polls <= MaxRetries
        && (result == Pass <==> BecomesLive(liveAt))
        && (result != Pass ==> result == Fail(StartFailedMessage) && polls == MaxRetries)
    {
      if running {
        return Pass, 0;
      }
      result, polls := Start(installed, child, liveAt);
    }
  }

  /** Start child 0, stop it, start child 1, then deliver child 0's late
      'exit' through the handler as written: the manager is left with no
      handle while child 1 is live and was never signalled. From there
      `stop` signals nobody. The next `start` spawns child 2 and resolves,
      since child 1 answers the liveness polls; child 2 cannot bind the port
      child 1 holds and exits, and its 'exit' clears the handle once more.
      Child 1 keeps running and is never signalled. */
  method RestartThenLateExit()
    returns (m: OllamaManager, stopSent: Option<ProcessId>, restart: Outcome, heldAfterRestart: Option<ProcessId>)
    ensures stopSent == None
    ensures restart == Pass && heldAfterRestart == Some(2)
    ensures m.process == None
    ensures 1 in m.live && 1 !in m.signalled && 2 in m.spawned && 2 !in m.live
    ensures !NoOrphan(m.State())
  {
    var answering: nat -> bool := _ => true;
    assert answering(0);
    m := new OllamaManager();
    var r, polls := m.Start(true, 0, answering);
    var sent := m.Stop();
    r, polls := m.Start(true, 1, answering);
    m.ProcessEndedAsWritten(0);
    stopSent := m.Stop();
    restart, polls := m.Start(true, 2, answering);
    heldAfterRestart := m.process;
    m.ProcessEndedAsWritten(2);
  }

  /* ---------------------------------------------------------------------
     Status.
     --------------------------------------------------------------------- */

  datatype Status = Status(installed: bool, running: bool, version: Option<string>)

  /** The probes an operation makes, in order. */
  datatype Probe = CheckInstalled | GetVersion | IsRunning

  /** `getStatus` (ollama-manager.ts:123-140) on the probe answers. */
  function GetStatus(installed: bool, version: Option<string>, running: bool): (r: (Status, seq<Probe>))
    ensures r.0.running ==> r.0.installed
    ensures r.0.installed == installed
    ensures !installed ==> r.0 == Status(false, false, None) && r.1 == [CheckInstalled]
    ensures installed ==> r.0 == Status(true, running, version) && r.1 == [CheckInstalled, GetVersion, IsRunning]
  {
    if !installed then (Status(false, false, None), [CheckInstalled])
    else (Status(true, running, version), [CheckInstalled, GetVersion, IsRunning])
  }

  datatype Model = Model(name: string, size: int, modifiedAt: string)

  /** What a `fetch` to the Ollama API answered: a network failure, a non-OK
      status, or an OK status (with the `models` field of `GET /api/tags`). */
  datatype ApiResponse =
    | Unreachable(error: string)
    | NotOk(statusText: string)
    | Listed(models: Option<seq<Model>>)

  /** `listModels` (ollama-manager.ts:142-160): a missing `models` field is an
      empty list; a failure is rethrown. */
  function ListModels(response: ApiResponse): (r: Result<seq<Model>>)
    ensures response.Unreachable? ==> r == Err(response.error)
    ensures response.NotOk? ==> r == Err("Failed to list models: " + response.statusText)
    ensures response.Listed? ==> r.Ok? && (response.models.Some? ==> r.value == response.models.value)
    ensures response.Listed? && response.models.None? ==> r == Ok([])
  {
    match response
    case Unreachable(error) => Err(error)
    case NotOk(statusText) => Err("Failed to list models: " + statusText)
    case Listed(models) => Ok(match models case Some(ms) => ms case None => [])
  }

  /** `deleteModel` (ollama-manager.ts:218-238). */
  function DeleteModel(response: ApiResponse): (r: Outcome)
    ensures r == Pass <==> response.Listed?
    ensures response.NotOk? ==> r == Fail("Failed to delete model: " + response.statusText)
  {
    match response
    case Unreachable(error) => Fail(error)
    case NotOk(statusText) => Fail("Failed to delete model: " + statusText)
    case Listed(_) => Pass
  }

  /* ---------------------------------------------------------------------
     Installation.
     --------------------------------------------------------------------- */

  const ScriptDownloadMessage := "Téléchargement du script d'installation..."
  const DownloadingMessage := "Téléchargement en cours..."
  const InstallingMessage := "Installation en cours..."
  const StartingMessage := "Démarrage du service..."
  const InstalledMessage := "Installation terminée!"
  const OpeningPageMessage := "Ouverture du site de téléchargement..."
  const ManualInstallMessage := "Veuillez installer Ollama manuellement depuis le fichier téléchargé"
  const BinaryMissingMessage := "Installation completed but Ollama binary not found"
  const InstallScriptCommand := "curl -fsSL https://ollama.com/install.sh | sh"

  datatype OutputStream = Stdout | Stderr
  datatype OutputChunk = OutputChunk(stream: OutputStream, text: string)

  /** How the install script's child process ends: 'close' with an exit code
      (none when killed by a signal), or 'error'. */
  datatype InstallEnd = Closed(code: Option<int>) | SpawnError(message: string)

  /** The coarse progress message for one chunk of installer output
      (ollama-manager.ts:261-287). Only stdout reports "Starting". */
  function ScrapeOutput(chunk: OutputChunk): (r: Option<string>)
    ensures r.Some? ==> r.value in {DownloadingMessage, InstallingMessage, StartingMessage}
    ensures r == Some(DownloadingMessage) <==> Contains(chunk.text, "Downloading")
    ensures chunk.stream == Stderr ==> r != Some(StartingMessage)
  {
    if Contains(chunk.text, "Downloading") then Some(DownloadingMessage)
    else if Contains(chunk.text, "Installing") then Some(InstallingMessage)
    else if chunk.stream == Stdout && Contains(chunk.text, "Starting") then Some(StartingMessage)
    else None
  }

  /** The progress messages of a whole run of the script, in order: at most
      one per chunk, and only the three scraped ones. */
  function ScrapeAll(output: seq<OutputChunk>): (r: seq<string>)
    ensures |r| <= |output|
    ensures forall i :: 0 <= i < |r| ==> r[i] in {DownloadingMessage, InstallingMessage, StartingMessage}
  {
    if output == [] then []
    else (match ScrapeOutput(output[0]) case Some(m) => [m] case None => []) + ScrapeAll(output[1..])
  }

  /** `${code}` for the installer's exit code. */
  function CodeText(code: Option<int>): (r: string)
    ensures code.None? <==> r == "null"
    ensures code.Some? ==> |r| >= 1 && '0' <= r[|r| - 1] <= '9'
  {
    match code case Some(c) => IntToString(c) case None => "null"
  }

  /** What one `autoInstall` run did: its outcome, the progress messages it
      reported, the shell command it ran and how many times it called
      `checkInstalled`. */
  datatype InstallRun = InstallRun(outcome: Outcome, progress: seq<string>, command: string, checks: nat)

  /** `autoInstall` (ollama-manager.ts:247-364). `os` is `platform()`;
      `output` and `end` are what the Linux install script produced;
      `firstCheck` and `secondCheck` are the answers of the two verifying
      `checkInstalled` calls; `openError` is the failure of the command that
      opens the download page, if it failed. */
  function AutoInstall(os: string, output: seq<OutputChunk>, end: InstallEnd,
                       firstCheck: bool, secondCheck: bool, openError: Option<string>): (r: InstallRun)
    ensures r.checks <= 2
    ensures r.outcome == Pass <==> os == "linux" && end == Closed(Some(0)) && (firstCheck || secondCheck)
    ensures os == "linux" && end == Closed(Some(0)) ==>
      r.checks == (if firstCheck then 1 else 2)
      && (r.outcome.Fail? ==> r.outcome.message == BinaryMissingMessage)
    ensures os == "linux" && end.Closed? && end.code != Some(0) ==>
      r.outcome == Fail("Installation failed with code " + CodeText(end.code)) && r.checks == 0
    ensures os == "linux" && end.SpawnError? ==> r.outcome == Fail(end.message) && r.checks == 0
    ensures os == "linux" ==> r.command == "sh -c " + InstallScriptCommand
    ensures os == "darwin" || os == "win32" ==>
      && r.outcome.Fail? && r.checks == 0 && r.progress == [OpeningPageMessage]
      && (openError.None? ==> r.outcome == Fail(ManualInstallMessage))
    ensures os !in {"linux", "darwin", "win32"} ==>
      r == InstallRun(Fail("Système d'exploitation non supporté: " + os), [], "", 0)
  {
    if os == "linux" then
      var scraped := [ScriptDownloadMessage] + ScrapeAll(output);
      var command := "sh -c " + InstallScriptCommand;
      match end
      case SpawnError(message) => InstallRun(Fail(message), scraped, command, 0)
      case Closed(code) =>
        if code == Some(0) then
          var progress := scraped + [InstalledMessage];
          if firstCheck then InstallRun(Pass, progress, command, 1)
          else if secondCheck then InstallRun(Pass, progress, command, 2)
          else InstallRun(Fail(BinaryMissingMessage), progress, command, 2)
        else InstallRun(Fail("Installation failed with code " + CodeText(code)), scraped, command, 0)
    else if os == "darwin" || os == "win32" then
      var command := if os == "darwin" then "open https://ollama.com/download/mac"
                     else "start https://ollama.com/download/windows";
      var outcome := match openError case Some(e) => Fail(e) case None => Fail(ManualInstallMessage);
      InstallRun(outcome, [OpeningPageMessage], command, 0)
    else
      InstallRun(Fail("Système d'exploitation non supporté: " + os), [], "", 0)
  }

  /** Only a verified Linux install resolves; every other path rejects. */
  lemma InstallResolvesOnlyWhenVerified(os: string, output: seq<OutputChunk>, end: InstallEnd,
                                        firstCheck: bool, secondCheck: bool, openError: Option<string>)
    requires AutoInstall(os, output, end, firstCheck, secondCheck, openError).outcome == Pass
    ensures os == "linux" && end == Closed(Some(0))
    ensures AutoInstall(os, output, end, firstCheck, secondCheck, openError).checks >= 1
    ensures AutoInstall(os, output, end, firstCheck, secondCheck, openError).progress[0] == ScriptDownloadMessage
  {
  }
}
