/** The server side of the Build123d viewer: the port a session's YACV server listens on,
    the indentation of the user's code inside the generated script, and the table of
    running YACV processes, one per session. */
module AppYacv {
  import opened Wrappers
  import opened Text

  const BasePort := 32323

  /** `32323 + hash(session_id) % 1000`; `sessionHash` is Python's `hash` of the id, which
      may be negative (Python's `%` with a positive divisor never is). */
  function YacvPort(sessionHash: int): (port: int)
    ensures BasePort <= port <= BasePort + 999
  {
    BasePort + sessionHash % 1000
  }

  /** The three places the port is written: the script's `YACV_PORT`, the child
      environment's `YACV_PORT` and the server URL returned to the browser. */
  datatype Launch = Launch(scriptPort: string, envPort: string, serverUrl: string)

  function LaunchFor(sessionHash: int): Launch
  {
    Launch(DecimalString(32323 + sessionHash % 1000),
           DecimalString(32323 + sessionHash % 1000),
           "http://localhost:" + DecimalString(32323 + sessionHash % 1000))
  }

  /** The user's code as it is inserted under the script's `try:`: every line prefixed
      with four spaces. */
  function IndentCode(code: string): (r: string)
  {
    var lines := Split(code, '\n');
    Join(seq(|lines|, i requires 0 <= i < |lines| => "    " + lines[i]), '\n')
  }

  /** Whether `execute_build123d` refuses the code with "No code provided". */
  predicate NoCode(code: string)
  {
    PyStrip(code) == []
  }

  type ProcessId = nat

  /** The answer of `execute_build123d`; `ExecuteFailed` is the 500 answer of its
      `except Exception` clause. */
  datatype ExecuteResponse =
    | NoCodeProvided
    | ScriptFailed
    | ExecuteFailed
    | Started(serverUrl: string, sessionId: string)

  /** What happens to the launch once the code is accepted: the temporary directory,
      the script file or the frontend copy fails (`SetupFailed`, before any process is
      touched), `Popen` raises after the old process was terminated (`SpawnFailed`), or
      the child `process` starts and `exited` says whether it stopped within the two
      seconds the handler waits. */
  datatype LaunchOutcome =
    | SetupFailed
    | SpawnFailed
    | Spawned(process: ProcessId, exited: bool)

  /** The answer of `stop_yacv_server`. */
  datatype StopResponse = Stopped | NoServerFound

  /** `yacv_processes` together with the processes the server has asked to terminate. */
  class ProcessTable {
    var processes: map<string, ProcessId>
    var terminated: seq<ProcessId>

    /** Each process in the table belongs to exactly one session. */
    ghost predicate Valid()
      reads this
    {
      Injective(processes)
    }

    /** No process in the table has been terminated. */
    ghost predicate AllLive()
      reads this
    {
      NoneTerminated(processes, terminated)
    }

    constructor ()
      ensures Valid() && AllLive() && processes == map[] && terminated == []
    {
      processes := map[];
      terminated := [];
    }

    /** `execute_build123d` as it acts on the table. `code` is the body's `code` (`""` when
        the key is missing) or `None` when `data.get("code", "").strip()` raises: the body
        is not an object or its `code` is not text. */
    method Execute(sessionId: string, code: Option<string>, sessionHash: int, outcome: LaunchOutcome)
      returns (r: ExecuteResponse)
      requires Valid()
      requires outcome.Spawned? ==> outcome.process !in processes.Values && outcome.process !in terminated
      modifies this
      ensures Valid()
      ensures old(AllLive()) && !outcome.SpawnFailed? ==> AllLive()
      ensures code.Some? && !NoCode(code.value) && outcome.SpawnFailed? && sessionId in old(processes) ==>
        sessionId in processes && processes[sessionId] in terminated
      ensures code.None? ==> r == ExecuteFailed && processes == old(processes) && terminated == old(terminated)
      ensures code.Some? && NoCode(code.value) ==>
        r == NoCodeProvided && processes == old(processes) && terminated == old(terminated)
      ensures code.Some? && !NoCode(code.value) && outcome.SetupFailed? ==>
        r == ExecuteFailed && processes == old(processes) && terminated == old(terminated)
      ensures code.Some? && !NoCode(code.value) && !outcome.SetupFailed? ==>
        terminated == old(terminated) + (if sessionId in old(processes) then [old(processes)[sessionId]] else [])
      ensures code.Some? && !NoCode(code.value) && outcome.SpawnFailed? ==>
        r == ExecuteFailed && processes == old(processes)
      ensures code.Some? && !NoCode(code.value) && outcome.Spawned? ==>
        processes == old(processes)[sessionId := outcome.process] && processes[sessionId] !in terminated
      ensures code.Some? && !NoCode(code.value) && outcome.Spawned? ==>
        r == if outcome.exited then ScriptFailed else Started(LaunchFor(sessionHash).serverUrl, sessionId)
    {
      if code.None? {
        return ExecuteFailed;
      }
      if NoCode(code.value) {
        return NoCodeProvided;
      }
      if outcome.SetupFailed? {
        return ExecuteFailed;
      }
      ghost var before, killed := processes, terminated;
      if sessionId in processes {
        terminated := terminated + [processes[sessionId]];
      }
      if outcome.SpawnFailed? {
        return ExecuteFailed;
      }
      RecordKeepsInjective(before, sessionId, outcome.process);
      if NoneTerminated(before, killed) {
        RecordKeepsLive(before, killed, sessionId, outcome.process);
      }
      processes := processes[sessionId := outcome.process];
      if outcome.exited {
        return ScriptFailed;
      }
      var port := 32323 + sessionHash % 1000;
      return Started("http://localhost:" + DecimalString(port), sessionId);
    }

    /** `stop_yacv_server`. */
    method Stop(sessionId: string) returns (r: StopResponse)
      requires Valid()
      modifies this
      ensures Valid()
      ensures old(AllLive()) ==> AllLive()
      ensures r == Stopped <==> sessionId in old(processes)
      ensures r == Stopped ==>
        processes == old(processes) - {sessionId} && terminated == old(terminated) + [old(processes)[sessionId]]
      ensures r == NoServerFound ==> processes == old(processes) && terminated == old(terminated)
    {
      if sessionId in processes {
        var process := processes[sessionId];
        terminated := terminated + [process];
        processes := processes - {sessionId};
        return Stopped;
      }
      return NoServerFound;
    }
  }

  /** No process belongs to two sessions. */
  predicate Injective(m: map<string, ProcessId>)
  {
    forall s, t :: s in m && t in m && s != t ==> m[s] != m[t]
  }

  /** No process of the table is among the terminated ones. */
  predicate NoneTerminated(m: map<string, ProcessId>, terminated: seq<ProcessId>)
  {
    forall s :: s in m ==> m[s] !in terminated
  }

  /** Recording a process no session owns keeps the table injective. */
  lemma RecordKeepsInjective(m: map<string, ProcessId>, session: string, p: ProcessId)
    requires Injective(m) && p !in m.Values
    ensures Injective(m[session := p])
  {
    var r := m[session := p];
    forall s, t | s in r && t in r && s != t ensures r[s] != r[t] {
      if s != session && t != session {
        assert r[s] == m[s] && r[t] == m[t];
      } else if s == session {
        assert m[t] in m.Values;
      } else {
        assert m[s] in m.Values;
      }
    }
  }

  /** Terminating the session's old process and recording a live new one keeps every
      process of the table live. */
  lemma RecordKeepsLive(m: map<string, ProcessId>, terminated: seq<ProcessId>, session: string, p: ProcessId)
    requires Injective(m) && NoneTerminated(m, terminated) && p !in m.Values && p !in terminated
    ensures NoneTerminated(m[session := p], terminated + (if session in m then [m[session]] else []))
  {
    var r, killed := m[session := p], terminated + (if session in m then [m[session]] else []);
    forall s | s in r ensures r[s] !in killed {
      if s == session {
        assert session in m ==> m[session] in m.Values;
      } else {
        assert r[s] == m[s] && r[s] !in terminated;
      }
    }
  }

  // ---------------------------------------------------------------- lemmas

  /** The script, the child environment and the returned URL all name the same port, and
      it lies in [32323, 33322]. */
  lemma LaunchPortsAgree(sessionHash: int)
    ensures LaunchFor(sessionHash).scriptPort == LaunchFor(sessionHash).envPort
    ensures LaunchFor(sessionHash).serverUrl == "http://localhost:" + LaunchFor(sessionHash).envPort
    ensures 32323 <= DecimalValue(LaunchFor(sessionHash).envPort) <= 33322
  {
    DecimalRoundTrip(YacvPort(sessionHash));
  }

  /** The indented code has one line per line of the original, each being that line
      after four spaces. */
  lemma IndentCodeLines(code: string)
    ensures |Split(IndentCode(code), '\n')| == |Split(code, '\n')|
    ensures forall i :: 0 <= i < |Split(code, '\n')| ==>
      Split(IndentCode(code), '\n')[i] == "    " + Split(code, '\n')[i]
  {
    var lines := Split(code, '\n');
    var indented := seq(|lines|, i requires 0 <= i < |lines| => "    " + lines[i]);
    forall k | 0 <= k < |indented| ensures '\n' !in indented[k] {
      assert '\n' !in lines[k];
      assert indented[k] == "    " + lines[k];
    }
    SplitJoin(indented, '\n');
  }
}
