/** The browser-side log store of `client/src/services/logger.ts`: a bounded FIFO of
    structured entries that evicts its oldest entry once it holds more than 1000. */
module ClientLogger {
  import opened Wrappers

  datatype LogLevel = Debug | Info | Warn | Error

  /** The caller's optional `data` payload, kept as string-keyed fields. */
  datatype Payload = Payload(fields: map<string, string>)

  /** One log record; the ISO time stamp and the captured stack arrive as opaque text. */
  datatype LogEntry = LogEntry(
    timestamp: string,
    level: LogLevel,
    message: string,
    data: Option<Payload>,
    trace: Option<string>)

  /** The `maxLogs` bound of the store. */
  const MaxLogs: nat := 1000

  /** The buffer after `addLog(e)` on a store of capacity `cap`: push, then shift once
      if the buffer is over capacity. */
  function Push(buf: seq<LogEntry>, e: LogEntry, cap: nat): (r: seq<LogEntry>)
    ensures |buf| <= cap ==> |r| <= cap
    ensures |buf| < cap ==> r == buf + [e]
    ensures 0 < cap == |buf| ==> r == buf[1..] + [e]
    ensures 0 < cap ==> r != [] && r[|r| - 1] == e
  {
    var pushed := buf + [e];
    if |pushed| > cap then pushed[1..] else pushed
  }

  /** The last `min(|history|, cap)` entries of `history`, in order. */
  function Retained(history: seq<LogEntry>, cap: nat): (r: seq<LogEntry>)
  {
    if |history| <= cap then history else history[|history| - cap..]
  }

  /** The buffer after appending every entry of `history`, one by one, to `buf`. */
  function Replay(buf: seq<LogEntry>, history: seq<LogEntry>, cap: nat): seq<LogEntry>
    decreases |history|
  {
    if history == [] then buf
    else Replay(Push(buf, history[0], cap), history[1..], cap)
  }

  /** One append keeps the buffer equal to the most recent `cap` appends. */
  lemma PushRetains(history: seq<LogEntry>, e: LogEntry, cap: nat)
    ensures Push(Retained(history, cap), e, cap) == Retained(history + [e], cap)
  {
    var h := history + [e];
    if |history| < cap {
      assert Retained(h, cap) == h;
    } else if |history| == cap {
      assert Retained(history, cap) == history;
    } else {
      var buf := history[|history| - cap..];
      if cap == 0 {
        assert Push(buf, e, cap) == [];
      } else {
        assert (buf + [e])[1..] == h[|h| - cap..];
      }
    }
  }

  /** From an empty store, any sequence of appends leaves exactly the most recent
      `min(n, cap)` entries, in insertion order. */
  lemma {:induction false} ReplayRetains(done: seq<LogEntry>, history: seq<LogEntry>, cap: nat)
    ensures Replay(Retained(done, cap), history, cap) == Retained(done + history, cap)
    decreases |history|
  {
    if history == [] {
      assert done + history == done;
    } else {
      var next := done + [history[0]];
      PushRetains(done, history[0], cap);
      assert Replay(Retained(done, cap), history, cap)
             == Replay(Retained(next, cap), history[1..], cap);
      ReplayRetains(next, history[1..], cap);
      assert next + history[1..] == done + history;
    }
  }

  lemma ReplayFromEmpty(history: seq<LogEntry>, cap: nat)
    ensures Replay([], history, cap) == Retained(history, cap)
    ensures |Replay([], history, cap)| == if |history| <= cap then |history| else cap
  {
    ReplayRetains([], history, cap);
    assert [] + history == history;
  }

  function Messages(entries: seq<LogEntry>): (r: seq<string>)
    ensures |r| == |entries|
    ensures forall i :: 0 <= i < |entries| ==> r[i] == entries[i].message
  {
    seq(|entries|, i requires 0 <= i < |entries| => entries[i].message)
  }

  /** With capacity 3, appending "a", "b", "c", "d" keeps "b", "c", "d". */
  lemma CapacityBoundaryScenario(t: string)
    ensures
      var a := FormatMessage(Info, "a", None, t, None);
      var b := FormatMessage(Info, "b", None, t, None);
      var c := FormatMessage(Info, "c", None, t, None);
      var d := FormatMessage(Info, "d", None, t, None);
      Messages(Replay([], [a, b, c, d], 3)) == ["b", "c", "d"]
  {
    var a := FormatMessage(Info, "a", None, t, None);
    var b := FormatMessage(Info, "b", None, t, None);
    var c := FormatMessage(Info, "c", None, t, None);
    var d := FormatMessage(Info, "d", None, t, None);
    ReplayFromEmpty([a, b, c, d], 3);
    assert Retained([a, b, c, d], 3) == [b, c, d];
  }

  /** `formatMessage`: stamp the entry with the given time and captured trace. */
  function FormatMessage(level: LogLevel, message: string, data: Option<Payload>,
                         now: string, trace: Option<string>): (e: LogEntry)
    ensures e.level == level && e.message == message && e.data == data
    ensures e.timestamp == now && e.trace == trace
  {
    LogEntry(now, level, message, data, trace)
  }

  /** The mirroring flags follow `NODE_ENV`: console in development, remote in production. */
  function ConsoleMirroring(nodeEnv: string): bool { nodeEnv == "development" }
  function RemoteMirroring(nodeEnv: string): bool { nodeEnv == "production" }

  /** The singleton log store. `appended` is every entry added since the last clear;
      `remoteQueue` is every entry handed to the fire-and-forget remote sender. */
  class Logger {
    var logs: seq<LogEntry>
    ghost var appended: seq<LogEntry>
    var remoteQueue: seq<LogEntry>
    const logToConsole: bool
    const logToRemote: bool

    ghost predicate Valid()
      reads this
    {
      && logs == Retained(appended, MaxLogs)
      && !(logToConsole && logToRemote)
    }

    constructor (nodeEnv: string)
      ensures Valid()
      ensures logs == [] && appended == [] && remoteQueue == []
      ensures logToConsole == ConsoleMirroring(nodeEnv)
      ensures logToRemote == RemoteMirroring(nodeEnv)
    {
      logs := [];
      appended := [];
      remoteQueue := [];
      logToConsole := ConsoleMirroring(nodeEnv);
      logToRemote := RemoteMirroring(nodeEnv);
    }

    /** `sendToRemote`: does nothing unless remote mirroring is on. */
    method SendToRemote(entry: LogEntry)
      modifies this`remoteQueue
      ensures remoteQueue == old(remoteQueue) + (if logToRemote then [entry] else [])
    {
      if logToRemote {
        remoteQueue := remoteQueue + [entry];
      }
    }

    /** `addLog`: push, evict the oldest beyond `maxLogs`, then mirror. */
    method AddLog(entry: LogEntry)
      requires Valid()
      modifies this
      ensures Valid()
      ensures logs == Push(old(logs), entry, MaxLogs)
      ensures |old(logs)| < MaxLogs ==> logs == old(logs) + [entry]
      ensures |old(logs)| == MaxLogs ==> logs == old(logs)[1..] + [entry]
      ensures |logs| <= MaxLogs
      ensures appended == old(appended) + [entry]
      ensures remoteQueue == old(remoteQueue) + (if logToRemote then [entry] else [])
    {
      PushRetains(appended, entry, MaxLogs);
      logs := logs + [entry];
      if |logs| > MaxLogs {
        logs := logs[1..];
      }
      appended := appended + [entry];
      SendToRemote(entry);
    }

    method Log(level: LogLevel, message: string, data: Option<Payload>,
               now: string, trace: Option<string>)
      requires Valid()
      modifies this
      ensures Valid()
      ensures logs == Push(old(logs), LogEntry(now, level, message, data, trace), MaxLogs)
      ensures appended == old(appended) + [LogEntry(now, level, message, data, trace)]
      ensures logs[|logs| - 1] == LogEntry(now, level, message, data, trace)
      ensures remoteQueue == old(remoteQueue)
                             + (if logToRemote then [LogEntry(now, level, message, data, trace)] else [])
    {
      AddLog(FormatMessage(level, message, data, now, trace));
    }

    method LogDebug(message: string, data: Option<Payload>, now: string, trace: Option<string>)
      requires Valid()
      modifies this
      ensures Valid()
      ensures logs == Push(old(logs), LogEntry(now, Debug, message, data, trace), MaxLogs)
      ensures appended == old(appended) + [LogEntry(now, Debug, message, data, trace)]
      ensures remoteQueue == old(remoteQueue)
                             + (if logToRemote then [LogEntry(now, Debug, message, data, trace)] else [])
    {
      Log(Debug, message, data, now, trace);
    }

    method LogInfo(message: string, data: Option<Payload>, now: string, trace: Option<string>)
      requires Valid()
      modifies this
      ensures Valid()
      ensures logs == Push(old(logs), LogEntry(now, Info, message, data, trace), MaxLogs)
      ensures appended == old(appended) + [LogEntry(now, Info, message, data, trace)]
      ensures remoteQueue == old(remoteQueue)
                             + (if logToRemote then [LogEntry(now, Info, message, data, trace)] else [])
    {
      Log(Info, message, data, now, trace);
    }

    method LogWarn(message: string, data: Option<Payload>, now: string, trace: Option<string>)
      requires Valid()
      modifies this
      ensures Valid()
      ensures logs == Push(old(logs), LogEntry(now, Warn, message, data, trace), MaxLogs)
      ensures appended == old(appended) + [LogEntry(now, Warn, message, data, trace)]
      ensures remoteQueue == old(remoteQueue)
                             + (if logToRemote then [LogEntry(now, Warn, message, data, trace)] else [])
    {
      Log(Warn, message, data, now, trace);
    }

    method LogError(message: string, data: Option<Payload>, now: string, trace: Option<string>)
      requires Valid()
      modifies this
      ensures Valid()
      ensures logs == Push(old(logs), LogEntry(now, Error, message, data, trace), MaxLogs)
      ensures appended == old(appended) + [LogEntry(now, Error, message, data, trace)]
      ensures remoteQueue == old(remoteQueue)
                             + (if logToRemote then [LogEntry(now, Error, message, data, trace)] else [])
    {
      Log(Error, message, data, now, trace);
    }

    /** `getLogs`: a copy of the buffer; the store is not touched. */
    method GetLogs() returns (snapshot: seq<LogEntry>)
      requires Valid()
      ensures snapshot == logs == Retained(appended, MaxLogs)
    {
      snapshot := logs;
    }

    /** `clearLogs`: the buffer becomes empty, whatever it held. */
    method ClearLogs()
      requires Valid()
      modifies this`logs, this`appended
      ensures Valid()
      ensures logs == [] && appended == []
    {
      logs := [];
      appended := [];
    }
  }

  /** The mirroring flags are never both on. */
  lemma MirroringExclusive(nodeEnv: string)
    ensures !(ConsoleMirroring(nodeEnv) && RemoteMirroring(nodeEnv))
  {
  }

  /** Starting from empty, `info("boot")` then `error("fail", {code: 500})` leaves two
      entries with those levels, messages and data, in that order; clearing twice leaves
      the store empty. */
  method BootThenFailScenario(t1: string, t2: string, trace: Option<string>)
  {
    var logger := new Logger("production");
    var code := Payload(map["code" := "500"]);
    logger.LogInfo("boot", None, t1, trace);
    logger.LogError("fail", Some(code), t2, trace);
    var entries := logger.GetLogs();
    assert |entries| == 2;
    assert entries[0].level == Info && entries[0].message == "boot" && entries[0].data == None;
    assert entries[1].level == Error && entries[1].message == "fail" && entries[1].data == Some(code);
    assert |logger.remoteQueue| == 2;
    logger.ClearLogs();
    logger.ClearLogs();
    entries := logger.GetLogs();
    assert entries == [];
  }
}
