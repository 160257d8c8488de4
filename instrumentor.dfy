/** The profiler: an `Instrumentor` holds at most one open session and
    buffers trace events for it; ending the session writes the buffered
    document to the session's file. The file is modelled as a log of the
    documents written, each with the path it went to; the lock, the clock
    and the JSON encoding are not modelled. */
module Instrumentors {
  import opened Wrappers

  /** A `ProfileResult`: a named interval on one thread. Times are the
      microsecond values the timer reads, not limited to whole numbers. */
  datatype ProfileResult = ProfileResult(name: string, start: real, end: real, threadId: int)

  /** One entry of `traceEvents`. */
  datatype TraceEvent = TraceEvent(cat: string, dur: real, name: string, ph: string,
                                   pid: int, tid: int, ts: real)

  /** The output document: `{}` with no session, or
      `{"otherData": {}, "traceEvents": [...]}` while one is open (its
      `otherData` is always empty). */
  datatype Output = NoOutput | Trace(traceEvents: seq<TraceEvent>)

  /** One `write_footer`: the document dumped and the path it was opened at. */
  datatype Written = Written(filepath: string, output: Output)

  /** The record `write_profile` builds: a complete ("X") event in category
      "function" of process 0, starting at the result's start and lasting
      until its end. */
  function EventRecord(result: ProfileResult): (e: TraceEvent)
    ensures e.cat == "function" && e.ph == "X" && e.pid == 0
    ensures e.name == result.name && e.tid == result.threadId
    ensures e.ts == result.start && e.ts + e.dur == result.end
  {
    TraceEvent("function", result.end - result.start, result.name, "X", 0, result.threadId, result.start)
  }

  /** The records of a sequence of results, in order. */
  function EventRecords(results: seq<ProfileResult>): (r: seq<TraceEvent>)
    ensures |r| == |results|
    ensures forall k :: 0 <= k < |results| ==> r[k] == EventRecord(results[k])
  {
    if |results| == 0 then [] else EventRecords(results[..|results| - 1]) + [EventRecord(results[|results| - 1])]
  }

  class Instrumentor {
    /** The name of the open session, if any. */
    var currentSession: Option<string>
    /** The path the open session's file was opened at. */
    var filepath: string
    var output: Output
    var written: seq<Written>

    /** A document exists exactly while a session is open. */
    predicate Valid()
      reads this
    {
      currentSession.Some? <==> output.Trace?
    }

    constructor ()
      ensures Valid() && currentSession == None && output == NoOutput && written == []
    {
      currentSession := None;
      filepath := "";
      output := NoOutput;
      written := [];
    }

    /** `write_header`: a fresh document with no events. */
    method WriteHeader()
      modifies this`output
      ensures output == Trace([])
    {
      output := Trace([]);
    }

    /** `begin_session(name, filepath)`: with a session open only a warning
        is printed and nothing changes; otherwise the file is opened, the
        session named and the document reset. */
    method BeginSession(name: string, path: string := "results.json")
      requires Valid()
      modifies this`currentSession, this`filepath, this`output
      ensures Valid()
      ensures old(currentSession).Some? ==>
                currentSession == old(currentSession) && filepath == old(filepath) && output == old(output)
      ensures old(currentSession).None? ==>
                currentSession == Some(name) && filepath == path && output == Trace([])
    {
      if currentSession.Some? {
        return;
      }
      filepath := path;
      currentSession := Some(name);
      WriteHeader();
    }

    /** `write_profile(result)`: while a session is open the result's record
        is appended to the events; otherwise it is dropped. */
    method WriteProfile(result: ProfileResult)
      requires Valid()
      modifies this`output
      ensures Valid()
      ensures currentSession.Some? ==> output == Trace(old(output).traceEvents + [EventRecord(result)])
      ensures currentSession.None? ==> output == old(output)
    {
      var event := EventRecord(result);
      if currentSession.Some? {
        output := Trace(output.traceEvents + [event]);
      }
    }

    /** `end_session`: with a session open, the document is written once to
        the session's file, the session is closed and the document emptied;
        with none, nothing happens. */
    method EndSession()
      requires Valid()
      modifies this`currentSession, this`output, this`written
      ensures Valid()
      ensures old(currentSession).Some? ==>
                written == old(written) + [Written(filepath, old(output))]
                && currentSession == None && output == NoOutput
      ensures old(currentSession).None? ==>
                written == old(written) && currentSession == None && output == old(output)
    {
      if currentSession.Some? {
        written := written + [Written(filepath, output)];
        currentSession := None;
        output := NoOutput;
      }
    }
  }

  /** The class attribute `Instrumentor.__instance`. */
  class InstrumentorRegistry {
    var instance: Instrumentor?

    predicate Valid()
      reads this, instance
    {
      instance != null ==> instance.Valid()
    }

    constructor ()
      ensures Valid() && instance == null
    {
      instance := null;
    }

    /** `Instrumentor.get()`: the instance, created on the first call. */
    method Get() returns (r: Instrumentor)
      requires Valid()
      modifies this
      ensures Valid() && r.Valid()
      ensures old(instance) != null ==> r == old(instance)
      ensures old(instance) == null ==> fresh(r) && r.currentSession == None && r.output == NoOutput && r.written == []
      ensures instance == r
    {
      if instance == null {
        instance := new Instrumentor();
      }
      r := instance;
    }
  }

  /** Every call of `Instrumentor.get()` returns the same instance. */
  method GetIsSingleton(registry: InstrumentorRegistry) returns (first: Instrumentor, second: Instrumentor)
    requires registry.Valid()
    modifies registry
    ensures first == second
  {
    first := registry.Get();
    second := registry.Get();
  }

  /** `HZ_PROFILE_BEGIN_SESSION(name, filepath)`, with the
      `INSTRUMENTATION_ENABLED` setting as a parameter. Disabled, nothing
      changes; enabled, `begin_session` runs on the single instance, which
      is created first when there is none. */
  method ProfileBeginSession(registry: InstrumentorRegistry, enabled: bool, name: string, path: string)
    requires registry.Valid()
    modifies registry, registry.instance
    ensures registry.Valid()
    ensures !enabled ==> unchanged(registry) && (registry.instance != null ==> unchanged(registry.instance))
    ensures enabled && old(registry.instance) == null ==>
              fresh(registry.instance) && registry.instance.written == []
    ensures enabled && old(registry.instance) != null ==>
              registry.instance == old(registry.instance)
              && registry.instance.written == old(registry.instance.written)
    ensures enabled && (old(registry.instance) == null || old(registry.instance.currentSession).None?) ==>
              registry.instance.currentSession == Some(name) && registry.instance.filepath == path
              && registry.instance.output == Trace([])
    ensures enabled && old(registry.instance) != null && old(registry.instance.currentSession).Some? ==>
              unchanged(registry.instance)
  {
    if !enabled {
      return;
    }
    var instrumentor := registry.Get();
    instrumentor.BeginSession(name, path);
  }

  /** `HZ_PROFILE_END_SESSION()`. Disabled, nothing changes; enabled,
      `end_session` runs on the single instance: an open session's document
      is written to its path, and a new or idle instance writes nothing. */
  method ProfileEndSession(registry: InstrumentorRegistry, enabled: bool)
    requires registry.Valid()
    modifies registry, registry.instance
    ensures registry.Valid()
    ensures !enabled ==> unchanged(registry) && (registry.instance != null ==> unchanged(registry.instance))
    ensures enabled && old(registry.instance) == null ==>
              fresh(registry.instance) && registry.instance.currentSession == None
              && registry.instance.output == NoOutput && registry.instance.written == []
    ensures enabled && old(registry.instance) != null ==> registry.instance == old(registry.instance)
    ensures enabled && old(registry.instance) != null && old(registry.instance.currentSession).Some? ==>
              registry.instance.written
              == old(registry.instance.written) + [Written(old(registry.instance.filepath), old(registry.instance.output))]
              && registry.instance.currentSession == None && registry.instance.output == NoOutput
              && registry.instance.filepath == old(registry.instance.filepath)
    ensures enabled && old(registry.instance) != null && old(registry.instance.currentSession).None? ==>
              unchanged(registry.instance)
  {
    if !enabled {
      return;
    }
    var instrumentor := registry.Get();
    instrumentor.EndSession();
  }

  /** Leaving a `HZ_PROFILE_SCOPE(name)` block, or a function wrapped by
      `HZ_PROFILE_FUNCTION`: when enabled, the timer reports the interval
      it measured, on thread 0, to the single instance, which keeps it only
      while a session is open; the null timer reports nothing. The two
      clock readings are parameters. */
  method ProfileScope(registry: InstrumentorRegistry, enabled: bool, name: string, start: real, end: real)
    requires registry.Valid()
    modifies registry, registry.instance
    ensures registry.Valid()
    ensures !enabled ==> unchanged(registry) && (registry.instance != null ==> unchanged(registry.instance))
    ensures enabled && old(registry.instance) == null ==>
              fresh(registry.instance) && registry.instance.currentSession == None
              && registry.instance.output == NoOutput && registry.instance.written == []
    ensures enabled && old(registry.instance) != null ==> registry.instance == old(registry.instance)
    ensures enabled && old(registry.instance) != null && old(registry.instance.currentSession).Some? ==>
              registry.instance.output
              == Trace(old(registry.instance.output).traceEvents + [EventRecord(ProfileResult(name, start, end, 0))])
              && registry.instance.currentSession == old(registry.instance.currentSession)
              && registry.instance.filepath == old(registry.instance.filepath)
              && registry.instance.written == old(registry.instance.written)
    ensures enabled && old(registry.instance) != null && old(registry.instance.currentSession).None? ==>
              unchanged(registry.instance)
  {
    if !enabled {
      return;
    }
    var instrumentor := registry.Get();
    instrumentor.WriteProfile(ProfileResult(name, start, end, 0));
  }

  /** One whole session: beginning it, reporting `results` in order and
      ending it writes exactly their records, in that order, to the
      session's file, and leaves no session open. */
  method SessionWritesItsEvents(name: string, path: string, results: seq<ProfileResult>)
    returns (dump: seq<Written>, closed: bool)
    ensures dump == [Written(path, Trace(EventRecords(results)))]
    ensures closed
  {
    var instrumentor := new Instrumentor();
    instrumentor.BeginSession(name, path);
    var i := 0;
    while i < |results|
      invariant 0 <= i <= |results|
      invariant instrumentor.currentSession == Some(name) && instrumentor.filepath == path
      invariant instrumentor.output == Trace(EventRecords(results[..i]))
      invariant instrumentor.written == []
    {
      assert results[..i + 1][..i] == results[..i];
      instrumentor.WriteProfile(results[i]);
      i := i + 1;
    }
    assert results[..i] == results;
    instrumentor.EndSession();
    dump := instrumentor.written;
    closed := instrumentor.currentSession.None?;
  }
}
