/**
  The embedded stub server as far as the listener drives it. Request
  matching, stub file parsing and proxying stay abstract: a mapping source is
  a token naming where stubs came from.
 */
module Server {

  datatype RecordingStatus = NeverStarted | Recording | Stopped

  datatype MappingSource = DefaultMappings | StubDirectory(path: string)

  /** The server calls the listener issues, as recorded in the server's trace. */
  datatype Call =
    | Start
    | StartRecording(targetBaseUrl: string, transformers: seq<string>)
    | ResetMappings
    | LoadMappings(path: string)
    | ResetToDefaultMappings
    | StopRecording
    | Stop

  datatype ServerState = ServerState(running: bool, status: RecordingStatus, mappings: seq<MappingSource>)

  /** The effect of one call on the server's state. */
  function Exec(s: ServerState, c: Call): ServerState {
    match c
    case Start => s.(running := true)
    case StartRecording(_, _) => s.(status := Recording)
    case ResetMappings => s.(mappings := [])
    case LoadMappings(path) => s.(mappings := s.mappings + [StubDirectory(path)])
    case ResetToDefaultMappings => s.(mappings := [DefaultMappings])
    case StopRecording => s.(status := Stopped)
    case Stop => s.(running := false)
  }

  /** The effect of a sequence of calls, issued in order. */
  function Run(s: ServerState, calls: seq<Call>): ServerState
    decreases |calls|
  {
    if calls == [] then s else Run(Exec(s, calls[0]), calls[1..])
  }

  lemma RunOne(s: ServerState, c: Call)
    ensures Run(s, [c]) == Exec(s, c)
  {
    assert [c][1..] == [];
  }

  lemma RunTwo(s: ServerState, c: Call, d: Call)
    ensures Run(s, [c, d]) == Exec(Exec(s, c), d)
  {
    assert [c, d][1..] == [d];
    RunOne(Exec(s, c), d);
  }

  /** Calls that touch neither the running flag nor the recording status. */
  predicate MappingCall(c: Call) {
    c.ResetMappings? || c.LoadMappings? || c.ResetToDefaultMappings?
  }

  /** Mapping calls leave the server running (or not) and its recording status as they were. */
  lemma {:induction false} MappingCallsKeepStatus(s: ServerState, calls: seq<Call>)
    requires forall k :: 0 <= k < |calls| ==> MappingCall(calls[k])
    ensures Run(s, calls).running == s.running && Run(s, calls).status == s.status
    decreases |calls|
  {
    if calls != [] {
      assert MappingCall(calls[0]);
      MappingCallsKeepStatus(Exec(s, calls[0]), calls[1..]);
    }
  }

  /** A WireMockServer: its running flag, recording status and loaded mappings. */
  class MockServer {
    var running: bool
    var status: RecordingStatus
    var mappings: seq<MappingSource>
    /** Names of the StubMappingTransformer extensions the server was configured with. */
    const transformers: seq<string>
    /** Every call made on this server, oldest first. */
    ghost var trace: seq<Call>

    function State(): ServerState
      reads this
    {
      ServerState(running, status, mappings)
    }

    constructor (transformers: seq<string>)
      ensures State() == ServerState(false, NeverStarted, [DefaultMappings])
      ensures this.transformers == transformers && trace == []
    {
      running, status, mappings := false, NeverStarted, [DefaultMappings];
      this.transformers := transformers;
      trace := [];
    }

    method Start()
      modifies this
      ensures State() == Exec(old(State()), Call.Start) && trace == old(trace) + [Call.Start]
    {
      running := true;
      trace := trace + [Call.Start];
    }

    method StartRecording(targetBaseUrl: string, transformers: seq<string>)
      modifies this
      ensures State() == Exec(old(State()), Call.StartRecording(targetBaseUrl, transformers))
      ensures trace == old(trace) + [Call.StartRecording(targetBaseUrl, transformers)]
    {
      status := Recording;
      trace := trace + [Call.StartRecording(targetBaseUrl, transformers)];
    }

    method ResetMappings()
      modifies this
      ensures State() == Exec(old(State()), Call.ResetMappings) && trace == old(trace) + [Call.ResetMappings]
    {
      mappings := [];
      trace := trace + [Call.ResetMappings];
    }

    method LoadMappings(path: string)
      modifies this
      ensures State() == Exec(old(State()), Call.LoadMappings(path)) && trace == old(trace) + [Call.LoadMappings(path)]
    {
      mappings := mappings + [StubDirectory(path)];
      trace := trace + [Call.LoadMappings(path)];
    }

    method ResetToDefaultMappings()
      modifies this
      ensures State() == Exec(old(State()), Call.ResetToDefaultMappings)
      ensures trace == old(trace) + [Call.ResetToDefaultMappings]
    {
      mappings := [DefaultMappings];
      trace := trace + [Call.ResetToDefaultMappings];
    }

    method StopRecording()
      modifies this
      ensures State() == Exec(old(State()), Call.StopRecording) && trace == old(trace) + [Call.StopRecording]
    {
      status := Stopped;
      trace := trace + [Call.StopRecording];
    }

    method Stop()
      modifies this
      ensures State() == Exec(old(State()), Call.Stop) && trace == old(trace) + [Call.Stop]
    {
      running := false;
      trace := trace + [Call.Stop];
    }

    method GetRecordingStatus() returns (s: RecordingStatus)
      ensures s == status
    {
      s := status;
    }
  }
}
