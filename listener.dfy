/**
  The test execution listener: it reads @WireMockTest from the test class,
  publishes the server's properties, and drives the server through the test
  lifecycle hooks. Each hook's server calls are given by a pure "calls"
  function; the hook methods issue exactly those calls, and the lemmas below
  follow a whole test class through them.
 */
module Listener {
  import opened Annotation
  import opened Server
  import opened PropertySource

  /** How a hook ends: normally, or with the bean lookup failing for want of a server bean. */
  datatype Outcome = Completed | NoSuchBean

  /**
    The stub directory for one test method: the class's stubPath, extended by
    "/" and the method's stubPath when the method is annotated too.
   */
  function EffectiveStubPath(classAnnotation: WireMockTest, methodAnnotation: Option<WireMockTest>): (path: string)
    ensures |classAnnotation.stubPath| <= |path| && path[..|classAnnotation.stubPath|] == classAnnotation.stubPath
    ensures methodAnnotation.None? ==> path == classAnnotation.stubPath
    ensures methodAnnotation.Some? ==>
      path[|classAnnotation.stubPath|..] == "/" + methodAnnotation.value.stubPath
  {
    var stubPath := classAnnotation.stubPath;
    if methodAnnotation.Some? then stubPath + "/" + methodAnnotation.value.stubPath else stubPath
  }

  /** The properties published for a class, merged into the existing ones when it is annotated. */
  function InjectedProperties(classAnnotation: Option<WireMockTest>, existing: seq<string>, freePort: nat): (r: seq<string>)
    requires freePort > 0
    ensures classAnnotation.None? ==> r == existing
  {
    match classAnnotation
    case None => existing
    case Some(a) => Merged(existing, PropertyList(a.stubPath, ChoosePort(a.port, freePort), a.ribbonServices), [])
  }

  /** A hook that looks the server bean up fails when the class is annotated and there is no bean. */
  function LookupOutcome(annotation: Option<WireMockTest>, beanPresent: bool): Outcome {
    if annotation.Some? && !beanPresent then NoSuchBean else Completed
  }

  predicate RecordRequested(a: WireMockTest) {
    a.record && a.targetBaseUrl != ""
  }

  /** prepareTestInstance: start the server, then start recording when asked to. */
  function PrepareCalls(annotation: Option<WireMockTest>, transformers: seq<string>): (calls: seq<Call>)
    ensures annotation.None? ==> calls == []
  {
    match annotation
    case None => []
    case Some(a) =>
      if RecordRequested(a) then [Call.Start, Call.StartRecording(a.targetBaseUrl, transformers)] else [Call.Start]
  }

  /** beforeTestMethod: unless recording, clear the mappings and load the method's stubs. */
  function BeforeMethodCalls(annotation: Option<WireMockTest>, methodAnnotation: Option<WireMockTest>, status: RecordingStatus): (calls: seq<Call>)
    ensures annotation.None? || status == Recording ==> calls == []
  {
    match annotation
    case None => []
    case Some(a) =>
      var path := EffectiveStubPath(a, methodAnnotation);
      if status == Recording then []
      else if path != "" then [Call.ResetMappings, Call.LoadMappings(path)]
      else [Call.ResetMappings]
  }

  /** afterTestMethod: unless recording, go back to the default mappings. */
  function AfterMethodCalls(annotation: Option<WireMockTest>, status: RecordingStatus): (calls: seq<Call>)
    ensures annotation.None? || status == Recording ==> calls == []
  {
    if annotation.None? || status == Recording then [] else [Call.ResetToDefaultMappings]
  }

  /** afterTestClass: when a server bean exists, stop recording if recording, then stop. */
  function AfterClassCalls(annotation: Option<WireMockTest>, beanPresent: bool, status: RecordingStatus): (calls: seq<Call>)
    ensures annotation.None? || !beanPresent ==> calls == []
  {
    if annotation.None? || !beanPresent then []
    else if status == Recording then [Call.StopRecording, Call.Stop]
    else [Call.Stop]
  }

  class WireMockListener {
    /** The class's @WireMockTest, None when the class has none. */
    var wireMockAnnotation: Option<WireMockTest>

    constructor ()
      ensures wireMockAnnotation == None
    {
      wireMockAnnotation := None;
    }

    /**
      beforeTestClass: remember the class's annotation and, when there is one,
      merge the server's properties into the configuration. freePort stands
      for the free port the network lookup would return.
     */
    method BeforeTestClass(classAnnotation: Option<WireMockTest>, configuration: MergedContextConfiguration, freePort: nat)
      requires freePort > 0
      modifies this, configuration
      ensures wireMockAnnotation == classAnnotation
      ensures configuration.propertySourceProperties
        == InjectedProperties(classAnnotation, old(configuration.propertySourceProperties), freePort)
    {
      wireMockAnnotation := classAnnotation;
      if classAnnotation.None? {
        return;
      }
      var properties := BuildProperties(classAnnotation.value, freePort);
      AddPropertySourceProperties(configuration, properties);
    }

    method AddPropertySourceProperties(configuration: MergedContextConfiguration, properties: seq<string>)
      modifies configuration
      ensures configuration.propertySourceProperties
        == Merged(old(configuration.propertySourceProperties), properties, [])
    {
      var writer := new MergedContextConfigurationProperties(configuration);
      writer.Add(properties, []);
    }

    /** prepareTestInstance; bean is the server bean of the application context, null when there is none. */
    method PrepareTestInstance(bean: MockServer?) returns (outcome: Outcome)
      modifies bean
      ensures outcome == LookupOutcome(wireMockAnnotation, bean != null)
      ensures bean != null ==>
        bean.trace == old(bean.trace) + PrepareCalls(wireMockAnnotation, bean.transformers)
        && bean.State() == Run(old(bean.State()), PrepareCalls(wireMockAnnotation, bean.transformers))
    {
      if wireMockAnnotation.None? {
        return Completed;
      }
      if bean == null {
        return NoSuchBean;
      }
      var a := wireMockAnnotation.value;
      ghost var before := bean.State();
      bean.Start();
      if a.record && a.targetBaseUrl != "" {
        bean.StartRecording(a.targetBaseUrl, bean.transformers);
        RunTwo(before, Call.Start, Call.StartRecording(a.targetBaseUrl, bean.transformers));
      } else {
        RunOne(before, Call.Start);
      }
      outcome := Completed;
    }

    /** beforeTestMethod; methodAnnotation is the test method's own @WireMockTest, if any. */
    method BeforeTestMethod(methodAnnotation: Option<WireMockTest>, bean: MockServer?) returns (outcome: Outcome)
      modifies bean
      ensures outcome == LookupOutcome(wireMockAnnotation, bean != null)
      ensures bean != null ==>
        bean.trace == old(bean.trace) + BeforeMethodCalls(wireMockAnnotation, methodAnnotation, old(bean.status))
        && bean.State() == Run(old(bean.State()), BeforeMethodCalls(wireMockAnnotation, methodAnnotation, old(bean.status)))
    {
      if wireMockAnnotation.None? {
        return Completed;
      }
      var stubPath := EffectiveStubPath(wireMockAnnotation.value, methodAnnotation);
      if bean == null {
        return NoSuchBean;
      }
      var recording := IsWireMockRecording(bean);
      ghost var before := bean.State();
      if !recording {
        bean.ResetMappings();
        if stubPath != "" {
          bean.LoadMappings(stubPath);
          RunTwo(before, Call.ResetMappings, Call.LoadMappings(stubPath));
        } else {
          RunOne(before, Call.ResetMappings);
        }
      }
      outcome := Completed;
    }

    method IsWireMockRecording(server: MockServer) returns (recording: bool)
      ensures recording <==> server.status == Recording
    {
      var status := server.GetRecordingStatus();
      recording := status == Recording;
    }

    method AfterTestMethod(bean: MockServer?) returns (outcome: Outcome)
      modifies bean
      ensures outcome == LookupOutcome(wireMockAnnotation, bean != null)
      ensures bean != null ==>
        bean.trace == old(bean.trace) + AfterMethodCalls(wireMockAnnotation, old(bean.status))
        && bean.State() == Run(old(bean.State()), AfterMethodCalls(wireMockAnnotation, old(bean.status)))
    {
      if wireMockAnnotation.None? {
        return Completed;
      }
      if bean == null {
        return NoSuchBean;
      }
      var recording := IsWireMockRecording(bean);
      ghost var before := bean.State();
      if !recording {
        bean.ResetToDefaultMappings();
        RunOne(before, Call.ResetToDefaultMappings);
      }
      outcome := Completed;
    }

    /** afterTestClass; unlike the other hooks it checks for the bean and does nothing without one. */
    method AfterTestClass(bean: MockServer?)
      modifies bean
      ensures bean != null ==>
        bean.trace == old(bean.trace) + AfterClassCalls(wireMockAnnotation, true, old(bean.status))
        && bean.State() == Run(old(bean.State()), AfterClassCalls(wireMockAnnotation, true, old(bean.status)))
      ensures bean != null && wireMockAnnotation.Some? ==>
        bean.trace[|bean.trace| - 1] == Call.Stop && !bean.running && bean.status != Recording
    {
      if wireMockAnnotation.None? {
        return;
      }
      if bean != null {
        var recording := IsWireMockRecording(bean);
        ghost var before := bean.State();
        if recording {
          bean.StopRecording();
          bean.Stop();
          RunTwo(before, Call.StopRecording, Call.Stop);
        } else {
          bean.Stop();
          RunOne(before, Call.Stop);
        }
      }
    }
  }

  // ---------------------------------------------------------------------------
  // Whole test classes

  /** One test method: its own annotation and the server calls its body makes. */
  datatype TestMethod = TestMethod(annotation: Option<WireMockTest>, body: seq<Call>)

  /** What a run leaves behind: the calls the listener made, and the server's state. */
  datatype TestRun = TestRun(listenerCalls: seq<Call>, final: ServerState)

  /** A test body that only edits stub mappings. */
  predicate StubsOnly(t: TestMethod) {
    forall k :: 0 <= k < |t.body| ==> MappingCall(t.body[k])
  }

  /** One test: prepareTestInstance, beforeTestMethod, the test body, afterTestMethod. */
  function RunTest(annotation: Option<WireMockTest>, transformers: seq<string>, s: ServerState, t: TestMethod): TestRun {
    var prepare := PrepareCalls(annotation, transformers);
    var s1 := Run(s, prepare);
    var before := BeforeMethodCalls(annotation, t.annotation, s1.status);
    var s2 := Run(Run(s1, before), t.body);
    var after := AfterMethodCalls(annotation, s2.status);
    TestRun(prepare + before + after, Run(s2, after))
  }

  /** The tests of a class, one after the other. */
  function RunTests(annotation: Option<WireMockTest>, transformers: seq<string>, s: ServerState, tests: seq<TestMethod>): TestRun
    decreases |tests|
  {
    if tests == [] then TestRun([], s)
    else
      var first := RunTest(annotation, transformers, s, tests[0]);
      var rest := RunTests(annotation, transformers, first.final, tests[1..]);
      TestRun(first.listenerCalls + rest.listenerCalls, rest.final)
  }

  /**
    prepareTestInstance starts the server first, starts recording exactly when
    asked to, and leaves the mappings alone.
   */
  lemma PrepareStartsRecordingOnlyWhenAsked(a: WireMockTest, transformers: seq<string>, s: ServerState)
    ensures var calls := PrepareCalls(Some(a), transformers);
      calls[0] == Call.Start
      && (exists k :: 0 <= k < |calls| && calls[k].StartRecording?) == RecordRequested(a)
    ensures var t := Run(s, PrepareCalls(Some(a), transformers));
      t.running && t.mappings == s.mappings
      && t.status == (if RecordRequested(a) then Recording else s.status)
  {
    var calls := PrepareCalls(Some(a), transformers);
    if RecordRequested(a) {
      assert calls[1].StartRecording?;
      RunTwo(s, Call.Start, Call.StartRecording(a.targetBaseUrl, transformers));
    } else {
      RunOne(s, Call.Start);
    }
  }

  /**
    When not recording, beforeTestMethod leaves exactly the method's own stubs
    loaded: nothing from earlier tests survives.
   */
  lemma BeforeTestLoadsOwnStubs(a: WireMockTest, methodAnnotation: Option<WireMockTest>, s: ServerState)
    requires s.status != Recording
    ensures var path := EffectiveStubPath(a, methodAnnotation);
      Run(s, BeforeMethodCalls(Some(a), methodAnnotation, s.status))
        == s.(mappings := if path != "" then [StubDirectory(path)] else [])
  {
    var path := EffectiveStubPath(a, methodAnnotation);
    if path != "" {
      RunTwo(s, Call.ResetMappings, Call.LoadMappings(path));
    } else {
      RunOne(s, Call.ResetMappings);
    }
  }

  /** A method annotation always yields a non-empty stub path, so stubs are always loaded for it. */
  lemma MethodAnnotationAlwaysLoads(a: WireMockTest, m: WireMockTest, s: ServerState)
    requires s.status != Recording
    ensures BeforeMethodCalls(Some(a), Some(m), s.status)
      == [Call.ResetMappings, Call.LoadMappings(a.stubPath + "/" + m.stubPath)]
  {
  }

  /** afterTestClass stops recording before it stops the server, and stopping is the last call. */
  lemma AfterClassStopsLast(a: WireMockTest, s: ServerState)
    ensures var calls := AfterClassCalls(Some(a), true, s.status);
      |calls| > 0 && calls[|calls| - 1] == Call.Stop
      && (s.status == Recording ==> calls == [Call.StopRecording, Call.Stop])
      && (s.status != Recording ==> calls == [Call.Stop])
    ensures var t := Run(s, AfterClassCalls(Some(a), true, s.status));
      !t.running && t.status != Recording && t.mappings == s.mappings
  {
    if s.status == Recording {
      RunTwo(s, Call.StopRecording, Call.Stop);
    } else {
      RunOne(s, Call.Stop);
    }
  }

  /** Without @WireMockTest the listener makes no server call in any test. */
  lemma {:induction false} UnannotatedTestsAreUntouched(transformers: seq<string>, s: ServerState, tests: seq<TestMethod>)
    ensures RunTests(None, transformers, s, tests).listenerCalls == []
    decreases |tests|
  {
    if tests != [] {
      var first := RunTest(None, transformers, s, tests[0]);
      assert first.listenerCalls == [];
      UnannotatedTestsAreUntouched(transformers, first.final, tests[1..]);
    }
  }

  /**
    In a recording class the listener never resets, loads or restores
    mappings, and from the first test on the server stays running and
    recording.
   */
  lemma {:induction false} RecordingTestsLeaveMappingsAlone(a: WireMockTest, transformers: seq<string>, s: ServerState, tests: seq<TestMethod>)
    requires RecordRequested(a)
    requires forall i :: 0 <= i < |tests| ==> StubsOnly(tests[i])
    ensures var run := RunTests(Some(a), transformers, s, tests);
      forall k :: 0 <= k < |run.listenerCalls| ==> !MappingCall(run.listenerCalls[k])
    ensures tests != [] ==>
      var run := RunTests(Some(a), transformers, s, tests);
      run.final.running && run.final.status == Recording
    decreases |tests|
  {
    if tests != [] {
      var prepare := PrepareCalls(Some(a), transformers);
      var s1 := Run(s, prepare);
      PrepareStartsRecordingOnlyWhenAsked(a, transformers, s);
      var s2 := Run(Run(s1, []), tests[0].body);
      MappingCallsKeepStatus(Run(s1, []), tests[0].body);
      var first := RunTest(Some(a), transformers, s, tests[0]);
      assert first.listenerCalls == prepare + [] + [];
      assert prepare == [Call.Start, Call.StartRecording(a.targetBaseUrl, transformers)];
      assert first.final == s2;
      RecordingTestsLeaveMappingsAlone(a, transformers, first.final, tests[1..]);
    }
  }

  /**
    In a class that does not record, starting from a server that is not
    recording, every test ends with the default mappings back in place and
    the recording status untouched.
   */
  lemma {:induction false} ReplayTestsEndOnDefaults(a: WireMockTest, transformers: seq<string>, s: ServerState, tests: seq<TestMethod>)
    requires !RecordRequested(a) && s.status != Recording
    requires forall i :: 0 <= i < |tests| ==> StubsOnly(tests[i])
    ensures var run := RunTests(Some(a), transformers, s, tests);
      run.final.status == s.status
      && (tests != [] ==> run.final.running && run.final.mappings == [DefaultMappings])
    decreases |tests|
  {
    if tests != [] {
      var prepare := PrepareCalls(Some(a), transformers);
      var s1 := Run(s, prepare);
      PrepareStartsRecordingOnlyWhenAsked(a, transformers, s);
      var before := BeforeMethodCalls(Some(a), tests[0].annotation, s1.status);
      BeforeTestLoadsOwnStubs(a, tests[0].annotation, s1);
      var s2 := Run(Run(s1, before), tests[0].body);
      MappingCallsKeepStatus(Run(s1, before), tests[0].body);
      RunOne(s2, Call.ResetToDefaultMappings);
      var first := RunTest(Some(a), transformers, s, tests[0]);
      assert first.final == Exec(s2, Call.ResetToDefaultMappings);
      ReplayTestsEndOnDefaults(a, transformers, first.final, tests[1..]);
    }
  }

  /**
    A recording class from start to end: after its tests the server is still
    recording, and afterTestClass stops recording and then the server.
   */
  lemma RecordedClassLifecycle(a: WireMockTest, transformers: seq<string>, s: ServerState, tests: seq<TestMethod>)
    requires RecordRequested(a) && tests != []
    requires forall i :: 0 <= i < |tests| ==> StubsOnly(tests[i])
    ensures var run := RunTests(Some(a), transformers, s, tests);
      AfterClassCalls(Some(a), true, run.final.status) == [Call.StopRecording, Call.Stop]
      && var t := Run(run.final, [Call.StopRecording, Call.Stop]);
      !t.running && t.status == Stopped
  {
    RecordingTestsLeaveMappingsAlone(a, transformers, s, tests);
    var run := RunTests(Some(a), transformers, s, tests);
    AfterClassStopsLast(a, run.final);
  }
}
