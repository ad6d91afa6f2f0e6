# WireMock test listener, modelled in Dafny

This project models `WireMockListener`, the Spring test execution listener of
the WireMock Spring Boot starter. For a test class annotated with
`@WireMockTest` the listener:

- publishes the server's properties into the test context before the class
  runs: the port, `wiremock.enabled`, the stub path, Eureka switched off, and
  one Ribbon `listOfServers` entry per service, all pointing at
  `localhost:<port>`;
- merges them into the existing property source properties with
  insertion-ordered set semantics (a `LinkedHashSet`);
- starts the WireMock server for each test instance and starts recording when
  `record` is set and a target URL is given;
- before each test method clears the mappings and loads the class
  `stubPath`, extended by `"/"` and the method's `stubPath` when the method is
  annotated too, loading nothing when that path is empty; after each test
  method it restores the default mappings; neither happens while the server
  is recording;
- after the class stops recording, if it is recording, and then stops the
  server.

A class without the annotation makes every hook a no-op.

Modules:

- `Decimal`: the decimal text of the port, read back by `ParseDecimal`.
- `OrderedSet`: a `LinkedHashSet` as the sequence of its elements. `DedupAppend`
  specifies `addAll`, and the `AddAll` loop is proved against it.
- `Annotation`: the `@WireMockTest` values, and `Option` for an annotation
  lookup that may find nothing.
- `PropertySource`: the port choice, the property list with its building
  loop, the merge, and the configuration object whose property array the
  merge rewrites.
- `Server`: the WireMock server as a class. It has a running flag, a
  recording status, the loaded mappings and a ghost trace of every call made
  on it. `Exec` and `Run` give the pure meaning of those calls.
- `Listener`: the listener class with its four hooks. A pure "calls"
  function gives each hook's server calls, and each hook method is proved to
  issue exactly those calls. Lemmas then follow whole test classes through
  the hooks.

Modelling choices:

- The server bean of the application context is a `MockServer?` parameter,
  with `null` for "no bean". In `prepareTestInstance`, `beforeTestMethod` and
  `afterTestMethod` the bean lookup is unguarded, so a missing bean makes the
  hook end with `NoSuchBean`; that stands for Spring's
  NoSuchBeanDefinitionException. `afterTestClass` checks for the bean first and
  does nothing without one. This asymmetry is kept as written.
- The free port is a positive parameter. It is used only when the
  annotation's port is 0 or less.
- A mapping source is a token: `DefaultMappings` or `StubDirectory(path)`.
  `resetMappings` empties the list, `loadMappingsUsing` appends the directory,
  and `resetToDefaultMappings` puts back the defaults.
- The recording status follows WireMock's `RecordingStatus`: `NeverStarted`,
  `Recording`, `Stopped`.
- Under the test framework's default per-method test instance lifecycle each
  test method gets a new test instance, so a modelled test
  (`Listener.RunTest`) runs `prepareTestInstance`, `beforeTestMethod`, the
  test body and `afterTestMethod`.

## Model

| member | source | states |
|---|---|---|
| `Decimal.NatToString` | wiremock-spring-boot-starter/src/main/java/com/epages/wiremock/starter/WireMockListener.java:58 | the port is written as a non-empty run of decimal digits with no leading zero, as Java renders a positive `int` |
| `Decimal.ParseNatToString` | wiremock-spring-boot-starter/src/main/java/com/epages/wiremock/starter/WireMockListener.java:58 | the decimal text written for the port reads back as that port, so the text identifies the port |
| `Decimal.NatToStringInjective` | wiremock-spring-boot-starter/src/main/java/com/epages/wiremock/starter/WireMockListener.java:63 | two different ports never give the same text in a property entry |
| `OrderedSet.DedupAppend` | wiremock-spring-boot-starter/src/main/java/com/epages/wiremock/starter/WireMockListener.java:152-153 | `addAll` keeps the set's current elements as a prefix; every added element ends up in the set; nothing else enters it |
| `OrderedSet.AddAll` | wiremock-spring-boot-starter/src/main/java/com/epages/wiremock/starter/WireMockListener.java:150-153 | the element-by-element insertion loop gives exactly `DedupAppend` of the set and the list |
| `OrderedSet.DedupAppendNoDuplicates` | wiremock-spring-boot-starter/src/main/java/com/epages/wiremock/starter/WireMockListener.java:150-153 | adding to a duplicate-free set never creates a duplicate |
| `OrderedSet.DedupAppendNewElements` | wiremock-spring-boot-starter/src/main/java/com/epages/wiremock/starter/WireMockListener.java:152-153 | the appended elements come from the added list, were not in the set before, and keep their first-occurrence order |
| `OrderedSet.DedupAppendConcat` | wiremock-spring-boot-starter/src/main/java/com/epages/wiremock/starter/WireMockListener.java:152-153 | two `addAll` calls in a row are one `addAll` of the concatenated lists |
| `OrderedSet.DedupAppendAbsorbed` | wiremock-spring-boot-starter/src/main/java/com/epages/wiremock/starter/WireMockListener.java:152-153 | adding only elements already present leaves the set unchanged |
| `OrderedSet.DistinctOfDuplicateFree` | wiremock-spring-boot-starter/src/main/java/com/epages/wiremock/starter/WireMockListener.java:150-151 | a set built from a duplicate-free list is that list, in the same order |
| `OrderedSet.DistinctCharacterized` | wiremock-spring-boot-starter/src/main/java/com/epages/wiremock/starter/WireMockListener.java:150-151 | a set built from a list holds each of the list's elements once, nothing else, in first-occurrence order |
| `PropertySource.ChoosePort` | wiremock-spring-boot-starter/src/main/java/com/epages/wiremock/starter/WireMockListener.java:56 | the port is positive: the annotation's port when that is positive, otherwise the free port |
| `PropertySource.PropertyList` | wiremock-spring-boot-starter/src/main/java/com/epages/wiremock/starter/WireMockListener.java:57-64 | exactly 4 + (number of services) entries: port, enabled, stub path and Eureka-off in that order, then one `localhost:<port>` entry per service in listed order |
| `PropertySource.BuildProperties` | wiremock-spring-boot-starter/src/main/java/com/epages/wiremock/starter/WireMockListener.java:56-64 | the port choice and the appending loop produce exactly `PropertyList` for the chosen port |
| `PropertySource.PortEntriesAgree` | wiremock-spring-boot-starter/src/main/java/com/epages/wiremock/starter/WireMockListener.java:56-64 | the `wiremock.port` entry and every service entry carry the same chosen port, and no other |
| `PropertySource.Merged` | wiremock-spring-boot-starter/src/main/java/com/epages/wiremock/starter/WireMockListener.java:149-155 | every existing, new and additional property appears in the merged array |
| `PropertySource.MergedIsDuplicateFree` | wiremock-spring-boot-starter/src/main/java/com/epages/wiremock/starter/WireMockListener.java:150-155 | the merged array holds no entry twice and nothing that was not given |
| `PropertySource.MergedKeepsExisting` | wiremock-spring-boot-starter/src/main/java/com/epages/wiremock/starter/WireMockListener.java:150-151 | the merged array starts with the distinct existing properties in their first-occurrence order |
| `PropertySource.MergedAppendsNew` | wiremock-spring-boot-starter/src/main/java/com/epages/wiremock/starter/WireMockListener.java:152-153 | after the existing ones come exactly the new entries not already present, in their first-occurrence order |
| `PropertySource.MergeIdempotent` | wiremock-spring-boot-starter/src/main/java/com/epages/wiremock/starter/WireMockListener.java:150-155 | merging the same properties a second time changes nothing |
| `PropertySource.MergedContextConfigurationProperties.constructor` | wiremock-spring-boot-starter/src/main/java/com/epages/wiremock/starter/WireMockListener.java:145-147 | the writer holds the configuration it was given |
| `PropertySource.MergedContextConfigurationProperties.Add` | wiremock-spring-boot-starter/src/main/java/com/epages/wiremock/starter/WireMockListener.java:149-156 | the configuration's property array becomes `Merged` of the old array, the properties and the additional ones; nothing else changes |
| `Server.MockServer.Start` | wiremock-spring-boot-starter/src/main/java/com/epages/wiremock/starter/WireMockListener.java:38 | the server runs afterwards; recording status and mappings are unchanged; the call is appended to the trace |
| `Server.MockServer.StartRecording` | wiremock-spring-boot-starter/src/main/java/com/epages/wiremock/starter/WireMockListener.java:42-45 | the status becomes `Recording` for the given target and transformers; the call is appended to the trace |
| `Server.MockServer.ResetMappings` | wiremock-spring-boot-starter/src/main/java/com/epages/wiremock/starter/WireMockListener.java:87 | no mappings remain; the call is appended to the trace |
| `Server.MockServer.LoadMappings` | wiremock-spring-boot-starter/src/main/java/com/epages/wiremock/starter/WireMockListener.java:89 | the stub directory is added to the loaded mappings; the call is appended to the trace |
| `Server.MockServer.ResetToDefaultMappings` | wiremock-spring-boot-starter/src/main/java/com/epages/wiremock/starter/WireMockListener.java:108 | only the default mappings remain; the call is appended to the trace |
| `Server.MockServer.StopRecording` | wiremock-spring-boot-starter/src/main/java/com/epages/wiremock/starter/WireMockListener.java:123 | the status becomes `Stopped`; the call is appended to the trace |
| `Server.MockServer.Stop` | wiremock-spring-boot-starter/src/main/java/com/epages/wiremock/starter/WireMockListener.java:125 | the server no longer runs; the call is appended to the trace |
| `Server.MockServer.GetRecordingStatus` | wiremock-spring-boot-starter/src/main/java/com/epages/wiremock/starter/WireMockListener.java:95 | returns the server's current recording status |
| `Listener.EffectiveStubPath` | wiremock-spring-boot-starter/src/main/java/com/epages/wiremock/starter/WireMockListener.java:76-80 | the class stubPath, extended by `"/" + method stubPath` exactly when the method is annotated |
| `Listener.InjectedProperties` | wiremock-spring-boot-starter/src/main/java/com/epages/wiremock/starter/WireMockListener.java:51-66 | without an annotation the existing properties are left as they are |
| `Listener.PrepareCalls` | wiremock-spring-boot-starter/src/main/java/com/epages/wiremock/starter/WireMockListener.java:30-46 | no server call without an annotation |
| `Listener.BeforeMethodCalls` | wiremock-spring-boot-starter/src/main/java/com/epages/wiremock/starter/WireMockListener.java:71-91 | no server call without an annotation or while recording |
| `Listener.AfterMethodCalls` | wiremock-spring-boot-starter/src/main/java/com/epages/wiremock/starter/WireMockListener.java:100-109 | no server call without an annotation or while recording |
| `Listener.AfterClassCalls` | wiremock-spring-boot-starter/src/main/java/com/epages/wiremock/starter/WireMockListener.java:114-126 | no server call without an annotation or without a server bean |
| `Listener.WireMockListener.constructor` | wiremock-spring-boot-starter/src/main/java/com/epages/wiremock/starter/WireMockListener.java:26 | a new listener holds no annotation |
| `Listener.WireMockListener.BeforeTestClass` | wiremock-spring-boot-starter/src/main/java/com/epages/wiremock/starter/WireMockListener.java:50-67 | the listener records the class's annotation; without one the properties are unchanged, with one they become the merge of the old ones and the built list |
| `Listener.WireMockListener.AddPropertySourceProperties` | wiremock-spring-boot-starter/src/main/java/com/epages/wiremock/starter/WireMockListener.java:129-133 | the configuration's properties become their merge with the given ones |
| `Listener.WireMockListener.PrepareTestInstance` | wiremock-spring-boot-starter/src/main/java/com/epages/wiremock/starter/WireMockListener.java:29-47 | issues exactly `PrepareCalls` on the bean, with the matching state change; fails with `NoSuchBean` only when annotated and the bean is missing |
| `Listener.WireMockListener.BeforeTestMethod` | wiremock-spring-boot-starter/src/main/java/com/epages/wiremock/starter/WireMockListener.java:70-92 | issues exactly `BeforeMethodCalls` for the status before the call, with the matching state change; fails only when annotated and the bean is missing |
| `Listener.WireMockListener.IsWireMockRecording` | wiremock-spring-boot-starter/src/main/java/com/epages/wiremock/starter/WireMockListener.java:94-96 | true exactly when the server's status is `Recording` |
| `Listener.WireMockListener.AfterTestMethod` | wiremock-spring-boot-starter/src/main/java/com/epages/wiremock/starter/WireMockListener.java:99-110 | issues exactly `AfterMethodCalls` for the status before the call, with the matching state change; fails only when annotated and the bean is missing |
| `Listener.WireMockListener.AfterTestClass` | wiremock-spring-boot-starter/src/main/java/com/epages/wiremock/starter/WireMockListener.java:113-127 | issues exactly `AfterClassCalls`; when annotated and a bean exists, the last call is `Stop`, the server is stopped and no longer recording |
| `Listener.PrepareStartsRecordingOnlyWhenAsked` | wiremock-spring-boot-starter/src/main/java/com/epages/wiremock/starter/WireMockListener.java:37-46 | start comes first; recording is started exactly when `record` is set and the target URL is non-empty; the server runs afterwards; the modelled mappings, which leave out the recorder's proxy stub, are untouched |
| `Listener.BeforeTestLoadsOwnStubs` | wiremock-spring-boot-starter/src/main/java/com/epages/wiremock/starter/WireMockListener.java:85-91 | when not recording, only the method's own stub directory is loaded afterwards, or none when the path is empty; nothing from earlier tests survives |
| `Listener.MethodAnnotationAlwaysLoads` | wiremock-spring-boot-starter/src/main/java/com/epages/wiremock/starter/WireMockListener.java:76-89 | with a method annotation the path is never empty, so `class/method` stubs are always loaded after the reset |
| `Listener.AfterClassStopsLast` | wiremock-spring-boot-starter/src/main/java/com/epages/wiremock/starter/WireMockListener.java:120-126 | stop recording, only when recording, comes before stop; stop is the last call; the server ends stopped and not recording |
| `Listener.UnannotatedTestsAreUntouched` | wiremock-spring-boot-starter/src/main/java/com/epages/wiremock/starter/WireMockListener.java:29-110 | without `@WireMockTest` the listener makes no server call in any number of tests |
| `Listener.RecordingTestsLeaveMappingsAlone` | wiremock-spring-boot-starter/src/main/java/com/epages/wiremock/starter/WireMockListener.java:37-109 | in a recording class the listener never resets, loads or restores mappings, and after the first test the server runs and records |
| `Listener.ReplayTestsEndOnDefaults` | wiremock-spring-boot-starter/src/main/java/com/epages/wiremock/starter/WireMockListener.java:85-109 | in a class that does not record, every test ends on the default mappings with the recording status unchanged |
| `Listener.RecordedClassLifecycle` | wiremock-spring-boot-starter/src/main/java/com/epages/wiremock/starter/WireMockListener.java:37-126 | a recording class is still recording after its tests; `afterTestClass` then stops recording and then the server, leaving it stopped |

## Left out

- Spring plumbing is not modelled: `TestContext`, the application context and `getBean`. The server bean is a parameter and the test class's annotation is an argument of `BeforeTestClass`. The method annotation is an argument of `BeforeTestMethod`.
- Reflective field access is not modelled. The merged configuration is a plain object whose property array the merge reassigns.
- The re-wrapping of checked reflection exceptions into `IllegalStateException` is not modelled. It only concerns reflection failures, which the model cannot have.
- `InetUtils.getFreeServerPort()` is network I/O. The free port is a positive parameter, and the model does not say that it is free.
- WireMock internals stay abstract: request matching, reading stub files through `JsonFileMappingsSource` and `ClasspathFileSource`, `RecordSpecBuilder`, and looking up the `StubMappingTransformer` extensions. The transformer names are a constant of the server.
- What the server does with a repeated `start` or `startRecording`, or with a `stopRecording` outside recording, is not modelled. Each call just sets the flag it names.
- A context with several server beans, where `getBean` is ambiguous, is not modelled.
- The `Ordered` interface gives the listener its place among the other listeners. That ordering is not modelled, because the file has no `getOrder`.
- `WireMockTest.java` is not part of this model. Its default values and the `enabled` attribute are not modelled.
- Ports are unbounded naturals. A Java `int` port is always in range here, so no wrap-around can occur.
- Listener.RecordingTestsLeaveMappingsAlone: assumes test bodies that only edit stub mappings (`StubsOnly`); a test that starts or stops the server itself is outside it.
- Listener.ReplayTestsEndOnDefaults: assumes test bodies that only edit stub mappings, as above.
- Listener.RecordedClassLifecycle: assumes test bodies that only edit stub mappings, as above.
- A per-class test instance lifecycle, where `prepareTestInstance` runs once for the whole class, is not covered by `Listener.RunTest` and `Listener.RunTests`.
- Server calls are modelled as always completing. In the source an exception from `start()`, `startRecording`, `loadMappingsUsing` or `stopRecording` ends the hook at that call, since there is no try/finally; in particular a failing `stopRecording` at `afterTestClass` skips `stop()`, and the server keeps its port.
- Listener.WireMockListener.AfterTestClass: its promise that `Stop` is the last call and the server ends stopped holds only when `stopRecording` completes; a failing `stopRecording` is not modelled.
- Listener.AfterClassStopsLast: holds only when every server call completes; a failing `stopRecording` that skips `stop()` is not modelled.
- Server.MockServer.StartRecording and Server.MockServer.StopRecording: the recorder's own effect on the stub mappings is not represented in `mappings`. Starting to record adds a proxy-all stub that forwards to the target URL, and that stub is why the listener skips `resetMappings` while recording. Stopping removes the proxy stub, adds the recorded stubs by default and flushes the captured requests. Neither call changes `mappings` in the model.
- Listener.PrepareStartsRecordingOnlyWhenAsked: its clause that the mappings are unchanged is a consequence of that abstraction; with a real recorder, `startRecording` adds the proxy stub.
- Listener.AfterClassStopsLast: likewise, its clause that the mappings are unchanged holds only for the abstract server; a real `stopRecording` replaces the proxy stub with the recorded stubs.
