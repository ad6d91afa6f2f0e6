/**
  The properties the listener publishes before a @WireMockTest class runs, and
  how they are merged into the test context's property source properties.
 */
module PropertySource {
  import opened Decimal
  import opened OrderedSet
  import opened Annotation

  const PortKey := "wiremock.port="
  const EnabledEntry := "wiremock.enabled=true"
  const StubPathKey := "wiremock.stubPath="
  const EurekaEntry := "ribbon.eureka.enabled=false"
  const ServersInfix := ".ribbon.listOfServers=localhost:"

  /** The port the server is told to use: the annotation's when positive, else the free port found. */
  function ChoosePort(annotated: int, freePort: nat): (port: nat)
    requires freePort > 0
    ensures port > 0
    ensures annotated > 0 ==> port == annotated
    ensures annotated <= 0 ==> port == freePort
  {
    if annotated > 0 then annotated else freePort
  }

  /** The routing entry that points one service at the local server. */
  function RibbonEntry(service: string, port: nat): string {
    service + ServersInfix + NatToString(port)
  }

  /**
    The published list: four fixed entries, then one routing entry per
    service, in the order the services are listed.
   */
  function PropertyList(stubPath: string, port: nat, services: seq<string>): (r: seq<string>)
    ensures |r| == 4 + |services|
    ensures r[0] == PortKey + NatToString(port)
    ensures r[1] == EnabledEntry
    ensures r[2] == StubPathKey + stubPath
    ensures r[3] == EurekaEntry
    ensures forall i :: 0 <= i < |services| ==> r[4 + i] == RibbonEntry(services[i], port)
  {
    [PortKey + NatToString(port), EnabledEntry, StubPathKey + stubPath, EurekaEntry]
      + seq(|services|, i requires 0 <= i < |services| => RibbonEntry(services[i], port))
  }

  /**
    Builds the list as the listener does: the port choice, the four fixed
    entries, then a loop appending one entry per service.
   */
  method BuildProperties(annotation: WireMockTest, freePort: nat) returns (properties: seq<string>)
    requires freePort > 0
    ensures properties == PropertyList(annotation.stubPath, ChoosePort(annotation.port, freePort), annotation.ribbonServices)
  {
    var port: nat := if annotation.port > 0 then annotation.port else freePort;
    var services := annotation.ribbonServices;
    properties := [];
    properties := properties + [PortKey + NatToString(port)];
    properties := properties + [EnabledEntry];
    properties := properties + [StubPathKey + annotation.stubPath];
    properties := properties + [EurekaEntry];
    for i := 0 to |services|
      invariant |properties| == 4 + i
      invariant properties[0] == PortKey + NatToString(port) && properties[1] == EnabledEntry
      invariant properties[2] == StubPathKey + annotation.stubPath && properties[3] == EurekaEntry
      invariant forall k :: 0 <= k < i ==> properties[4 + k] == RibbonEntry(services[k], port)
    {
      properties := properties + [RibbonEntry(services[i], port)];
    }
    ghost var expected := PropertyList(annotation.stubPath, port, services);
    forall k | 4 <= k < |properties| ensures properties[k] == expected[k] {
      assert properties[4 + (k - 4)] == expected[4 + (k - 4)];
    }
  }

  /**
    Every entry that names the port, wiremock.port and each service's
    listOfServers, carries the chosen port and no other: the digits that end
    the entry read back as the port.
   */
  lemma PortEntriesAgree(stubPath: string, port: nat, services: seq<string>)
    ensures var r := PropertyList(stubPath, port, services);
      ParseDecimal(TrailingDigits(r[0])) == port
      && forall i :: 4 <= i < |r| ==> ParseDecimal(TrailingDigits(r[i])) == port
  {
    var r := PropertyList(stubPath, port, services);
    ParseNatToString(port);
    TrailingDigitsAfter(PortKey, NatToString(port));
    forall i | 4 <= i < |r| ensures ParseDecimal(TrailingDigits(r[i])) == port {
      var prefix := services[i - 4] + ServersInfix;
      assert r[i] == prefix + NatToString(port);
      assert prefix[|prefix| - 1] == ':';
      TrailingDigitsAfter(prefix, NatToString(port));
    }
  }

  /**
    The property array after MergedContextConfigurationProperties.add: a
    LinkedHashSet built from the existing properties, then given the new
    properties and the additional ones.
   */
  function Merged(existing: seq<string>, properties: seq<string>, additional: seq<string>): (r: seq<string>)
    ensures forall k :: 0 <= k < |existing| ==> existing[k] in r
    ensures forall k :: 0 <= k < |properties| ==> properties[k] in r
    ensures forall k :: 0 <= k < |additional| ==> additional[k] in r
  {
    DedupAppend(DedupAppend(Distinct(existing), properties), additional)
  }

  /** The merged array holds no entry twice, and nothing that was not given. */
  lemma MergedIsDuplicateFree(existing: seq<string>, properties: seq<string>, additional: seq<string>)
    ensures NoDuplicates(Merged(existing, properties, additional))
    ensures var r := Merged(existing, properties, additional);
      forall k :: 0 <= k < |r| ==> r[k] in existing || r[k] in properties || r[k] in additional
  {
    var d := Distinct(existing);
    DistinctCharacterized(existing);
    DedupAppendNoDuplicates(d, properties);
    DedupAppendNoDuplicates(DedupAppend(d, properties), additional);
  }

  /**
    The merged array starts with the distinct existing properties, in the
    order of their first occurrence.
   */
  lemma MergedKeepsExisting(existing: seq<string>, properties: seq<string>, additional: seq<string>)
    ensures var d := Distinct(existing); var r := Merged(existing, properties, additional);
      |d| <= |r| && r[..|d|] == d
      && (forall k :: 0 <= k < |d| ==> d[k] in existing)
      && (forall i, j :: 0 <= i < j < |d| ==> IndexOf(existing, d[i]) < IndexOf(existing, d[j]))
  {
    DistinctCharacterized(existing);
    var d := Distinct(existing);
    var m := DedupAppend(d, properties);
    var r := Merged(existing, properties, additional);
    assert r[..|d|] == r[..|m|][..|d|];
  }

  /**
    After the existing properties come exactly the given entries that were
    not there yet, in the order of their first occurrence among the new ones.
   */
  lemma MergedAppendsNew(existing: seq<string>, properties: seq<string>, additional: seq<string>)
    ensures var d := Distinct(existing); var r := Merged(existing, properties, additional);
      (forall k :: |d| <= k < |r| ==> r[k] in properties + additional && r[k] !in existing)
      && (forall i, j :: |d| <= i < j < |r| ==>
            IndexOf(properties + additional, r[i]) < IndexOf(properties + additional, r[j]))
  {
    var d := Distinct(existing);
    DistinctCharacterized(existing);
    DedupAppendConcat(d, properties, additional);
    DedupAppendNewElements(d, properties + additional);
  }

  /** Merging the same properties a second time changes nothing. */
  lemma MergeIdempotent(existing: seq<string>, properties: seq<string>, additional: seq<string>)
    ensures var once := Merged(existing, properties, additional);
      Merged(once, properties, additional) == once
  {
    var once := Merged(existing, properties, additional);
    MergedIsDuplicateFree(existing, properties, additional);
    DistinctOfDuplicateFree([], once);
    assert [] + once == once;
    DedupAppendAbsorbed(once, properties);
    DedupAppendAbsorbed(once, additional);
  }

  /** The test context's merged configuration; only its property array is modelled. */
  class MergedContextConfiguration {
    var propertySourceProperties: seq<string>

    constructor (propertySourceProperties: seq<string>)
      ensures this.propertySourceProperties == propertySourceProperties
    {
      this.propertySourceProperties := propertySourceProperties;
    }
  }

  /** Writes merged properties back into a configuration's property array. */
  class MergedContextConfigurationProperties {
    const configuration: MergedContextConfiguration

    constructor (configuration: MergedContextConfiguration)
      ensures this.configuration == configuration
    {
      this.configuration := configuration;
    }

    method Add(properties: seq<string>, additional: seq<string>)
      modifies configuration
      ensures configuration.propertySourceProperties
        == Merged(old(configuration.propertySourceProperties), properties, additional)
    {
      var merged := AddAll([], configuration.propertySourceProperties);
      merged := AddAll(merged, properties);
      merged := AddAll(merged, additional);
      configuration.propertySourceProperties := merged;
    }
  }
}
