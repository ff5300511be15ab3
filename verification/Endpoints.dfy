/** Endpoint slices for the API servers and for etcd, and the decision to rewrite them. */
module Endpoints {
  import opened Config
  import opened EntryKey

  datatype Endpoint = Endpoint(addresses: seq<string>, ready: Option<bool>)

  datatype EndpointPort = EndpointPort(name: Option<string>, port: Option<int>)

  datatype EndpointSlice = EndpointSlice(
    labels: map<string, string>,
    addressType: string,
    endpoints: seq<Endpoint>,
    ports: seq<EndpointPort>)

  datatype Params = Params(
    readyIPs: seq<string>,
    notReadyIPs: seq<string>,
    port: int,
    portName: string,
    serviceName: string)

  datatype SliceOp = NoSliceOp | CreateSlice(slice: EndpointSlice) | UpdateSlice(slice: EndpointSlice)

  /** The desired slice: one endpoint per address, and an address that is not ready anywhere is not ready. */
  function ExpectedSlice(p: Params): EndpointSlice {
    var addrs := SortCompact(p.readyIPs + p.notReadyIPs);
    EndpointSlice(
      map["endpointslice.kubernetes.io/managed-by" := "cke.cybozu.com", "kubernetes.io/service-name" := p.serviceName],
      "IPv4",
      seq(|addrs|, i requires 0 <= i < |addrs| => Endpoint([addrs[i]], Some(addrs[i] !in p.notReadyIPs))),
      [EndpointPort(Some(p.portName), Some(p.port))])
  }

  function LabelOf(labels: map<string, string>, key: string): string {
    if key in labels then labels[key] else ""
  }

  predicate EndpointMatches(want: Endpoint, actual: Endpoint) {
    && actual.ready.Some? && actual.ready == want.ready
    && |actual.addresses| == |want.addresses|
    && forall a :: a in actual.addresses ==> a in want.addresses
  }

  predicate SliceMatches(want: EndpointSlice, actual: EndpointSlice) {
    && (forall k :: k in want.labels ==> LabelOf(actual.labels, k) == want.labels[k])
    && actual.addressType == want.addressType
    && |actual.endpoints| == |want.endpoints|
    && (forall i :: 0 <= i < |want.endpoints| ==> EndpointMatches(want.endpoints[i], actual.endpoints[i]))
    && actual.ports == want.ports
  }

  method DecideSliceOp(p: Params, actual: Option<EndpointSlice>) returns (op: SliceOp)
    ensures op == SliceDecision(p, actual)
  {
    var want := ExpectedSlice(p);
    if actual.None? { return CreateSlice(want); }
    var slice := actual.value;
    var update := UpdateSlice(want);

    var keys := want.labels.Keys;
    while keys != {}
      invariant keys <= want.labels.Keys
      invariant forall k :: k in want.labels && k !in keys ==> LabelOf(slice.labels, k) == want.labels[k]
      decreases |keys|
    {
      var k :| k in keys;
      if LabelOf(slice.labels, k) != want.labels[k] { return update; }
      keys := keys - {k};
    }
    if slice.addressType != want.addressType { return update; }
    if |slice.endpoints| != |want.endpoints| { return update; }
    for i := 0 to |slice.endpoints|
      invariant forall j :: 0 <= j < i ==> EndpointMatches(want.endpoints[j], slice.endpoints[j])
    {
      var actualEP, wantEP := slice.endpoints[i], want.endpoints[i];
      if actualEP.ready == None || actualEP.ready != wantEP.ready { return update; }
      if |actualEP.addresses| != |wantEP.addresses| { return update; }
      for k := 0 to |actualEP.addresses|
        invariant forall a :: a in actualEP.addresses[..k] ==> a in wantEP.addresses
      {
        if actualEP.addresses[k] !in wantEP.addresses { return update; }
      }
      assert actualEP.addresses[..|actualEP.addresses|] == actualEP.addresses;
    }
    if |slice.ports| != 1 { return update; }
    if slice.ports[0].name == None || slice.ports[0].name != want.ports[0].name { return update; }
    if slice.ports[0].port == None || slice.ports[0].port != want.ports[0].port { return update; }
    return NoSliceOp;
  }

  function SliceDecision(p: Params, actual: Option<EndpointSlice>): SliceOp {
    match actual
    case None => CreateSlice(ExpectedSlice(p))
    case Some(slice) => if SliceMatches(ExpectedSlice(p), slice) then NoSliceOp else UpdateSlice(ExpectedSlice(p))
  }

  /** The slice lists the address as one that must not receive traffic. */
  predicate ListedNotReady(slice: Option<EndpointSlice>, address: string) {
    slice.Some? && exists i :: 0 <= i < |slice.value.endpoints| && slice.value.endpoints[i] == Endpoint([address], Some(false))
  }

  predicate ListedReady(slice: Option<EndpointSlice>, address: string) {
    slice.Some? && exists i :: 0 <= i < |slice.value.endpoints| && slice.value.endpoints[i] == Endpoint([address], Some(true))
  }

  /** When nothing needs rewriting, the observed slice tells exactly the desired readiness of every address. */
  lemma QuietSliceIsExact(p: Params, actual: Option<EndpointSlice>, address: string)
    requires SliceDecision(p, actual) == NoSliceOp
    ensures ListedNotReady(actual, address) <==> address in p.notReadyIPs
    ensures ListedReady(actual, address) <==> address in p.readyIPs && address !in p.notReadyIPs
    ensures actual.value.ports == [EndpointPort(Some(p.portName), Some(p.port))] && actual.value.addressType == "IPv4"
    ensures LabelOf(actual.value.labels, "kubernetes.io/service-name") == p.serviceName
  {
    assert "kubernetes.io/service-name" in ExpectedSlice(p).labels;
    var all := p.readyIPs + p.notReadyIPs;
    var addrs := SortCompact(all);
    SortCompactSpec(all);
    var es := actual.value.endpoints;
    forall i | 0 <= i < |addrs| ensures es[i] == Endpoint([addrs[i]], Some(addrs[i] !in p.notReadyIPs)) {
      assert EndpointMatches(ExpectedSlice(p).endpoints[i], es[i]);
      assert es[i].addresses[0] in es[i].addresses;
      assert es[i].addresses == [addrs[i]];
    }
    if address in all {
      assert address in addrs;
      var i :| 0 <= i < |addrs| && addrs[i] == address;
      assert es[i] == Endpoint([address], Some(address !in p.notReadyIPs));
    }
  }

  /** Once the decided slice is stored, nothing needs rewriting any more: one round settles the slice. */
  lemma OneRewriteSettles(p: Params, actual: Option<EndpointSlice>)
    requires SliceDecision(p, actual) != NoSliceOp
    ensures SliceDecision(p, Some(SliceDecision(p, actual).slice)) == NoSliceOp
  {
    var want := ExpectedSlice(p);
    forall k | k in want.labels ensures LabelOf(want.labels, k) == want.labels[k] {}
    forall i | 0 <= i < |want.endpoints| ensures EndpointMatches(want.endpoints[i], want.endpoints[i]) {}
    assert SliceMatches(want, want);
  }
}
