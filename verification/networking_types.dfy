/** Endpoints declared by an Application and the port lists derived from
    them (api/v1alpha1/networking_types.go). */
module NetworkingTypes {

  import opened MapIteration

  /** Go's `int32`: ports and replica counts are 32-bit. */
  newtype int32 = x: int | -0x8000_0000 <= x < 0x8000_0000

  /** One endpoint of the Application: a port, the domain to expose it on
      ("" when it stays inside the cluster) and the path on that domain. */
  datatype Endpoint = Endpoint(port: int32, domain: string, domainPath: string)

  datatype ContainerPort = ContainerPort(name: string, containerPort: int32)

  /** The only transport the operator configures. */
  datatype Protocol = TCP

  /** `targetPort` is the integer form of an IntOrString. */
  datatype ServicePort = ServicePort(name: string, port: int32, targetPort: int, protocol: Protocol)

  // ---------------------------------------------------------------------
  // Decimal rendering of integers, as `fmt.Sprintf("%d", n)` prints them.
  // ---------------------------------------------------------------------

  function DigitChar(d: nat): char
    requires d < 10
  {
    ('0' as int + d) as char
  }

  function NatDigits(n: nat): string
    decreases n
  {
    if n < 10 then [DigitChar(n)] else NatDigits(n / 10) + [DigitChar(n % 10)]
  }

  function Decimal(n: int): string
  {
    if n < 0 then "-" + NatDigits(-n) else NatDigits(n)
  }

  /** Digits are never empty, a single digit is printed for exactly the
      numbers below ten, and no minus sign appears. */
  lemma {:induction false} NatDigitsShape(n: nat)
    ensures 1 <= |NatDigits(n)|
    ensures n < 10 <==> |NatDigits(n)| == 1
    ensures NatDigits(n)[0] != '-'
    decreases n
  {
    if n >= 10 {
      NatDigitsShape(n / 10);
    }
  }

  /** Different numbers never print the same digits. */
  lemma {:induction false} NatDigitsInjective(a: nat, b: nat)
    requires NatDigits(a) == NatDigits(b)
    ensures a == b
    decreases a
  {
    NatDigitsShape(a);
    NatDigitsShape(b);
    if a < 10 || b < 10 {
      assert |NatDigits(a)| == 1 && |NatDigits(b)| == 1;
      assert NatDigits(a)[0] == DigitChar(a) && NatDigits(b)[0] == DigitChar(b);
    } else {
      var sa, sb := NatDigits(a / 10), NatDigits(b / 10);
      NatDigitsShape(a / 10);
      NatDigitsShape(b / 10);
      assert NatDigits(a) == sa + [DigitChar(a % 10)];
      assert NatDigits(b) == sb + [DigitChar(b % 10)];
      assert |sa| == |sb|;
      assert sa == NatDigits(a)[..|sa|] == sb;
      assert DigitChar(a % 10) == NatDigits(a)[|sa|] == DigitChar(b % 10);
      NatDigitsInjective(a / 10, b / 10);
    }
  }

  lemma DecimalInjective(a: int, b: int)
    requires Decimal(a) == Decimal(b)
    ensures a == b
  {
    NatDigitsShape(if a < 0 then -a else a);
    NatDigitsShape(if b < 0 then -b else b);
    if a < 0 {
      assert Decimal(b)[0] == Decimal(a)[0] == '-';
      assert b < 0;
      assert NatDigits(-a) == Decimal(a)[1..] == NatDigits(-b);
      NatDigitsInjective(-a, -b);
    } else {
      assert Decimal(b)[0] == Decimal(a)[0] != '-';
      assert b >= 0;
      NatDigitsInjective(a, b);
    }
  }

  /** The name given to both the container port and the service port of a
      port number: "port" followed by the number in decimal. */
  function PortName(port: int32): string
  {
    "port" + Decimal(port as int)
  }

  /** Port names identify port numbers: two names are equal exactly when the
      ports are, so deduplicating by name is deduplicating by port. */
  lemma PortNameInjective(a: int32, b: int32)
    ensures PortName(a) == PortName(b) <==> a == b
  {
    if PortName(a) == PortName(b) {
      assert Decimal(a as int) == PortName(a)[4..] == Decimal(b as int);
      DecimalInjective(a as int, b as int);
    }
  }

  // ---------------------------------------------------------------------
  // Single-endpoint conversions.
  // ---------------------------------------------------------------------

  /** The container port of an endpoint: its own number, named after it. */
  function AsContainerPort(e: Endpoint): (r: ContainerPort)
    ensures r.containerPort == e.port
    ensures |r.name| > 4 && r.name[..4] == "port" && r.name[4..] == Decimal(e.port as int)
  {
    ContainerPort(PortName(e.port), e.port)
  }

  /** The service port of an endpoint: port and target port both the
      endpoint's number, over TCP, named as the container port is. */
  function AsServicePort(e: Endpoint): (r: ServicePort)
    ensures r.port == e.port && r.targetPort == e.port as int && r.protocol == TCP
    ensures r.name == AsContainerPort(e).name
  {
    ServicePort(PortName(e.port), e.port, e.port as int, TCP)
  }

  /** A container port is named after its number and nothing else: two
      endpoints give the same container port exactly when they share a port,
      and then they also share the name. */
  lemma {:induction false} ContainerPortDeterminedByPort(a: Endpoint, b: Endpoint)
    ensures AsContainerPort(a).name == AsContainerPort(b).name <==> a.port == b.port
    ensures AsContainerPort(a) == AsContainerPort(b) <==> a.port == b.port
    ensures AsContainerPort(a).containerPort == a.port
  {
    PortNameInjective(a.port, b.port);
  }

  /** A service port listens on the endpoint's port, forwards to the same
      port of the container, speaks TCP, and its name determines the port. */
  lemma {:induction false} ServicePortDeterminedByPort(a: Endpoint, b: Endpoint)
    ensures AsServicePort(a).port == a.port && AsServicePort(a).targetPort == a.port as int
    ensures AsServicePort(a).protocol == TCP
    ensures AsServicePort(a).name == AsServicePort(b).name <==> a.port == b.port
    ensures AsServicePort(a) == AsServicePort(b) <==> a.port == b.port
  {
    PortNameInjective(a.port, b.port);
  }

  // ---------------------------------------------------------------------
  // Port lists. Go collects them in a map keyed by the port name and then
  // walks the map, so the order of the result is unspecified: what the
  // lists are determined by is their set of entries.
  // ---------------------------------------------------------------------

  function Ports(es: seq<Endpoint>): set<int32>
  {
    set e | e in es :: e.port
  }

  function PortNames(es: seq<Endpoint>): set<string>
  {
    set e | e in es :: PortName(e.port)
  }

  /** The entries of AsContainerPorts: one per endpoint, duplicates merged. */
  function ContainerPorts(es: seq<Endpoint>): set<ContainerPort>
  {
    set e | e in es :: AsContainerPort(e)
  }

  /** The entries of AsServicePorts. */
  function ServicePorts(es: seq<Endpoint>): set<ServicePort>
  {
    set e | e in es :: AsServicePort(e)
  }

  /** There are never more distinct port names than endpoints. */
  lemma {:induction false} PortNamesBound(es: seq<Endpoint>)
    ensures |PortNames(es)| <= |es|
  {
    if es != [] {
      var init, last := es[..|es| - 1], es[|es| - 1];
      assert es == init + [last];
      assert PortNames(es) == PortNames(init) + {PortName(last.port)};
      PortNamesBound(init);
    }
  }

  /** Domain and path never matter: the container ports are exactly one
      entry per distinct port number. */
  lemma ContainerPortsByPort(es: seq<Endpoint>)
    ensures ContainerPorts(es) == set p | p in Ports(es) :: ContainerPort(PortName(p), p)
  {
    var byPort := set p | p in Ports(es) :: ContainerPort(PortName(p), p);
    forall c | c in byPort ensures c in ContainerPorts(es) {
      var p :| p in Ports(es) && c == ContainerPort(PortName(p), p);
      var e :| e in es && e.port == p;
      assert c == AsContainerPort(e);
    }
  }

  /** Domain and path never matter: the service ports are exactly one entry
      per distinct port number. */
  lemma ServicePortsByPort(es: seq<Endpoint>)
    ensures ServicePorts(es) == set p | p in Ports(es) :: ServicePort(PortName(p), p, p as int, TCP)
  {
    var byPort := set p | p in Ports(es) :: ServicePort(PortName(p), p, p as int, TCP);
    forall s | s in byPort ensures s in ServicePorts(es) {
      var p :| p in Ports(es) && s == ServicePort(PortName(p), p, p as int, TCP);
      var e :| e in es && e.port == p;
      assert s == AsServicePort(e);
    }
  }

  /** `m` is the `portSet` map of AsContainerPorts after reading `es`: one
      key per port name of `es`, each bound to the container port of that name. */
  ghost predicate ContainerPortIndex(m: map<string, ContainerPort>, es: seq<Endpoint>)
  {
    && m.Keys == PortNames(es)
    && forall k :: k in m ==> m[k].name == k && m[k] in ContainerPorts(es)
  }

  lemma ContainerPortIndexStep(m: map<string, ContainerPort>, es: seq<Endpoint>, e: Endpoint)
    requires ContainerPortIndex(m, es)
    ensures ContainerPortIndex(m[AsContainerPort(e).name := AsContainerPort(e)], es + [e])
  {
    var es', m' := es + [e], m[AsContainerPort(e).name := AsContainerPort(e)];
    forall k | k in PortNames(es') ensures k in m' {
      var x :| x in es' && k == PortName(x.port);
      if x != e { assert x in es; }
    }
    forall k | k in m' ensures k in PortNames(es') && m'[k].name == k && m'[k] in ContainerPorts(es') {
      if k == AsContainerPort(e).name {
        assert e in es';
      } else {
        var x :| x in es && m[k] == AsContainerPort(x);
        assert x in es';
      }
    }
  }

  /** The facts Range gives about the map `m` of `es`. */
  ghost predicate ListsContainerIndex(ports: seq<ContainerPort>, keys: seq<string>, m: map<string, ContainerPort>, es: seq<Endpoint>)
  {
    && ContainerPortIndex(m, es)
    && |keys| == |ports| == |m.Keys|
    && (forall i :: 0 <= i < |keys| ==> keys[i] in m && ports[i] == m[keys[i]])
    && (forall k :: k in m ==> k in keys)
    && (forall i, j :: 0 <= i < j < |keys| ==> keys[i] != keys[j])
  }

  /** Every endpoint's container port is listed. */
  lemma ContainerPortListed(ports: seq<ContainerPort>, keys: seq<string>, m: map<string, ContainerPort>, es: seq<Endpoint>, e: Endpoint)
    requires ListsContainerIndex(ports, keys, m, es)
    requires e in es
    ensures AsContainerPort(e) in ports
  {
    var k := PortName(e.port);
    assert k in PortNames(es);
    assert k in m;
    var i :| 0 <= i < |keys| && keys[i] == k;
    assert m[k] in ContainerPorts(es);
    var e' :| e' in es && m[k] == AsContainerPort(e');
    ContainerPortDeterminedByPort(e, e');
    assert ports[i] == AsContainerPort(e);
  }

  /** No two listed entries share a name or a port number. */
  lemma ContainerPortsListedDistinct(ports: seq<ContainerPort>, keys: seq<string>, m: map<string, ContainerPort>, es: seq<Endpoint>, i: int, j: int)
    requires ListsContainerIndex(ports, keys, m, es)
    requires 0 <= i < j < |ports|
    ensures ports[i].name != ports[j].name && ports[i].containerPort != ports[j].containerPort
  {
    assert ports[i].name == keys[i] && ports[j].name == keys[j];
    var a :| a in es && ports[i] == AsContainerPort(a);
    var b :| b in es && ports[j] == AsContainerPort(b);
    ContainerPortDeterminedByPort(a, b);
  }

  /** Listing every entry of the map once lists each container port of `es`
      exactly once. */
  lemma ContainerPortsListed(ports: seq<ContainerPort>, keys: seq<string>, m: map<string, ContainerPort>, es: seq<Endpoint>)
    requires ListsContainerIndex(ports, keys, m, es)
    ensures forall p :: p in ports <==> p in ContainerPorts(es)
    ensures forall i, j :: 0 <= i < j < |ports| ==>
              ports[i].name != ports[j].name && ports[i].containerPort != ports[j].containerPort
    ensures |ports| <= |es|
  {
    forall e | e in es ensures AsContainerPort(e) in ports {
      ContainerPortListed(ports, keys, m, es, e);
    }
    forall i | 0 <= i < |ports| ensures ports[i] in ContainerPorts(es) {
      assert ports[i] == m[keys[i]];
    }
    forall i, j | 0 <= i < j < |ports|
      ensures ports[i].name != ports[j].name && ports[i].containerPort != ports[j].containerPort
    {
      ContainerPortsListedDistinct(ports, keys, m, es, i, j);
    }
    PortNamesBound(es);
  }

  /** Converts the endpoints to container ports, one per distinct port
      number, in an unspecified order. */
  method AsContainerPorts(endpoints: seq<Endpoint>) returns (ports: seq<ContainerPort>)
    ensures forall p :: p in ports <==> p in ContainerPorts(endpoints)
    ensures forall i, j :: 0 <= i < j < |ports| ==>
              ports[i].name != ports[j].name && ports[i].containerPort != ports[j].containerPort
    ensures |ports| <= |endpoints|
  {
    var portSet: map<string, ContainerPort> := map[];
    for i := 0 to |endpoints|
      invariant ContainerPortIndex(portSet, endpoints[..i])
    {
      var containerPort := AsContainerPort(endpoints[i]);
      ContainerPortIndexStep(portSet, endpoints[..i], endpoints[i]);
      assert endpoints[..i + 1] == endpoints[..i] + [endpoints[i]];
      portSet := portSet[containerPort.name := containerPort];
    }
    assert endpoints[..|endpoints|] == endpoints;
    var keys;
    keys, ports := Range(portSet);
    ContainerPortsListed(ports, keys, portSet, endpoints);
  }

  /** `m` is the `portSet` map of AsServicePorts after reading `es`: one
      key per port name of `es`, each bound to the service port of that name. */
  ghost predicate ServicePortIndex(m: map<string, ServicePort>, es: seq<Endpoint>)
  {
    && m.Keys == PortNames(es)
    && forall k :: k in m ==> m[k].name == k && m[k] in ServicePorts(es)
  }

  lemma ServicePortIndexStep(m: map<string, ServicePort>, es: seq<Endpoint>, e: Endpoint)
    requires ServicePortIndex(m, es)
    ensures ServicePortIndex(m[AsServicePort(e).name := AsServicePort(e)], es + [e])
  {
    var es', m' := es + [e], m[AsServicePort(e).name := AsServicePort(e)];
    forall k | k in PortNames(es') ensures k in m' {
      var x :| x in es' && k == PortName(x.port);
      if x != e { assert x in es; }
    }
    forall k | k in m' ensures k in PortNames(es') && m'[k].name == k && m'[k] in ServicePorts(es') {
      if k == AsServicePort(e).name {
        assert e in es';
      } else {
        var x :| x in es && m[k] == AsServicePort(x);
        assert x in es';
      }
    }
  }

  /** The facts Range gives about the map `m` of `es`. */
  ghost predicate ListsServiceIndex(ports: seq<ServicePort>, keys: seq<string>, m: map<string, ServicePort>, es: seq<Endpoint>)
  {
    && ServicePortIndex(m, es)
    && |keys| == |ports| == |m.Keys|
    && (forall i :: 0 <= i < |keys| ==> keys[i] in m && ports[i] == m[keys[i]])
    && (forall k :: k in m ==> k in keys)
    && (forall i, j :: 0 <= i < j < |keys| ==> keys[i] != keys[j])
  }

  /** Every endpoint's service port is listed. */
  lemma ServicePortListed(ports: seq<ServicePort>, keys: seq<string>, m: map<string, ServicePort>, es: seq<Endpoint>, e: Endpoint)
    requires ListsServiceIndex(ports, keys, m, es)
    requires e in es
    ensures AsServicePort(e) in ports
  {
    var k := PortName(e.port);
    assert k in PortNames(es);
    assert k in m;
    var i :| 0 <= i < |keys| && keys[i] == k;
    assert m[k] in ServicePorts(es);
    var e' :| e' in es && m[k] == AsServicePort(e');
    ServicePortDeterminedByPort(e, e');
    assert ports[i] == AsServicePort(e);
  }

  /** No two listed entries share a name or a port number. */
  lemma ServicePortsListedDistinct(ports: seq<ServicePort>, keys: seq<string>, m: map<string, ServicePort>, es: seq<Endpoint>, i: int, j: int)
    requires ListsServiceIndex(ports, keys, m, es)
    requires 0 <= i < j < |ports|
    ensures ports[i].name != ports[j].name && ports[i].port != ports[j].port
  {
    assert ports[i].name == keys[i] && ports[j].name == keys[j];
    var a :| a in es && ports[i] == AsServicePort(a);
    var b :| b in es && ports[j] == AsServicePort(b);
    ServicePortDeterminedByPort(a, b);
  }

  /** Listing every entry of the map once lists each service port of `es`
      exactly once. */
  lemma ServicePortsListed(ports: seq<ServicePort>, keys: seq<string>, m: map<string, ServicePort>, es: seq<Endpoint>)
    requires ListsServiceIndex(ports, keys, m, es)
    ensures forall p :: p in ports <==> p in ServicePorts(es)
    ensures forall i, j :: 0 <= i < j < |ports| ==>
              ports[i].name != ports[j].name && ports[i].port != ports[j].port
    ensures |ports| <= |es|
  {
    forall e | e in es ensures AsServicePort(e) in ports {
      ServicePortListed(ports, keys, m, es, e);
    }
    forall i | 0 <= i < |ports| ensures ports[i] in ServicePorts(es) {
      assert ports[i] == m[keys[i]];
    }
    forall i, j | 0 <= i < j < |ports|
      ensures ports[i].name != ports[j].name && ports[i].port != ports[j].port
    {
      ServicePortsListedDistinct(ports, keys, m, es, i, j);
    }
    PortNamesBound(es);
  }

  /** Converts the endpoints to service ports, one per distinct port
      number, in an unspecified order. */
  method AsServicePorts(endpoints: seq<Endpoint>) returns (ports: seq<ServicePort>)
    ensures forall p :: p in ports <==> p in ServicePorts(endpoints)
    ensures forall i, j :: 0 <= i < j < |ports| ==>
              ports[i].name != ports[j].name && ports[i].port != ports[j].port
    ensures |ports| <= |endpoints|
  {
    var portSet: map<string, ServicePort> := map[];
    for i := 0 to |endpoints|
      invariant ServicePortIndex(portSet, endpoints[..i])
    {
      var servicePort := AsServicePort(endpoints[i]);
      ServicePortIndexStep(portSet, endpoints[..i], endpoints[i]);
      assert endpoints[..i + 1] == endpoints[..i] + [endpoints[i]];
      portSet := portSet[servicePort.name := servicePort];
    }
    assert endpoints[..|endpoints|] == endpoints;
    var keys;
    keys, ports := Range(portSet);
    ServicePortsListed(ports, keys, portSet, endpoints);
  }

  /** The example of the port tests: endpoints 80, 8080 and 8080 again (with
      a domain) give exactly the two entries port80 and port8080. */
  lemma SharedPortExample()
    ensures var es := [Endpoint(80, "example.com", ""), Endpoint(8080, "", ""), Endpoint(8080, "kudi.ai", "")];
            && ContainerPorts(es) == {ContainerPort("port80", 80), ContainerPort("port8080", 8080)}
            && ServicePorts(es) == {ServicePort("port80", 80, 80, TCP), ServicePort("port8080", 8080, 8080, TCP)}
  {
    var es := [Endpoint(80, "example.com", ""), Endpoint(8080, "", ""), Endpoint(8080, "kudi.ai", "")];
    assert Decimal(80) == "80" by {
      assert NatDigits(8) == "8";
    }
    assert Decimal(8080) == "8080" by {
      assert NatDigits(8) == "8";
      assert NatDigits(80) == "80";
      assert NatDigits(808) == "808";
    }
    assert PortName(80) == "port80" && PortName(8080) == "port8080";
    assert ContainerPorts(es) == {AsContainerPort(es[0]), AsContainerPort(es[1])};
    assert ServicePorts(es) == {AsServicePort(es[0]), AsServicePort(es[1])};
  }
}
