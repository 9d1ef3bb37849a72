/** Ports of the RabbitMQ container, of the client Service, and in the default-user Secret. */
module Ports {
  import opened Wrappers
  import opened Text
  import opened Plugins
  import opened ClusterSpec

  datatype PortName =
    | Epmd
    | Amqp | Management | Prometheus | Mqtt | WebMqtt | Stomp | WebStomp | Stream
    | Amqps | ManagementTls | PrometheusTls | Mqtts | Stomps | Streams | WebMqttTls | WebStompTls
    | Custom(name: string)

  datatype ContainerPort = ContainerPort(name: PortName, number: nat)

  ghost function Number(n: PortName): nat {
    match n
    case Epmd => 4369
    case Amqp => 5672 case Management => 15672 case Prometheus => 15692
    case Mqtt => 1883 case WebMqtt => 15675 case Stomp => 61613 case WebStomp => 15674 case Stream => 5552
    case Amqps => 5671 case ManagementTls => 15671 case PrometheusTls => 15691
    case Mqtts => 8883 case Stomps => 61614 case Streams => 5551 case WebMqttTls => 15676 case WebStompTls => 15673
    case Custom(_) => 0
  }

  // ---------- groups of listeners ----------

  ghost predicate Plain(w: Switches, n: PortName) {
    n == Amqp || n == Management || (w.mqtt && n == Mqtt) || (w.webMqtt && n == WebMqtt)
    || (w.stomp && n == Stomp) || (w.webStomp && n == WebStomp) || (w.stream && n == Stream)
  }

  ghost predicate Secure(w: Switches, n: PortName) {
    n == Amqps || n == ManagementTls || n == PrometheusTls
    || (w.mqtt && n == Mqtts) || (w.stomp && n == Stomps) || (w.stream && n == Streams)
  }

  ghost predicate SecureWeb(w: Switches, n: PortName) {
    (n == WebMqttTls && w.webMqtt) || (n == WebStompTls && w.webStomp)
  }

  // ---------- the container ----------

  /** The listener is opened in the RabbitMQ container. */
  ghost predicate ContainerOpens(w: Switches, n: PortName) {
    || n == Epmd
    || (!w.disableNonTLS && (Plain(w, n) || n == Prometheus))
    || ((w.disableNonTLS || w.tls) && (Secure(w, n) || (w.mutualTLS && SecureWeb(w, n))))
  }

  ghost predicate Named(ports: seq<ContainerPort>, n: PortName) { exists p :: p in ports && p.name == n }

  /** Position in the order in which the builder appends. */
  ghost function Rank(n: PortName): nat {
    match n
    case Epmd => 1
    case Amqp => 2 case Management => 3 case Prometheus => 4
    case Mqtt => 5 case WebMqtt => 6 case Stomp => 7 case WebStomp => 8 case Stream => 9
    case Amqps => 10 case ManagementTls => 11 case PrometheusTls => 12
    case Mqtts => 13 case Stomps => 14 case Streams => 15 case WebMqttTls => 16 case WebStompTls => 17
    case Custom(_) => 0
  }

  /** Ports in append order, none past rank `top`, each with its name's number. */
  ghost predicate Listing(ports: seq<ContainerPort>, top: nat) {
    && (forall i, j :: 0 <= i < j < |ports| ==> Rank(ports[i].name) < Rank(ports[j].name))
    && (forall p :: p in ports ==> 0 < Rank(p.name) <= top && p.number == Number(p.name))
  }

  lemma NumbersDiffer(m: PortName, n: PortName)
    requires m != n && !m.Custom? && !n.Custom?
    ensures Number(m) != Number(n)
  {
  }

  /** `if when { ports = append(ports, ...) }` */
  method Append(ports: seq<ContainerPort>, when: bool, name: PortName, number: nat, ghost rank: nat)
    returns (r: seq<ContainerPort>)
    requires rank == Rank(name) > 0 && Listing(ports, rank - 1) && number == Number(name)
    ensures Listing(r, rank) && forall n :: Named(r, n) <==> Named(ports, n) || (when && n == name)
  {
    r := ports;
    if when {
      r := ports + [ContainerPort(name, number)];
      assert forall p :: p in r <==> p in ports || p == ContainerPort(name, number);
      forall i, j | 0 <= i < j < |r| ensures Rank(r[i].name) < Rank(r[j].name) {
        assert r[i] in ports;
      }
    }
  }

  method ContainerPorts(w: Switches) returns (ports: seq<ContainerPort>)
    ensures forall n :: Named(ports, n) <==> ContainerOpens(w, n)
    ensures forall i, j :: 0 <= i < j < |ports| ==> ports[i].name != ports[j].name && ports[i].number != ports[j].number
    ensures forall p :: p in ports ==> p.number == Number(p.name)
  {
    ports := Append([], true, Epmd, 4369, 1);
    if !w.disableNonTLS {
      ports := AppendPlain(ports, w);
    }
    if w.disableNonTLS || w.tls {
      ports := AppendSecure(ports, w);
      if w.mutualTLS {
        ports := AppendSecureWeb(ports, w);
      }
    }
    forall i, j | 0 <= i < j < |ports| ensures ports[i].name != ports[j].name && ports[i].number != ports[j].number {
      assert ports[i] in ports && ports[j] in ports;
      NumbersDiffer(ports[i].name, ports[j].name);
    }
  }

  method AppendPlain(before: seq<ContainerPort>, w: Switches) returns (ports: seq<ContainerPort>)
    requires Listing(before, 1)
    ensures Listing(ports, 9)
    ensures forall n :: Named(ports, n) <==> Named(before, n) || n == Prometheus || Plain(w, n)
  {
    ports := Append(before, true, Amqp, 5672, 2);
    ports := Append(ports, true, Management, 15672, 3);
    ports := Append(ports, true, Prometheus, 15692, 4);
    ports := Append(ports, w.mqtt, Mqtt, 1883, 5);
    ports := Append(ports, w.webMqtt, WebMqtt, 15675, 6);
    ports := Append(ports, w.stomp, Stomp, 61613, 7);
    ports := Append(ports, w.webStomp, WebStomp, 15674, 8);
    ports := Append(ports, w.stream, Stream, 5552, 9);
  }

  method AppendSecure(before: seq<ContainerPort>, w: Switches) returns (ports: seq<ContainerPort>)
    requires Listing(before, 9)
    ensures Listing(ports, 15)
    ensures forall n :: Named(ports, n) <==> Named(before, n) || Secure(w, n)
  {
    ports := Append(before, true, Amqps, 5671, 10);
    ports := Append(ports, true, ManagementTls, 15671, 11);
    ports := Append(ports, true, PrometheusTls, 15691, 12);
    ports := Append(ports, w.mqtt, Mqtts, 8883, 13);
    ports := Append(ports, w.stomp, Stomps, 61614, 14);
    ports := Append(ports, w.stream, Streams, 5551, 15);
  }

  method AppendSecureWeb(before: seq<ContainerPort>, w: Switches) returns (ports: seq<ContainerPort>)
    requires Listing(before, 15)
    ensures Listing(ports, 17)
    ensures forall n :: Named(ports, n) <==> Named(before, n) || SecureWeb(w, n)
  {
    ports := Append(before, w.webMqtt, WebMqttTls, 15676, 16);
    ports := Append(ports, w.webStomp, WebStompTls, 15673, 17);
  }

  // ---------- the Service ----------

  datatype AppProtocol =
    | AmqpProtocol | AmqpsProtocol | HttpProtocol | HttpsProtocol | MqttProtocol | MqttsProtocol
    | StompProtocol | StompTlsProtocol | StreamProtocol | StreamTlsProtocol | MetricsProtocol | MetricsTlsProtocol
    | NoProtocol

  datatype ServicePort = ServicePort(name: PortName, number: nat, target: nat, nodePort: int, appProtocol: AppProtocol)

  /** What is spoken on the listener of that name. */
  ghost function Protocol(n: PortName): AppProtocol {
    match n
    case Amqp => AmqpProtocol case Amqps => AmqpsProtocol
    case Management | WebMqtt | WebStomp => HttpProtocol
    case ManagementTls | WebMqttTls | WebStompTls => HttpsProtocol
    case Mqtt => MqttProtocol case Mqtts => MqttsProtocol
    case Stomp => StompProtocol case Stomps => StompTlsProtocol
    case Stream => StreamProtocol case Streams => StreamTlsProtocol
    case Prometheus => MetricsProtocol case PrometheusTls => MetricsTlsProtocol
    case Epmd | Custom(_) => NoProtocol
  }

  ghost predicate ServiceOpens(w: Switches, n: PortName) {
    || (!w.disableNonTLS && Plain(w, n))
    || (w.tls && Secure(w, n))
    || (!w.tls && n == Prometheus)
    || (w.mutualTLS && SecureWeb(w, n))
  }

  /** Every entry is filed under its own name and carries that name's number, twice, and protocol. */
  ghost predicate Filed(wanted: map<PortName, ServicePort>) {
    forall n :: n in wanted ==>
      wanted[n].name == n && wanted[n].number == wanted[n].target == Number(n) && wanted[n].nodePort == 0
      && wanted[n].appProtocol == Protocol(n)
  }

  method Put(m: map<PortName, ServicePort>, when: bool, n: PortName, number: nat, appProtocol: AppProtocol)
    returns (r: map<PortName, ServicePort>)
    requires Filed(m) && number == Number(n) && appProtocol == Protocol(n)
    ensures Filed(r) && forall k :: k in r <==> k in m || (when && k == n)
  {
    r := if when then m[n := ServicePort(n, number, number, 0, appProtocol)] else m;
  }

  method GenerateServicePortsMap(w: Switches) returns (m: map<PortName, ServicePort>)
    ensures Filed(m)
    ensures forall n :: n in m <==> ServiceOpens(w, n)
  {
    m := map[];
    if !w.disableNonTLS {
      m := PutPlain(w);
    }
    if w.tls {
      m := PutSecure(m, w);
    } else {
      m := Put(m, true, Prometheus, 15692, MetricsProtocol);
    }
    if w.mutualTLS {
      m := Put(m, w.webStomp, WebStompTls, 15673, HttpsProtocol);
      m := Put(m, w.webMqtt, WebMqttTls, 15676, HttpsProtocol);
    }
  }

  method PutPlain(w: Switches) returns (m: map<PortName, ServicePort>)
    ensures Filed(m) && forall n :: n in m <==> Plain(w, n)
  {
    m := map[];
    m := Put(m, true, Amqp, 5672, AmqpProtocol);
    m := Put(m, true, Management, 15672, HttpProtocol);
    m := PutPlainPlugins(m, w);
  }

  method PutPlainPlugins(before: map<PortName, ServicePort>, w: Switches) returns (m: map<PortName, ServicePort>)
    requires Filed(before)
    ensures Filed(m)
    ensures forall n :: n in m <==> n in before || (Plain(w, n) && n != Amqp && n != Management)
  {
    m := Put(before, w.mqtt, Mqtt, 1883, MqttProtocol);
    m := Put(m, w.webMqtt, WebMqtt, 15675, HttpProtocol);
    m := PutStompAndStream(m, w);
  }

  method PutStompAndStream(before: map<PortName, ServicePort>, w: Switches) returns (m: map<PortName, ServicePort>)
    requires Filed(before)
    ensures Filed(m)
    ensures forall n :: n in m <==>
      n in before || (w.stomp && n == Stomp) || (w.webStomp && n == WebStomp) || (w.stream && n == Stream)
  {
    m := Put(before, w.stomp, Stomp, 61613, StompProtocol);
    m := Put(m, w.webStomp, WebStomp, 15674, HttpProtocol);
    m := Put(m, w.stream, Stream, 5552, StreamProtocol);
  }

  method PutSecure(before: map<PortName, ServicePort>, w: Switches) returns (m: map<PortName, ServicePort>)
    requires Filed(before)
    ensures Filed(m) && forall n :: n in m <==> n in before || Secure(w, n)
  {
    m := Put(before, true, Amqps, 5671, AmqpsProtocol);
    m := Put(m, true, ManagementTls, 15671, HttpsProtocol);
    m := PutSecurePlugins(m, w);
    m := Put(m, true, PrometheusTls, 15691, MetricsTlsProtocol);
  }

  method PutSecurePlugins(before: map<PortName, ServicePort>, w: Switches) returns (m: map<PortName, ServicePort>)
    requires Filed(before)
    ensures Filed(m)
    ensures forall n :: n in m <==>
      n in before || (w.mqtt && n == Mqtts) || (w.stomp && n == Stomps) || (w.stream && n == Streams)
  {
    m := Put(before, w.stomp, Stomps, 61614, StompTlsProtocol);
    m := Put(m, w.mqtt, Mqtts, 8883, MqttsProtocol);
    m := Put(m, w.stream, Streams, 5551, StreamTlsProtocol);
  }

  /** The Service offers the container's listeners, except epmd and, under TLS, plain prometheus. */
  ghost predicate PortsAgree(spec: Spec) {
    var w := SwitchesOf(spec);
    forall n :: ServiceOpens(w, n) <==>
      ContainerOpens(w, n) && n != Epmd && !(n == Prometheus && w.tls)
  }

  /** For every plugin list, Service and container agree exactly when the TLS settings pass the gate. */
  lemma PortsAgreeIffGate(spec: Spec)
    ensures PortsAgree(spec) <==> TLSGate(spec)
    ensures TLSGate(spec) <==>
      !spec.tls.disableNonTLSListeners || spec.tls.secretName != ""
      || (spec.vault.Some? && spec.vault.value.pkiIssuerPath != "")
  {
    var w := SwitchesOf(spec);
    if TLSGate(spec) {
      forall n ensures ServiceOpens(w, n) <==>
        ContainerOpens(w, n) && n != Epmd && !(n == Prometheus && w.tls) {}
    } else {
      assert ContainerOpens(w, Amqps) && !ServiceOpens(w, Amqps);
    }
  }

  /**
   Under the gate a Service always offers AMQP and the management API, on their TLS ports exactly
   with TLS and on their plain ones unless these are disabled, and metrics on exactly one port.
   */
  lemma AlwaysServed(spec: Spec)
    requires !spec.tls.disableNonTLSListeners || spec.TLSEnabled()
    ensures
      var w := SwitchesOf(spec);
      && (ServiceOpens(w, Amqp) <==> !spec.tls.disableNonTLSListeners) && Number(Amqp) == 5672
      && (ServiceOpens(w, Amqps) <==> spec.TLSEnabled()) && Number(Amqps) == 5671
      && (ServiceOpens(w, Management) <==> !spec.tls.disableNonTLSListeners) && Number(Management) == 15672
      && (ServiceOpens(w, ManagementTls) <==> spec.TLSEnabled()) && Number(ManagementTls) == 15671
      && (ServiceOpens(w, Prometheus) <==> !ServiceOpens(w, PrometheusTls))
      && (ServiceOpens(w, Amqp) || ServiceOpens(w, Amqps))
      && (ServiceOpens(w, Management) || ServiceOpens(w, ManagementTls))
  {
    PortsAgreeIffGate(spec);
  }

  lemma PlainListeners(w: Switches)
    ensures ServiceOpens(w, Mqtt) <==> !w.disableNonTLS && w.mqtt
    ensures ServiceOpens(w, WebMqtt) <==> !w.disableNonTLS && w.webMqtt
    ensures ServiceOpens(w, Stomp) <==> !w.disableNonTLS && w.stomp
    ensures ServiceOpens(w, WebStomp) <==> !w.disableNonTLS && w.webStomp
    ensures ServiceOpens(w, Stream) <==> !w.disableNonTLS && w.stream
  {
  }

  /** A plugin's plain port is offered exactly with the plugin, the stream port with either of two. */
  lemma PluginsServed(spec: Spec)
    ensures
      var w, plain := SwitchesOf(spec), !spec.tls.disableNonTLSListeners;
      && (ServiceOpens(w, Mqtt) <==> plain && "rabbitmq_mqtt" in spec.plugins)
      && (ServiceOpens(w, WebMqtt) <==> plain && "rabbitmq_web_mqtt" in spec.plugins)
      && (ServiceOpens(w, Stomp) <==> plain && "rabbitmq_stomp" in spec.plugins)
      && (ServiceOpens(w, WebStomp) <==> plain && "rabbitmq_web_stomp" in spec.plugins)
      && (ServiceOpens(w, Stream) <==>
          plain && ("rabbitmq_stream" in spec.plugins || "rabbitmq_multi_dc_replication" in spec.plugins))
  {
    PlainListeners(SwitchesOf(spec));
  }

  // ---------- reconciling the ports of an existing Service ----------

  /** The wanted ports that the Service already has, in its order, with their node ports. */
  ghost function Kept(ports: seq<ServicePort>, wanted: map<PortName, ServicePort>): seq<ServicePort> {
    if ports == [] then []
    else if ports[0].name in wanted then
      [wanted[ports[0].name].(nodePort := ports[0].nodePort)] + Kept(ports[1..], wanted - {ports[0].name})
    else Kept(ports[1..], wanted)
  }

  ghost predicate DistinctNames(ports: seq<ServicePort>) {
    forall i, j :: 0 <= i < j < |ports| ==> ports[i].name != ports[j].name
  }

  ghost predicate HasName(ports: seq<ServicePort>, n: PortName) { exists i :: 0 <= i < |ports| && ports[i].name == n }

  /** What an update may return: the kept ports, then the missing ones in an order of Go's choosing. */
  ghost predicate Reconciled(ports: seq<ServicePort>, wanted: map<PortName, ServicePort>, updated: seq<ServicePort>) {
    var kept := Kept(ports, wanted);
    && kept <= updated
    && DistinctNames(updated)
    && (forall n :: HasName(updated, n) <==> n in wanted)
    && (forall i :: |kept| <= i < |updated| ==> updated[i].name in wanted && updated[i] == wanted[updated[i].name])
  }

  lemma {:induction false} KeptNames(ports: seq<ServicePort>, wanted: map<PortName, ServicePort>)
    requires Filed(wanted)
    ensures
      var kept := Kept(ports, wanted);
      && DistinctNames(kept)
      && (forall n :: HasName(kept, n) <==> n in wanted && HasName(ports, n))
      && (forall i :: 0 <= i < |kept| ==>
          kept[i].name in wanted && kept[i] == wanted[kept[i].name].(nodePort := kept[i].nodePort))
  {
    if ports != [] {
      var p, rest := ports[0].name, ports[1..];
      var w := if p in wanted then wanted - {p} else wanted;
      KeptNames(rest, w);
      var tail := Kept(rest, w);
      var kept := Kept(ports, wanted);
      assert forall n :: HasName(ports, n) <==> n == p || HasName(rest, n) by { HeadOrTail(ports); }
      if p in wanted {
        assert kept[1..] == tail;
        assert forall n :: HasName(kept, n) <==> n == p || HasName(tail, n) by { HeadOrTail(kept); }
        forall i | 0 <= i < |tail| ensures tail[i].name != p { assert tail[i].name in w; }
      }
    }
  }

  lemma HeadOrTail(ports: seq<ServicePort>)
    requires ports != []
    ensures forall n :: HasName(ports, n) <==> n == ports[0].name || HasName(ports[1..], n)
  {
    forall n ensures HasName(ports, n) <==> n == ports[0].name || HasName(ports[1..], n) {
      if HasName(ports, n) {
        var i :| 0 <= i < |ports| && ports[i].name == n;
        if i > 0 { assert ports[1..][i - 1].name == n; }
      }
      if HasName(ports[1..], n) {
        var i :| 0 <= i < |ports[1..]| && ports[1..][i].name == n;
        assert ports[i + 1].name == n;
      }
    }
  }

  /** Where a name is first met. */
  ghost function FirstPort(ports: seq<ServicePort>, n: PortName): (i: nat)
    requires HasName(ports, n)
    ensures i < |ports| && ports[i].name == n && forall j :: 0 <= j < i ==> ports[j].name != n
  {
    HeadOrTail(ports);
    if ports[0].name == n then 0 else 1 + FirstPort(ports[1..], n)
  }

  /** Where the i-th kept port comes from. */
  ghost function Source(ports: seq<ServicePort>, wanted: map<PortName, ServicePort>, i: nat): nat
    requires i < |Kept(ports, wanted)|
  {
    var p := ports[0].name;
    if p !in wanted then 1 + Source(ports[1..], wanted, i)
    else if i == 0 then 0
    else 1 + Source(ports[1..], wanted - {p}, i - 1)
  }

  lemma {:induction false} SourceMeans(ports: seq<ServicePort>, wanted: map<PortName, ServicePort>, i: nat)
    requires Filed(wanted) && i < |Kept(ports, wanted)|
    ensures
      var s, port := Source(ports, wanted, i), Kept(ports, wanted)[i];
      && s < |ports| && ports[s].name == port.name && ports[s].nodePort == port.nodePort && port.name in wanted
      && forall j :: 0 <= j < s ==> ports[j].name != port.name
  {
    var p := ports[0].name;
    if p !in wanted {
      SourceMeans(ports[1..], wanted, i);
    } else if i > 0 {
      SourceMeans(ports[1..], wanted - {p}, i - 1);
    }
  }

  lemma {:induction false} SourceOrder(ports: seq<ServicePort>, wanted: map<PortName, ServicePort>, i: nat, j: nat)
    requires i < j < |Kept(ports, wanted)|
    ensures Source(ports, wanted, i) < Source(ports, wanted, j)
  {
    var p := ports[0].name;
    if p !in wanted {
      SourceOrder(ports[1..], wanted, i, j);
    } else if i > 0 {
      SourceOrder(ports[1..], wanted - {p}, i - 1, j - 1);
    }
  }

  /** A kept port has the node port of its first occurrence, and kept ports stay in their old order. */
  lemma KeptOrder(ports: seq<ServicePort>, wanted: map<PortName, ServicePort>, i: nat)
    requires Filed(wanted) && i < |Kept(ports, wanted)|
    ensures
      var kept := Kept(ports, wanted);
      && HasName(ports, kept[i].name)
      && kept[i].nodePort == ports[FirstPort(ports, kept[i].name)].nodePort
      && forall j :: 0 <= j < i && HasName(ports, kept[j].name) ==>
        FirstPort(ports, kept[j].name) < FirstPort(ports, kept[i].name)
  {
    var kept := Kept(ports, wanted);
    SourceIsFirst(ports, wanted, i);
    forall j | 0 <= j < i
      ensures HasName(ports, kept[j].name) && FirstPort(ports, kept[j].name) < FirstPort(ports, kept[i].name)
    {
      SourceIsFirst(ports, wanted, j);
      SourceOrder(ports, wanted, j, i);
    }
  }

  lemma SourceIsFirst(ports: seq<ServicePort>, wanted: map<PortName, ServicePort>, i: nat)
    requires Filed(wanted) && i < |Kept(ports, wanted)|
    ensures
      var port := Kept(ports, wanted)[i];
      && HasName(ports, port.name) && FirstPort(ports, port.name) == Source(ports, wanted, i)
      && ports[FirstPort(ports, port.name)].nodePort == port.nodePort
  {
    SourceMeans(ports, wanted, i);
  }

  lemma KeptNext(ports: seq<ServicePort>, i: nat, left: map<PortName, ServicePort>)
    requires i < |ports| && ports[i].name in left
    ensures Kept(ports[i..], left)
         == [left[ports[i].name].(nodePort := ports[i].nodePort)] + Kept(ports[i + 1..], left - {ports[i].name})
  {
    assert ports[i..][1..] == ports[i + 1..];
  }

  method UpdatePorts(ports: seq<ServicePort>, wanted: map<PortName, ServicePort>) returns (updated: seq<ServicePort>)
    requires Filed(wanted)
    ensures Reconciled(ports, wanted, updated)
  {
    var left := wanted;
    updated := [];
    for i := 0 to |ports|
      invariant Filed(left)
      invariant updated + Kept(ports[i..], left) == Kept(ports, wanted)
      invariant forall n :: n in left ==> n in wanted && left[n] == wanted[n]
      invariant forall n :: HasName(updated, n) <==> n in wanted && n !in left
      invariant DistinctNames(updated)
    {
      var p := ports[i];
      if p.name in left {
        var value := left[p.name];
        ghost var before := updated;
        KeptNext(ports, i, left);
        updated := updated + [value.(nodePort := p.nodePort)];
        left := left - {p.name};
        NameAppended(before, value.(nodePort := p.nodePort));
      }
    }
    updated := AppendMissing(updated, wanted, left);
  }

  /** The second loop: whatever is left of the map, in any order. */
  method AppendMissing(kept: seq<ServicePort>, ghost wanted: map<PortName, ServicePort>, missing: map<PortName,
        ServicePort>)
    returns (updated: seq<ServicePort>)
    requires Filed(missing) && DistinctNames(kept)
    requires forall n :: n in missing ==> n in wanted && missing[n] == wanted[n]
    requires forall n :: HasName(kept, n) <==> n in wanted && n !in missing
    ensures kept <= updated && DistinctNames(updated)
    ensures forall n :: HasName(updated, n) <==> n in wanted
    ensures forall i :: |kept| <= i < |updated| ==> updated[i].name in wanted && updated[i] == wanted[updated[i].name]
  {
    var left := missing;
    updated := kept;
    while left != map[]
      invariant Filed(left) && kept <= updated
      invariant forall n :: n in left ==> n in wanted && left[n] == wanted[n]
      invariant forall n :: HasName(updated, n) <==> n in wanted && n !in left
      invariant DistinctNames(updated)
      invariant forall i :: |kept| <= i < |updated| ==>
        updated[i].name in wanted && updated[i] == wanted[updated[i].name]
      decreases left.Keys
    {
      var n :| n in left;
      ghost var before := updated;
      updated := updated + [left[n]];
      left := left - {n};
      NameAppended(before, wanted[n]);
    }
  }

  lemma NameAppended(ports: seq<ServicePort>, p: ServicePort)
    ensures forall n :: HasName(ports + [p], n) <==> HasName(ports, n) || n == p.name
    ensures DistinctNames(ports) && !HasName(ports, p.name) ==> DistinctNames(ports + [p])
  {
    var r := ports + [p];
    forall n ensures HasName(r, n) <==> HasName(ports, n) || n == p.name {
      if HasName(ports, n) {
        var i :| 0 <= i < |ports| && ports[i].name == n;
        assert r[i].name == n;
      }
      assert r[|ports|].name == p.name;
    }
  }

  lemma {:induction false} KeptWhole(ports: seq<ServicePort>, wanted: map<PortName, ServicePort>)
    requires Filed(wanted) && DistinctNames(ports)
    requires forall i :: 0 <= i < |ports| ==>
      ports[i].name in wanted && ports[i] == wanted[ports[i].name].(nodePort := ports[i].nodePort)
    ensures Kept(ports, wanted) == ports
  {
    if ports != [] {
      var p := ports[0].name;
      KeptWhole(ports[1..], wanted - {p});
    }
  }

  /** A second pass over the result returns the identical list, whatever order Go picks. */
  lemma SecondPassChangesNothing(ports: seq<ServicePort>, wanted: map<PortName, ServicePort>, once: seq<ServicePort>,
        twice: seq<ServicePort>)
    requires Filed(wanted) && Reconciled(ports, wanted, once) && Reconciled(once, wanted, twice)
    ensures twice == once
  {
    KeptNames(ports, wanted);
    var kept := Kept(ports, wanted);
    forall i | 0 <= i < |once|
      ensures once[i].name in wanted && once[i] == wanted[once[i].name].(nodePort := once[i].nodePort)
    {
      if i < |kept| { assert once[i] == kept[i]; }
    }
    KeptWhole(once, wanted);
    assert once <= twice;
    if |twice| > 0 {
      var k := |twice| - 1;
      assert HasName(twice, twice[k].name) && HasName(once, twice[k].name);
      var j :| 0 <= j < |once| && once[j].name == twice[k].name;
      assert twice[j] == once[j];
    }
  }

  /** Ports there were before come first, in the order of their first occurrences; new ones follow. */
  ghost predicate OldFirst(was: seq<ServicePort>, ports: seq<ServicePort>) {
    forall i, j :: 0 <= i < j < |ports| && HasName(was, ports[j].name) ==>
      HasName(was, ports[i].name) && FirstPort(was, ports[i].name) < FirstPort(was, ports[j].name)
  }

  lemma ReconciledIsOldFirst(was: seq<ServicePort>, wanted: map<PortName, ServicePort>, updated: seq<ServicePort>)
    requires Filed(wanted) && Reconciled(was, wanted, updated)
    ensures OldFirst(was, updated)
  {
    var kept := Kept(was, wanted);
    forall i, j | 0 <= i < j < |updated| && HasName(was, updated[j].name)
      ensures HasName(was, updated[i].name) && FirstPort(was, updated[i].name) < FirstPort(was, updated[j].name)
    {
      if j >= |kept| { NotKept(was, wanted, updated, j); }
      assert updated[i] == kept[i] && updated[j] == kept[j];
      KeptOrder(was, wanted, i);
      KeptOrder(was, wanted, j);
    }
  }

  /** A published port has the numbers of its name and, unless cleared, the node port it had before. */
  ghost predicate Carried(was: seq<ServicePort>, p: ServicePort, cleared: bool) {
    && p.number == p.target == Number(p.name)
    && p.appProtocol == Protocol(p.name)
    && p.nodePort == if cleared || !HasName(was, p.name) then 0 else was[FirstPort(was, p.name)].nodePort
  }

  lemma ClearedMeans(was: seq<ServicePort>, a: seq<ServicePort>, b: seq<ServicePort>)
    requires |a| == |b| && forall i :: 0 <= i < |a| ==> b[i] == a[i].(nodePort := 0)
    requires OldFirst(was, a) && DistinctNames(a) && forall i :: 0 <= i < |a| ==> Carried(was, a[i], false)
    ensures forall n :: HasName(a, n) <==> HasName(b, n)
    ensures OldFirst(was, b) && DistinctNames(b) && forall i :: 0 <= i < |b| ==> Carried(was, b[i], true)
  {
    SameNames(a, b);
    forall i | 0 <= i < |b| ensures Carried(was, b[i], true) {
      assert Carried(was, a[i], false);
    }
  }

  class Service {
    var ports: seq<ServicePort>
    var serviceType: ServiceType

    /** The part of the Service builder's update that concerns type and ports. */
    method Update(spec: Spec)
      modifies this
      ensures serviceType == spec.serviceType
      ensures forall n :: HasName(ports, n) <==> ServiceOpens(SwitchesOf(spec), n)
      ensures DistinctNames(ports)
      ensures forall i :: 0 <= i < |ports| ==>
        Carried(old(ports), ports[i], spec.serviceType.ClusterIP? || spec.serviceType.Unset?)
      ensures OldFirst(old(ports), ports)
    {
      serviceType := spec.serviceType;
      var wanted := GenerateServicePortsMap(SwitchesOf(spec));
      var updated := UpdatePorts(ports, wanted);
      UpdatedMeans(ports, wanted, updated);
      ReconciledIsOldFirst(ports, wanted, updated);
      ports := updated;
      if spec.serviceType.ClusterIP? || spec.serviceType.Unset? {
        ClearNodePorts();
        ClearedMeans(old(ports), updated, ports);
      }
    }

    /** An address inside the cluster needs no port on its nodes. */
    method ClearNodePorts()
      modifies this`ports
      ensures |ports| == |old(ports)|
      ensures forall k :: 0 <= k < |ports| ==> ports[k] == old(ports)[k].(nodePort := 0)
    {
      for i := 0 to |ports|
        invariant |ports| == |old(ports)|
        invariant forall k :: 0 <= k < |ports| ==>
          ports[k] == if k < i then old(ports)[k].(nodePort := 0) else old(ports)[k]
      {
        ports := ports[i := ports[i].(nodePort := 0)];
      }
    }
  }

  lemma SameNames(a: seq<ServicePort>, b: seq<ServicePort>)
    requires |a| == |b| && forall i :: 0 <= i < |a| ==> a[i].name == b[i].name
    ensures forall n :: HasName(a, n) <==> HasName(b, n)
  {
    forall n ensures HasName(a, n) <==> HasName(b, n) {
      if HasName(a, n) { var i :| 0 <= i < |a| && a[i].name == n; assert b[i].name == n; }
      if HasName(b, n) { var i :| 0 <= i < |b| && b[i].name == n; assert a[i].name == n; }
    }
  }

  /** An updated port is the wanted one, with the node port of the first old port of that name. */
  lemma UpdatedMeans(ports: seq<ServicePort>, wanted: map<PortName, ServicePort>, updated: seq<ServicePort>)
    requires Filed(wanted) && Reconciled(ports, wanted, updated)
    ensures forall i :: 0 <= i < |updated| ==> Carried(ports, updated[i], false)
  {
    KeptNames(ports, wanted);
    var kept := Kept(ports, wanted);
    forall i | 0 <= i < |updated| ensures Carried(ports, updated[i], false) {
      if i < |kept| {
        assert updated[i] == kept[i];
        KeptOrder(ports, wanted, i);
      } else {
        NotKept(ports, wanted, updated, i);
      }
    }
  }

  lemma NotKept(ports: seq<ServicePort>, wanted: map<PortName, ServicePort>, updated: seq<ServicePort>, i: nat)
    requires Filed(wanted) && Reconciled(ports, wanted, updated) && |Kept(ports, wanted)| <= i < |updated|
    ensures !HasName(ports, updated[i].name)
  {
    KeptNames(ports, wanted);
    var kept := Kept(ports, wanted);
    forall j | 0 <= j < |kept| ensures kept[j].name != updated[i].name { assert updated[j] == kept[j]; }
  }

  // ---------- the default-user Secret ----------

  datatype SecretKey = Port | MqttPort | StompPort | StreamPort | WebMqttPort | WebStompPort | OtherKey(name: string)

  function PluginOf(k: SecretKey): Plugin {
    match k
    case MqttPort => "rabbitmq_mqtt"
    case StompPort => "rabbitmq_stomp"
    case StreamPort => "rabbitmq_stream"
    case WebMqttPort => "rabbitmq_web_mqtt"
    case WebStompPort => "rabbitmq_web_stomp"
    case _ => ""
  }

  const PLUGIN_KEYS: set<SecretKey> := {MqttPort, StompPort, StreamPort, WebMqttPort, WebStompPort}

  function TLSNumber(k: SecretKey): nat {
    match k
    case Port => 5671 case MqttPort => 8883 case StompPort => 61614 case StreamPort => 5551
    case WebMqttPort => 15676 case WebStompPort => 15673 case OtherKey(_) => 0
  }

  function PlainNumber(k: SecretKey): nat {
    match k
    case Port => 5672 case MqttPort => 1883 case StompPort => 61613 case StreamPort => 5552
    case WebMqttPort => 15675 case WebStompPort => 15674 case OtherKey(_) => 0
  }

  /** The port the Secret publishes under a key, if it publishes one. */
  ghost function Published(spec: Spec, k: SecretKey): Option<nat> {
    if k.OtherKey? || (k in PLUGIN_KEYS && !spec.AdditionalPluginEnabled(PluginOf(k))) then None
    else Some(if spec.SecretTLSEnabled() then TLSNumber(k) else PlainNumber(k))
  }

  class Secret {
    var data: map<SecretKey, string>

    /** Go visits the plugin keys in an order of its own choosing. */
    method UpdatePorts(spec: Spec)
      modifies this
      ensures forall k: SecretKey :: !k.OtherKey? ==>
        (k in data <==> Published(spec, k).Some?) && (k in data ==> data[k] == Itoa(Published(spec, k).value))
      ensures forall k: SecretKey :: k.OtherKey? ==>
        (k in data <==> k in old(data)) && (k in data ==> data[k] == old(data)[k])
    {
      var tls := spec.SecretTLSEnabled();
      data := data[Port := Itoa(if tls then TLSNumber(Port) else PlainNumber(Port))];
      var left := PLUGIN_KEYS;
      while left != {}
        invariant left <= PLUGIN_KEYS
        invariant forall k: SecretKey :: !k.OtherKey? && k !in left ==>
          (k in data <==> Published(spec, k).Some?) && (k in data ==> data[k] == Itoa(Published(spec, k).value))
        invariant forall k: SecretKey :: k.OtherKey? ==>
          (k in data <==> k in old(data)) && (k in data ==> data[k] == old(data)[k])
        decreases left
      {
        var k :| k in left;
        if spec.AdditionalPluginEnabled(PluginOf(k)) {
          data := data[k := Itoa(if tls then TLSNumber(k) else PlainNumber(k))];
        } else {
          data := data - {k};
        }
        left := left - {k};
      }
    }
  }

  /** Every port the Secret publishes can be reached through the Service. */
  ghost predicate SecretReachable(spec: Spec) {
    forall k :: Published(spec, k).Some? ==>
      exists n :: ServiceOpens(SwitchesOf(spec), n) && Number(n) == Published(spec, k).value
  }

  /**
   The Secret is not always right: with a TLS secret it publishes the TLS ports of the web plugins
   even when no CA is set and the Service does not open them, and without one it publishes plain
   ports even when Vault provides TLS and the plain listeners are off. These are the only cases.
   */
  lemma SecretReachableIff(spec: Spec)
    ensures SecretReachable(spec) <==>
      if spec.SecretTLSEnabled() then
        spec.MutualTLSEnabled() ||
        !(spec.AdditionalPluginEnabled("rabbitmq_web_mqtt") || spec.AdditionalPluginEnabled("rabbitmq_web_stomp"))
      else !spec.DisableNonTLSListeners()
  {
    if spec.SecretTLSEnabled() { SecretWithTLS(spec); } else { SecretWithoutTLS(spec); }
  }

  lemma SecretWithTLS(spec: Spec)
    requires spec.SecretTLSEnabled()
    ensures SecretReachable(spec) <==>
      (spec.MutualTLSEnabled()
       || !(spec.AdditionalPluginEnabled("rabbitmq_web_mqtt") || spec.AdditionalPluginEnabled("rabbitmq_web_stomp")))
  {
    var w := SwitchesOf(spec);
    if w.mutualTLS || !(w.webMqtt || w.webStomp) {
      forall k | Published(spec, k).Some?
        ensures exists n :: ServiceOpens(w, n) && Number(n) == Published(spec, k).value
      {
        var n := match k
          case Port => Amqps case MqttPort => Mqtts case StompPort => Stomps case StreamPort => Streams
          case WebMqttPort => WebMqttTls case WebStompPort => WebStompTls case OtherKey(_) => Epmd;
        assert ServiceOpens(w, n) && Number(n) == Published(spec, k).value;
      }
    } else {
      var k := if w.webMqtt then WebMqttPort else WebStompPort;
      assert Published(spec, k).Some?;
    }
  }

  lemma SecretWithoutTLS(spec: Spec)
    requires !spec.SecretTLSEnabled()
    ensures SecretReachable(spec) <==> !spec.DisableNonTLSListeners()
  {
    var w := SwitchesOf(spec);
    if w.disableNonTLS {
      assert Published(spec, Port) == Some(5672);
    } else {
      forall k | Published(spec, k).Some?
        ensures exists n :: ServiceOpens(w, n) && Number(n) == Published(spec, k).value
      {
        var n := match k
          case Port => Amqp case MqttPort => Mqtt case StompPort => Stomp case StreamPort => Stream
          case WebMqttPort => WebMqtt case WebStompPort => WebStomp case OtherKey(_) => Epmd;
        assert ServiceOpens(w, n) && Number(n) == Published(spec, k).value;
      }
    }
  }

  /**
   A TLS secret without a CA and the web MQTT plugin: the settings pass the gate, and the Secret
   publishes a port that the Service does not open.
   */
  lemma SecretCanMislead()
    ensures exists spec :: TLSGate(spec) && !SecretReachable(spec)
  {
    var tls := TLSSpec("tls", "", false);
    var spec := Spec(1, "rabbitmq", Some([]), 10, ClusterIP, ["rabbitmq_web_mqtt"], "", tls, None, false, None, None);
    assert spec.AdditionalPluginEnabled("rabbitmq_web_mqtt");
    assert |spec.tls.secretName| == 3;
    SecretReachableIff(spec);
  }
}
