/** The collectors of the VPN metrics exporter: each turns what a tool printed into lines
    of the exposition format, and `collect_all` puts them together into the document the
    exporter serves. The tools' runs arrive as `Outcome`s, the `/proc/net/dev` read as an
    optional text, the environment as a `Config`. Lines are kept as values (which metric,
    which labels, which value) and become text only when the document is rendered. */
module VpnExporter {
  import opened PyText
  import opened Tools
  import opened Exposition
  import opened Patterns

  /** The settings the exporter reads from its environment at start-up:
      WIREGUARD_INTERFACE and IPSEC_CHECK. */
  datatype Config = Config(wgInterface: string, ipsecCheck: bool)

  // ===========================================================================
  // The lines the exporter writes

  /** The metric families that appear in the exporter's document. */
  datatype Family =
    | TunnelStatus | ExporterError
    | PeerReceiveBytes | PeerTransmitBytes | PeerLastHandshake
    | IpsecConnectionsEstablished | IpsecSasInstalled | IpsecReceiveBytes | IpsecTransmitBytes
    | InterfaceRxBytes | InterfaceTxBytes | InterfaceRxPackets | InterfaceTxPackets
    | InterfaceRxErrors | InterfaceTxErrors
    | Latency | ExporterInfo | ScrapeTimestamp

  function FamilyName(family: Family): string
  {
    match family
    case TunnelStatus => "vpn_tunnel_status"
    case ExporterError => "vpn_exporter_error"
    case PeerReceiveBytes => "wireguard_peer_receive_bytes_total"
    case PeerTransmitBytes => "wireguard_peer_transmit_bytes_total"
    case PeerLastHandshake => "wireguard_peer_last_handshake_seconds"
    case IpsecConnectionsEstablished => "ipsec_connections_established"
    case IpsecSasInstalled => "ipsec_sas_installed"
    case IpsecReceiveBytes => "ipsec_receive_bytes_total"
    case IpsecTransmitBytes => "ipsec_transmit_bytes_total"
    case InterfaceRxBytes => "vpn_interface_rx_bytes"
    case InterfaceTxBytes => "vpn_interface_tx_bytes"
    case InterfaceRxPackets => "vpn_interface_rx_packets"
    case InterfaceTxPackets => "vpn_interface_tx_packets"
    case InterfaceRxErrors => "vpn_interface_rx_errors"
    case InterfaceTxErrors => "vpn_interface_tx_errors"
    case Latency => "vpn_latency_ms"
    case ExporterInfo => "vpn_exporter_info"
    case ScrapeTimestamp => "vpn_exporter_scrape_timestamp"
  }

  lemma TunnelNamesAreWords()
    ensures Word(FamilyName(TunnelStatus)) && Word(FamilyName(ExporterError))
    ensures Word(FamilyName(Latency))
  {
  }

  lemma PeerNamesAreWords()
    ensures Word(FamilyName(PeerReceiveBytes)) && Word(FamilyName(PeerTransmitBytes))
  {
  }

  lemma HandshakeNameIsWord()
    ensures Word(FamilyName(PeerLastHandshake))
  {
  }

  lemma IpsecNamesAreWords()
    ensures Word(FamilyName(IpsecConnectionsEstablished)) && Word(FamilyName(IpsecSasInstalled))
    ensures Word(FamilyName(IpsecReceiveBytes)) && Word(FamilyName(IpsecTransmitBytes))
  {
  }

  lemma InterfaceNamesAreWords()
    ensures Word(FamilyName(InterfaceRxBytes)) && Word(FamilyName(InterfaceTxBytes))
    ensures Word(FamilyName(InterfaceRxPackets)) && Word(FamilyName(InterfaceTxPackets))
  {
  }

  lemma ExporterNamesAreWords()
    ensures Word(FamilyName(InterfaceRxErrors)) && Word(FamilyName(InterfaceTxErrors))
    ensures Word(FamilyName(ExporterInfo)) && Word(FamilyName(ScrapeTimestamp))
  {
  }

  /** Every metric name is one word: no space, no brace, no line break. */
  lemma FamilyNamePlain(family: Family)
    ensures var name := FamilyName(family);
      (' ' !in name && '{' !in name && '\n' !in name)
  {
    TunnelNamesAreWords();
    PeerNamesAreWords();
    HandshakeNameIsWord();
    IpsecNamesAreWords();
    InterfaceNamesAreWords();
    ExporterNamesAreWords();
    WordPlain(FamilyName(family));
  }

  /** The label names the exporter uses. */
  datatype Key = VpnType | Interface | PublicKey | Endpoint | Error | Component | Version | Target

  function KeyName(key: Key): string
  {
    match key
    case VpnType => "vpn_type"
    case Interface => "interface"
    case PublicKey => "public_key"
    case Endpoint => "endpoint"
    case Error => "error"
    case Component => "component"
    case Version => "version"
    case Target => "target"
  }

  lemma KeyNamePlain(key: Key)
    ensures '\n' !in KeyName(key)
  {
  }

  /** A label of a sample: its name and its value. */
  datatype Tag = Tag(key: Key, value: string)

  /** The families the document annotates with HELP and TYPE lines. */
  predicate Documented(family: Family)
  {
    family.TunnelStatus? || family.PeerReceiveBytes? || family.PeerTransmitBytes?
    || family.Latency? || family.InterfaceRxBytes? || family.InterfaceTxBytes?
    || family.IpsecConnectionsEstablished? || family.ExporterInfo?
  }

  type DocumentedFamily = family: Family | Documented(family) witness TunnelStatus

  /** The text of a family's HELP line. */
  function Description(family: DocumentedFamily): string
  {
    match family
    case TunnelStatus => "VPN tunnel status (1=up, 0=down)"
    case PeerReceiveBytes => "Total bytes received from WireGuard peer"
    case PeerTransmitBytes => "Total bytes sent to WireGuard peer"
    case Latency => "VPN tunnel latency in milliseconds"
    case InterfaceRxBytes => "Network interface received bytes"
    case InterfaceTxBytes => "Network interface transmitted bytes"
    case IpsecConnectionsEstablished => "Number of established IPsec connections"
    case _ => "VPN metrics exporter info"
  }

  /** The type a family's TYPE line declares: the byte totals are counters, the rest
      gauges. */
  function Kind(family: DocumentedFamily): string
  {
    if family.PeerReceiveBytes? || family.PeerTransmitBytes?
       || family.InterfaceRxBytes? || family.InterfaceTxBytes?
    then "counter" else "gauge"
  }

  predicate NoNewline(text: string)
  {
    forall i :: 0 <= i < |text| ==> text[i] != '\n'
  }

  lemma TunnelDescriptionOneLine()
    ensures NoNewline(Description(TunnelStatus))
  {
  }

  lemma LatencyDescriptionOneLine()
    ensures NoNewline(Description(Latency))
  {
  }

  lemma ReceivedPeerDescriptionOneLine()
    ensures NoNewline(Description(PeerReceiveBytes))
  {
  }

  lemma SentPeerDescriptionOneLine()
    ensures NoNewline(Description(PeerTransmitBytes))
  {
  }

  lemma ReceivedDescriptionOneLine()
    ensures NoNewline(Description(InterfaceRxBytes))
  {
  }

  lemma TransmittedDescriptionOneLine()
    ensures NoNewline(Description(InterfaceTxBytes))
  {
  }

  lemma EstablishedDescriptionOneLine()
    ensures NoNewline(Description(IpsecConnectionsEstablished))
  {
  }

  lemma InfoDescriptionOneLine()
    ensures NoNewline(Description(ExporterInfo))
  {
  }

  lemma AnnotationsOneLine(family: DocumentedFamily)
    ensures '\n' !in Description(family) && '\n' !in Kind(family)
  {
    match family {
      case TunnelStatus => TunnelDescriptionOneLine();
      case PeerReceiveBytes => ReceivedPeerDescriptionOneLine();
      case PeerTransmitBytes => SentPeerDescriptionOneLine();
      case Latency => LatencyDescriptionOneLine();
      case InterfaceRxBytes => ReceivedDescriptionOneLine();
      case InterfaceTxBytes => TransmittedDescriptionOneLine();
      case IpsecConnectionsEstablished => EstablishedDescriptionOneLine();
      case ExporterInfo => InfoDescriptionOneLine();
    }
    assert NoNewline(Description(family));
    assert NoNewline(Kind(family));
  }

  /** One line of the document: a HELP or TYPE annotation, or a sample. */
  datatype Line =
    | Help(documented: DocumentedFamily)
    | Type(documented: DocumentedFamily)
    | Sample(family: Family, tags: seq<Tag>, value: string)

  function Labels(tags: seq<Tag>): (labels: seq<Label>)
    ensures |labels| == |tags|
    ensures forall k :: 0 <= k < |tags| ==> labels[k] == Label(KeyName(tags[k].key), tags[k].value)
  {
    seq(|tags|, k requires 0 <= k < |tags| => Label(KeyName(tags[k].key), tags[k].value))
  }

  /** The text of a line, as the f-strings of the collectors write it. */
  function Render(line: Line): string
  {
    match line
    case Help(family) => "# HELP " + FamilyName(family) + " " + Description(family)
    case Type(family) => "# TYPE " + FamilyName(family) + " " + Kind(family)
    case Sample(family, tags, value) => SampleText(FamilyName(family), Labels(tags), value)
  }

  function RenderAll(lines: seq<Line>): (texts: seq<string>)
    ensures |texts| == |lines|
    ensures forall k :: 0 <= k < |lines| ==> texts[k] == Render(lines[k])
  {
    seq(|lines|, k requires 0 <= k < |lines| => Render(lines[k]))
  }

  /** The parts of a line that come from outside hold no line break. */
  predicate OneLine(line: Line)
  {
    line.Sample? ==> '\n' !in line.value && forall t :: t in line.tags ==> '\n' !in t.value
  }

  lemma RenderNoNewline(line: Line)
    requires OneLine(line)
    ensures '\n' !in Render(line)
  {
    match line
    case Help(family) =>
      FamilyNamePlain(family);
      AnnotationsOneLine(family);
    case Type(family) =>
      FamilyNamePlain(family);
      AnnotationsOneLine(family);
    case Sample(family, tags, value) =>
      FamilyNamePlain(family);
      var labels := Labels(tags);
      forall l | l in labels ensures '\n' !in l.name && '\n' !in l.value {
        var k :| 0 <= k < |labels| && labels[k] == l;
        assert tags[k] in tags;
        KeyNamePlain(tags[k].key);
      }
      SampleTextNoNewline(FamilyName(family), labels, value);
  }

  lemma RenderAllNoNewline(lines: seq<Line>)
    requires forall line :: line in lines ==> OneLine(line)
    ensures forall text :: text in RenderAll(lines) ==> '\n' !in text
  {
    forall k | 0 <= k < |lines| ensures '\n' !in RenderAll(lines)[k] {
      assert lines[k] in lines;
      RenderNoNewline(lines[k]);
    }
  }

  /** A reader of a sample line gets back its metric name and, when it holds no space,
      its value. */
  lemma RenderRead(line: Line)
    requires line.Sample? && ' ' !in line.value
    ensures NameOf(Render(line)) == FamilyName(line.family)
    ensures ValueOf(Render(line)) == line.value
  {
    FamilyNamePlain(line.family);
    SampleTextName(FamilyName(line.family), Labels(line.tags), line.value);
    SampleTextValue(FamilyName(line.family), Labels(line.tags), line.value);
  }

  /** Some line of `lines` is a sample of `family`. */
  predicate HasMetric(lines: seq<Line>, family: Family)
  {
    exists k :: 0 <= k < |lines| && lines[k].Sample? && lines[k].family == family
  }

  function ExporterErrorLine(source: Tag, error: string): Line
  {
    Sample(ExporterError, [source, Tag(Error, error)], "1")
  }

  // ===========================================================================
  // WireGuard: `wg show <interface> dump`

  function WireguardStatus(iface: string, up: string): Line
  {
    Sample(TunnelStatus, [Tag(VpnType, "wireguard"), Tag(Interface, iface)], up)
  }

  function WireguardError(error: string): Line
  {
    ExporterErrorLine(Tag(VpnType, "wireguard"), error)
  }

  function Min(a: int, b: int): int
  {
    if a < b then a else b
  }

  /** The `public_key` label: the first twelve characters of the key (all of it when it
      is shorter), then `...`. */
  function KeyLabel(key: string): (text: string)
    ensures |text| == Min(|key|, 12) + 3
    ensures text[..|text| - 3] == key[..Min(|key|, 12)] && text[|text| - 3..] == "..."
  {
    key[..Min(|key|, 12)] + "..."
  }

  /** Two peers share a `public_key` label exactly when their keys agree on the
      characters the label keeps. */
  lemma KeyLabelCollision(a: string, b: string)
    ensures KeyLabel(a) == KeyLabel(b) <==> a[..Min(|a|, 12)] == b[..Min(|b|, 12)]
  {
    if KeyLabel(a) == KeyLabel(b) {
      assert KeyLabel(a)[..|KeyLabel(a)| - 3] == KeyLabel(b)[..|KeyLabel(b)| - 3];
    }
  }

  /** The `endpoint` label: the endpoint field as it is, except that a peer without one
      (`(none)`) is labelled `unknown`. */
  function EndpointLabel(endpoint: string): (text: string)
    ensures text == endpoint <==> endpoint != "(none)"
    ensures text != endpoint ==> text == "unknown"
  {
    if endpoint != "(none)" then endpoint else "unknown"
  }

  /** The three lines of one peer, from the fields of its dump line: bytes received
      (field 5), bytes sent (field 6), latest handshake (field 4). */
  function PeerLines(iface: string, fields: seq<string>): (lines: seq<Line>)
    requires |fields| >= 8
    ensures |lines| == 3
  {
    var key := Tag(PublicKey, KeyLabel(fields[0]));
    var endpoint := Tag(Endpoint, EndpointLabel(fields[2]));
    [ Sample(PeerReceiveBytes, [Tag(Interface, iface), key, endpoint], fields[5]),
      Sample(PeerTransmitBytes, [Tag(Interface, iface), key, endpoint], fields[6]),
      Sample(PeerLastHandshake, [Tag(Interface, iface), key], fields[4]) ]
  }

  /** One peer line of the dump: its lines when it has at least eight tab-separated
      fields, nothing otherwise. */
  function PeerLineMetrics(iface: string, line: string): seq<Line>
  {
    var fields := Split(line, '\t');
    if |fields| >= 8 then PeerLines(iface, fields) else []
  }

  function PeerSection(iface: string, lines: seq<string>): seq<Line>
  {
    if lines == [] then [] else PeerLineMetrics(iface, lines[0]) + PeerSection(iface, lines[1..])
  }

  /** What `collect_wireguard_metrics` returns for a run of `wg show <iface> dump`. On
      success the output is stripped and split into lines; the first one describes the
      interface and yields the status line whatever it holds (`''.split('\n')` is `['']`,
      so there always is a first line); the peer lines follow. */
  function WireguardSection(iface: string, run: Outcome): seq<Line>
  {
    match run
    case Exited(code, stdout, _) =>
      if code == 0 then
        [WireguardStatus(iface, "1")] + PeerSection(iface, Split(Strip(stdout), '\n')[1..])
      else [WireguardStatus(iface, "0")]
    case NotFound(_) => [WireguardStatus(iface, "0"), WireguardError("wg_not_found")]
    case TimedOut => [WireguardError("timeout")]
    case Raised(_) => [WireguardError("exception")]
  }

  /** The body of the peer loop: the lines one peer line of the dump yields. */
  method CollectPeerLine(iface: string, line: string) returns (metrics: seq<Line>)
    ensures metrics == PeerLineMetrics(iface, line)
  {
    metrics := [];
    var parts := Split(line, '\t');
    if |parts| >= 8 {
      var publicKey := KeyLabel(parts[0]);
      var endpoint := EndpointLabel(parts[2]);
      var rxBytes := parts[5];
      var txBytes := parts[6];
      var latestHandshake := parts[4];
      metrics := metrics + [Sample(PeerReceiveBytes,
        [Tag(Interface, iface), Tag(PublicKey, publicKey), Tag(Endpoint, endpoint)], rxBytes)];
      metrics := metrics + [Sample(PeerTransmitBytes,
        [Tag(Interface, iface), Tag(PublicKey, publicKey), Tag(Endpoint, endpoint)], txBytes)];
      metrics := metrics + [Sample(PeerLastHandshake,
        [Tag(Interface, iface), Tag(PublicKey, publicKey)], latestHandshake)];
    }
  }

  lemma {:induction false} PeerSectionSnoc(iface: string, lines: seq<string>, line: string)
    ensures PeerSection(iface, lines + [line]) == PeerSection(iface, lines) + PeerLineMetrics(iface, line)
  {
    if lines == [] {
      assert [line][1..] == [];
    } else {
      assert (lines + [line])[1..] == lines[1..] + [line];
      PeerSectionSnoc(iface, lines[1..], line);
    }
  }

  /** The peer loop: the lines of the dump after the first one, one after the other. */
  method CollectPeers(iface: string, peers: seq<string>) returns (metrics: seq<Line>)
    ensures metrics == PeerSection(iface, peers)
  {
    metrics := [];
    for i := 0 to |peers|
      invariant metrics == PeerSection(iface, peers[..i])
    {
      var peerLines := CollectPeerLine(iface, peers[i]);
      metrics := metrics + peerLines;
      assert peers[..i + 1] == peers[..i] + [peers[i]];
      PeerSectionSnoc(iface, peers[..i], peers[i]);
    }
    assert peers[..|peers|] == peers;
  }

  method CollectWireguardMetrics(config: Config, run: Outcome) returns (metrics: seq<Line>)
    ensures metrics == WireguardSection(config.wgInterface, run)
  {
    var iface := config.wgInterface;
    metrics := [];
    match run {
      case Exited(code, stdout, _) =>
        if code == 0 {
          var lines := Split(Strip(stdout), '\n');
          if |lines| > 0 {
            metrics := metrics + [WireguardStatus(iface, "1")];
            var peerLines := CollectPeers(iface, lines[1..]);
            metrics := metrics + peerLines;
          }
        } else {
          metrics := metrics + [WireguardStatus(iface, "0")];
        }
      case NotFound(_) =>
        metrics := metrics + [WireguardStatus(iface, "0")];
        metrics := metrics + [WireguardError("wg_not_found")];
      case TimedOut =>
        metrics := metrics + [WireguardError("timeout")];
      case Raised(_) =>
        metrics := metrics + [WireguardError("exception")];
    }
  }

  /** Every field list has the eight fields a peer line needs. */
  predicate Wide(peers: seq<seq<string>>)
  {
    forall i :: 0 <= i < |peers| ==> |peers[i]| >= 8
  }

  /** The field lists of the dump lines that describe a peer (eight fields or more). */
  function AcceptedPeers(lines: seq<string>): (peers: seq<seq<string>>)
    ensures Wide(peers)
  {
    if lines == [] then []
    else
      var fields := Split(lines[0], '\t');
      if |fields| >= 8 then [fields] + AcceptedPeers(lines[1..]) else AcceptedPeers(lines[1..])
  }

  /** The lines of the accepted peers, three per peer in the order of the peers. */
  function PeerBlocks(iface: string, peers: seq<seq<string>>): (lines: seq<Line>)
    requires Wide(peers)
    ensures |lines| == 3 * |peers|
  {
    if peers == [] then []
    else
      TailWide(peers);
      PeerLines(iface, peers[0]) + PeerBlocks(iface, peers[1..])
  }

  /** Every peer line with eight fields or more yields exactly its three lines, and every
      other line yields none. */
  lemma {:induction false} PeerSectionBlocks(iface: string, lines: seq<string>)
    ensures PeerSection(iface, lines) == PeerBlocks(iface, AcceptedPeers(lines))
  {
    if lines != [] {
      PeerSectionBlocks(iface, lines[1..]);
      var peers := AcceptedPeers(lines);
      if |Split(lines[0], '\t')| >= 8 {
        assert peers[1..] == AcceptedPeers(lines[1..]);
      }
    }
  }

  /** A slice of the second part of a concatenation, seen from the whole. */
  lemma SliceOfSecond<T>(a: seq<T>, b: seq<T>, i: nat, n: nat)
    requires i + n <= |b|
    ensures (a + b)[|a| + i..|a| + i + n] == b[i..i + n]
  {
  }

  lemma SliceOfFirst<T>(a: seq<T>, b: seq<T>)
    ensures (a + b)[..|a|] == a
  {
  }

  /** Block `k` of `first + rest`, when `first` is one block, is block `k - 1` of `rest`. */
  lemma ShiftBlock<T>(first: seq<T>, rest: seq<T>, k: nat, block: seq<T>)
    requires |first| == 3 && 0 < k && 3 * k <= |rest|
    requires rest[3 * k - 3..3 * k] == block
    ensures (first + rest)[3 * k..3 * k + 3] == block
  {
    SliceOfSecond(first, rest, 3 * k - 3, 3);
  }

  /** Every peer after the first has the eight fields too. */
  lemma TailWide(peers: seq<seq<string>>)
    requires Wide(peers) && peers != []
    ensures |peers[0]| >= 8 && Wide(peers[1..])
  {
  }

  /** Peer `k` owns lines `3k`, `3k+1` and `3k+2`. */
  lemma {:induction false} PeerBlocksAt(iface: string, peers: seq<seq<string>>, k: nat)
    requires Wide(peers)
    requires k < |peers|
    ensures PeerBlocks(iface, peers)[3 * k..3 * k + 3] == PeerLines(iface, peers[k])
  {
    TailWide(peers);
    var tail := peers[1..];
    var first := PeerLines(iface, peers[0]);
    var rest := PeerBlocks(iface, tail);
    assert PeerBlocks(iface, peers) == first + rest;
    assert |first| == 3;
    if k == 0 {
      SliceOfFirst(first, rest);
    } else {
      PeerBlocksAt(iface, tail, k - 1);
      assert tail[k - 1] == peers[k];
      ShiftBlock(first, rest, k, PeerLines(iface, peers[k]));
    }
  }

  lemma WireguardSucceeded(iface: string, stdout: string, stderr: string)
    ensures WireguardSection(iface, Exited(0, stdout, stderr))
      == [WireguardStatus(iface, "1")] + PeerBlocks(iface, AcceptedPeers(Split(Strip(stdout), '\n')[1..]))
  {
    PeerSectionBlocks(iface, Split(Strip(stdout), '\n')[1..]);
  }

  /** A run that exits with 0 yields the status line with value 1 first, then, for the
      `k`-th line after the first with eight fields or more, its three lines. */
  lemma WireguardSuccess(iface: string, stdout: string, stderr: string, k: nat)
    requires k < |AcceptedPeers(Split(Strip(stdout), '\n')[1..])|
    ensures var lines := WireguardSection(iface, Exited(0, stdout, stderr));
      var peers := AcceptedPeers(Split(Strip(stdout), '\n')[1..]);
      (|lines| == 1 + 3 * |peers| && lines[0] == WireguardStatus(iface, "1")
      && lines[1 + 3 * k..4 + 3 * k] == PeerLines(iface, peers[k]))
  {
    WireguardSucceeded(iface, stdout, stderr);
    StatusThenBlocks(iface, AcceptedPeers(Split(Strip(stdout), '\n')[1..]), k);
  }

  lemma StatusThenBlocks(iface: string, peers: seq<seq<string>>, k: nat)
    requires Wide(peers)
    requires k < |peers|
    ensures var lines := [WireguardStatus(iface, "1")] + PeerBlocks(iface, peers);
      (|lines| == 1 + 3 * |peers| && lines[0] == WireguardStatus(iface, "1")
      && lines[1 + 3 * k..4 + 3 * k] == PeerLines(iface, peers[k]))
  {
    var head := [WireguardStatus(iface, "1")];
    PeerBlocksAt(iface, peers, k);
    SliceOfSecond(head, PeerBlocks(iface, peers), 3 * k, 3);
  }

  /** The first line of the dump never yields peer lines, whatever it holds: the peers
      come from the lines after it only. */
  lemma WireguardSkipsInterfaceLine(iface: string, stdout: string, stderr: string,
                                    first: string, rest: string)
    requires Strip(stdout) == first + "\n" + rest
    requires '\n' !in first
    ensures WireguardSection(iface, Exited(0, stdout, stderr))
      == [WireguardStatus(iface, "1")] + PeerSection(iface, Split(rest, '\n'))
  {
    SplitAfterPiece(first, rest, '\n');
  }

  /** A failing run yields: a status line with value 0 alone (non-zero exit); a status
      line with value 0 and the `wg_not_found` error (no `wg` tool); the `timeout` or
      `exception` error alone, without any status line. */
  lemma WireguardFailures(iface: string, run: Outcome)
    requires !(run.Exited? && run.code == 0)
    ensures (run.Exited? ==>
      WireguardSection(iface, run) == [WireguardStatus(iface, "0")])
    ensures (run.NotFound? ==>
      WireguardSection(iface, run) == [WireguardStatus(iface, "0"), WireguardError("wg_not_found")])
    ensures (run.TimedOut? ==> WireguardSection(iface, run) == [WireguardError("timeout")])
    ensures (run.Raised? ==> WireguardSection(iface, run) == [WireguardError("exception")])
  {
  }

  /** A reader of a peer's three lines finds, in this order, the bytes received from
      field 5, the bytes sent from field 6, and the latest handshake from field 4. */
  lemma PeerLinesRead(iface: string, fields: seq<string>)
    requires |fields| >= 8
    requires ' ' !in fields[4] && ' ' !in fields[5] && ' ' !in fields[6]
    ensures var texts := RenderAll(PeerLines(iface, fields));
      (NameOf(texts[0]) == FamilyName(PeerReceiveBytes) && ValueOf(texts[0]) == fields[5]
      && NameOf(texts[1]) == FamilyName(PeerTransmitBytes) && ValueOf(texts[1]) == fields[6]
      && NameOf(texts[2]) == FamilyName(PeerLastHandshake) && ValueOf(texts[2]) == fields[4])
  {
    var lines := PeerLines(iface, fields);
    RenderRead(lines[0]);
    RenderRead(lines[1]);
    RenderRead(lines[2]);
  }

  lemma {:induction false} PeerSectionOneLine(iface: string, lines: seq<string>)
    requires '\n' !in iface
    requires forall l :: l in lines ==> '\n' !in l
    ensures forall line :: line in PeerSection(iface, lines) ==> OneLine(line)
  {
    if lines != [] {
      assert lines[0] in lines;
      assert forall l :: l in lines[1..] ==> l in lines;
      PeerSectionOneLine(iface, lines[1..]);
      var fields := Split(lines[0], '\t');
      if |fields| >= 8 {
        JoinSplit(lines[0], '\t');
        forall j | 0 <= j < |fields| ensures '\n' !in fields[j] {
          JoinPieceWithout(fields, '\t', j, '\n');
        }
        assert '\n' !in KeyLabel(fields[0]);
      }
    }
  }

  lemma WireguardOneLine(iface: string, run: Outcome)
    requires '\n' !in iface
    ensures forall line :: line in WireguardSection(iface, run) ==> OneLine(line)
  {
    if run.Exited? && run.code == 0 {
      DumpOneLine(iface, run.stdout);
      assert WireguardSection(iface, run)
        == [WireguardStatus(iface, "1")] + PeerSection(iface, Split(Strip(run.stdout), '\n')[1..]);
    } else {
      WireguardFailureLinesOneLine(iface);
    }
  }

  /** The status and error lines of a failed run. */
  lemma WireguardFailureLinesOneLine(iface: string)
    requires '\n' !in iface
    ensures OneLine(WireguardStatus(iface, "0"))
    ensures OneLine(WireguardError("wg_not_found"))
    ensures OneLine(WireguardError("timeout")) && OneLine(WireguardError("exception"))
  {
    ErrorOneLine(Tag(VpnType, "wireguard"), "wg_not_found");
    ErrorOneLine(Tag(VpnType, "wireguard"), "timeout");
    ErrorOneLine(Tag(VpnType, "wireguard"), "exception");
  }

  lemma ErrorOneLine(source: Tag, error: string)
    requires '\n' !in source.value && Word(error)
    ensures OneLine(ExporterErrorLine(source, error))
  {
    WordPlain(error);
  }

  lemma DumpOneLine(iface: string, stdout: string)
    requires '\n' !in iface
    ensures var lines := [WireguardStatus(iface, "1")] + PeerSection(iface, Split(Strip(stdout), '\n')[1..]);
      forall line :: line in lines ==> OneLine(line)
  {
    DumpLinesOneLine(stdout);
    PeerSectionOneLine(iface, Split(Strip(stdout), '\n')[1..]);
  }

  lemma DumpLinesOneLine(stdout: string)
    ensures forall l :: l in Split(Strip(stdout), '\n')[1..] ==> '\n' !in l
  {
    var lines := Split(Strip(stdout), '\n');
    SplitPiecesWithoutSep(Strip(stdout), '\n');
    assert forall l :: l in lines[1..] ==> l in lines;
  }

  // ===========================================================================
  // IPsec: `ipsec statusall`

  function IpsecStatus(up: string): Line
  {
    Sample(TunnelStatus, [Tag(VpnType, "ipsec")], up)
  }

  function IpsecError(error: string): Line
  {
    ExporterErrorLine(Tag(VpnType, "ipsec"), error)
  }

  /** The line of a byte counter, when the search found one. */
  function ByteCounterLine(family: Family, found: Option<string>): seq<Line>
  {
    if found.Some? then [Sample(family, [], found.value)] else []
  }

  /** The status line and the two counts of a successful run. */
  function IpsecCountLines(output: string): seq<Line>
  {
    var established := Count(output, "ESTABLISHED");
    var installed := Count(output, "INSTALLED");
    [ IpsecStatus(if established > 0 then "1" else "0"),
      Sample(IpsecConnectionsEstablished, [], NatText(established)),
      Sample(IpsecSasInstalled, [], NatText(installed)) ]
  }

  /** The lines read from a successful `ipsec statusall`: the status (up when some
      connection is established), the number of established connections, the number of
      installed security associations, then the receive and transmit byte counters of
      the first SA that shows them. */
  function IpsecStatusLines(output: string): seq<Line>
  {
    IpsecCountLines(output)
    + ByteCounterLine(IpsecReceiveBytes, FirstDigitsBefore(output, "bytes_i"))
    + ByteCounterLine(IpsecTransmitBytes, FirstDigitsBefore(output, "bytes_o"))
  }

  /** What `collect_ipsec_metrics` returns: nothing when the IPsec check is switched off,
      otherwise the lines of the run of `ipsec statusall`. */
  function IpsecSection(config: Config, run: Outcome): seq<Line>
  {
    if !config.ipsecCheck then []
    else
      match run
      case Exited(code, stdout, _) =>
        if code == 0 then IpsecStatusLines(stdout) else [IpsecStatus("0")]
      case NotFound(_) => [IpsecStatus("0"), IpsecError("ipsec_not_found")]
      case TimedOut => [IpsecError("timeout")]
      case Raised(_) => [IpsecError("exception")]
  }

  /** The lines of a successful run, from its output. */
  method CollectIpsecStatus(output: string) returns (metrics: seq<Line>)
    ensures metrics == IpsecStatusLines(output)
  {
    var established := Count(output, "ESTABLISHED");
    var installed := Count(output, "INSTALLED");
    metrics := [];
    metrics := metrics + [IpsecStatus(if established > 0 then "1" else "0")];
    metrics := metrics + [Sample(IpsecConnectionsEstablished, [], NatText(established))];
    metrics := metrics + [Sample(IpsecSasInstalled, [], NatText(installed))];
    assert metrics == IpsecCountLines(output);

    var rxMatch := FirstDigitsBefore(output, "bytes_i");
    var txMatch := FirstDigitsBefore(output, "bytes_o");
    ghost var counts := metrics;
    if rxMatch.Some? {
      metrics := metrics + [Sample(IpsecReceiveBytes, [], rxMatch.value)];
    }
    assert metrics == counts + ByteCounterLine(IpsecReceiveBytes, rxMatch);
    ghost var received := metrics;
    if txMatch.Some? {
      metrics := metrics + [Sample(IpsecTransmitBytes, [], txMatch.value)];
    }
    assert metrics == received + ByteCounterLine(IpsecTransmitBytes, txMatch);
  }

  method CollectIpsecMetrics(config: Config, run: Outcome) returns (metrics: seq<Line>)
    ensures metrics == IpsecSection(config, run)
  {
    metrics := [];
    if !config.ipsecCheck {
      return;
    }
    match run {
      case Exited(code, output, _) =>
        if code == 0 {
          metrics := CollectIpsecStatus(output);
        } else {
          metrics := metrics + [IpsecStatus("0")];
        }
      case NotFound(_) =>
        metrics := metrics + [IpsecStatus("0")];
        metrics := metrics + [IpsecError("ipsec_not_found")];
      case TimedOut =>
        metrics := metrics + [IpsecError("timeout")];
      case Raised(_) =>
        metrics := metrics + [IpsecError("exception")];
    }
  }

  /** With the check switched off the collector says nothing, whatever the tool would
      have said. */
  lemma IpsecDisabled(config: Config, run: Outcome)
    requires !config.ipsecCheck
    ensures IpsecSection(config, run) == []
  {
  }

  /** With the check on, a failing run yields: the down status line alone (non-zero
      exit); the down status line and the `ipsec_not_found` error (no `ipsec` tool); the
      `timeout` or `exception` error alone. */
  lemma IpsecFailures(config: Config, run: Outcome)
    requires config.ipsecCheck && !(run.Exited? && run.code == 0)
    ensures (run.Exited? ==>
      IpsecSection(config, run) == [IpsecStatus("0")])
    ensures (run.NotFound? ==>
      IpsecSection(config, run) == [IpsecStatus("0"), IpsecError("ipsec_not_found")])
    ensures (run.TimedOut? ==> IpsecSection(config, run) == [IpsecError("timeout")])
    ensures (run.Raised? ==> IpsecSection(config, run) == [IpsecError("exception")])
  {
  }

  /** After a successful run the tunnel is reported up exactly when `ESTABLISHED` occurs
      in the output, and down otherwise. */
  lemma IpsecUpIffEstablished(output: string)
    ensures IpsecStatusLines(output)[0] == IpsecStatus("1") <==> Occurs(output, "ESTABLISHED")
    ensures IpsecStatusLines(output)[0] == IpsecStatus("0") <==> !Occurs(output, "ESTABLISHED")
  {
    CountPositive(output, "ESTABLISHED");
  }

  /** A reader of the second and third lines gets back the numbers of `ESTABLISHED` and
      of `INSTALLED` in the output. */
  lemma IpsecCountsRead(output: string)
    ensures var texts := RenderAll(IpsecStatusLines(output));
      (AllDigits(ValueOf(texts[1])) && DigitsValue(ValueOf(texts[1])) == Count(output, "ESTABLISHED")
      && AllDigits(ValueOf(texts[2])) && DigitsValue(ValueOf(texts[2])) == Count(output, "INSTALLED"))
  {
    var lines := IpsecStatusLines(output);
    NatTextValue(Count(output, "ESTABLISHED"));
    NatTextValue(Count(output, "INSTALLED"));
    RenderRead(lines[1]);
    RenderRead(lines[2]);
  }

  /** Where the byte counters sit among the lines of a successful run, whatever the
      searches found: each is there exactly when its search found digits, the receive
      counter comes right after the three count lines and the transmit counter last. */
  lemma ByteCountersPlaced(counts: seq<Line>, rx: Option<string>, tx: Option<string>)
    requires |counts| == 3
    requires forall k :: 0 <= k < 3 ==>
      (counts[k].Sample? && !counts[k].family.IpsecReceiveBytes? && !counts[k].family.IpsecTransmitBytes?)
    ensures var lines := counts + ByteCounterLine(IpsecReceiveBytes, rx)
      + ByteCounterLine(IpsecTransmitBytes, tx);
      ((HasMetric(lines, IpsecReceiveBytes) <==> rx.Some?)
      && (HasMetric(lines, IpsecTransmitBytes) <==> tx.Some?)
      && (rx.Some? ==> lines[3] == Sample(IpsecReceiveBytes, [], rx.value))
      && (tx.Some? ==> lines[|lines| - 1] == Sample(IpsecTransmitBytes, [], tx.value)))
  {
    var lines := counts + ByteCounterLine(IpsecReceiveBytes, rx) + ByteCounterLine(IpsecTransmitBytes, tx);
    if rx.Some? {
      assert lines[3].family == IpsecReceiveBytes;
    }
    if tx.Some? {
      assert lines[|lines| - 1].family == IpsecTransmitBytes;
    }
  }

  /** The byte-counter lines are there exactly when their pattern matches somewhere in
      the output; the receive counter follows the three count lines, the transmit counter
      is the last line, and each carries the digits its leftmost match captures. */
  lemma IpsecByteCounters(output: string)
    ensures (HasMetric(IpsecStatusLines(output), IpsecReceiveBytes)
      <==> exists i :: 0 <= i <= |output| && DigitsTagMatches(output, "bytes_i", i))
    ensures (HasMetric(IpsecStatusLines(output), IpsecTransmitBytes)
      <==> exists i :: 0 <= i <= |output| && DigitsTagMatches(output, "bytes_o", i))
    ensures (FirstDigitsBefore(output, "bytes_i").Some? ==>
      IpsecStatusLines(output)[3] == Sample(IpsecReceiveBytes, [], FirstDigitsBefore(output, "bytes_i").value))
    ensures (FirstDigitsBefore(output, "bytes_o").Some? ==>
      var lines := IpsecStatusLines(output);
      lines[|lines| - 1] == Sample(IpsecTransmitBytes, [], FirstDigitsBefore(output, "bytes_o").value))
  {
    FirstDigitsBeforeIsLeftmost(output, "bytes_i");
    FirstDigitsBeforeIsLeftmost(output, "bytes_o");
    ByteCountersPlaced(IpsecCountLines(output),
      FirstDigitsBefore(output, "bytes_i"), FirstDigitsBefore(output, "bytes_o"));
  }

  /** The digits the byte-counter search returns hold no line break. */
  lemma FirstDigitsOneLine(output: string, tag: string)
    requires tag != [] && !IsSpace(tag[0])
    ensures FirstDigitsBefore(output, tag).Some? ==> '\n' !in FirstDigitsBefore(output, tag).value
  {
    FirstDigitsBeforeIsLeftmost(output, tag);
    if FirstDigitsBefore(output, tag).Some? {
      var i: nat, m: nat, n: nat :| DigitsTagSpan(output, tag, i, m, n)
        && FirstDigitsBefore(output, tag) == Some(output[i..m]);
      assert AllDigits(output[i..m]);
    }
  }

  lemma ByteCounterOneLine(family: Family, found: Option<string>)
    requires found.Some? ==> '\n' !in found.value
    ensures forall line :: line in ByteCounterLine(family, found) ==> OneLine(line)
  {
  }

  lemma IpsecCountLinesOneLine(output: string)
    ensures forall line :: line in IpsecCountLines(output) ==> OneLine(line)
  {
    NatTextValue(Count(output, "ESTABLISHED"));
    NatTextValue(Count(output, "INSTALLED"));
  }

  lemma IpsecStatusLinesOneLine(output: string)
    ensures forall line :: line in IpsecStatusLines(output) ==> OneLine(line)
  {
    var rx := FirstDigitsBefore(output, "bytes_i");
    var tx := FirstDigitsBefore(output, "bytes_o");
    FirstDigitsOneLine(output, "bytes_i");
    FirstDigitsOneLine(output, "bytes_o");
    IpsecCountLinesOneLine(output);
    ByteCounterOneLine(IpsecReceiveBytes, rx);
    ByteCounterOneLine(IpsecTransmitBytes, tx);
    var counts := IpsecCountLines(output);
    var received := ByteCounterLine(IpsecReceiveBytes, rx);
    var sent := ByteCounterLine(IpsecTransmitBytes, tx);
    assert IpsecStatusLines(output) == counts + received + sent;
  }

  lemma IpsecOneLine(config: Config, run: Outcome)
    ensures forall line :: line in IpsecSection(config, run) ==> OneLine(line)
  {
    if config.ipsecCheck && run.Exited? && run.code == 0 {
      IpsecStatusLinesOneLine(run.stdout);
    } else {
      IpsecFailureLinesOneLine();
    }
  }

  /** The status and error lines of a failed run. */
  lemma IpsecFailureLinesOneLine()
    ensures OneLine(IpsecStatus("0")) && OneLine(IpsecError("ipsec_not_found"))
    ensures OneLine(IpsecError("timeout")) && OneLine(IpsecError("exception"))
  {
    ErrorOneLine(Tag(VpnType, "ipsec"), "ipsec_not_found");
    ErrorOneLine(Tag(VpnType, "ipsec"), "timeout");
    ErrorOneLine(Tag(VpnType, "ipsec"), "exception");
  }

  // ===========================================================================
  // Network interfaces: /proc/net/dev

  /** The interface-name prefixes the exporter reports on. */
  const InterfacesOfInterest: seq<string> := ["wg0", "wg1", "ipsec0", "eth0", "ens", "enp"]

  /** `any(iface.startswith(prefix) for prefix in prefixes)`. */
  predicate StartsWithAny(iface: string, prefixes: seq<string>)
  {
    prefixes != [] && (StartsWith(iface, prefixes[0]) || StartsWithAny(iface, prefixes[1..]))
  }

  lemma {:induction false} StartsWithAnyExists(iface: string, prefixes: seq<string>)
    ensures StartsWithAny(iface, prefixes) <==> exists k :: 0 <= k < |prefixes| && StartsWith(iface, prefixes[k])
  {
    if prefixes != [] {
      StartsWithAnyExists(iface, prefixes[1..]);
      if exists k :: 0 <= k < |prefixes| && StartsWith(iface, prefixes[k]) {
        var k :| 0 <= k < |prefixes| && StartsWith(iface, prefixes[k]);
        if k > 0 {
          assert prefixes[1..][k - 1] == prefixes[k];
        }
      }
      if StartsWithAny(iface, prefixes[1..]) {
        var k :| 0 <= k < |prefixes[1..]| && StartsWith(iface, prefixes[1..][k]);
        assert prefixes[k + 1] == prefixes[1..][k];
      }
    }
  }

  predicate OfInterest(iface: string)
  {
    StartsWithAny(iface, InterfacesOfInterest)
  }

  /** The six lines of one interface, from its counters: received and sent bytes
      (counters 0 and 8), packets (1 and 9) and errors (2 and 10). */
  function InterfaceLines(iface: string, stats: seq<string>): seq<Line>
    requires |stats| >= 16
  {
    var name := [Tag(Interface, iface)];
    [ Sample(InterfaceRxBytes, name, stats[0]),
      Sample(InterfaceTxBytes, name, stats[8]),
      Sample(InterfaceRxPackets, name, stats[1]),
      Sample(InterfaceTxPackets, name, stats[9]),
      Sample(InterfaceRxErrors, name, stats[2]),
      Sample(InterfaceTxErrors, name, stats[10]) ]
  }

  /** One row of /proc/net/dev: the interface's lines when the row has exactly one colon,
      the name before it is of interest once stripped, and at least sixteen counters
      follow it; nothing otherwise. */
  function DeviceRowLines(row: string): seq<Line>
  {
    var parts := Split(row, ':');
    if |parts| != 2 then []
    else
      var iface := Strip(parts[0]);
      if !OfInterest(iface) then []
      else
        var stats := SplitWs(parts[1]);
        if |stats| >= 16 then InterfaceLines(iface, stats) else []
  }

  function DeviceRows(rows: seq<string>): seq<Line>
  {
    if rows == [] then [] else DeviceRowLines(rows[0]) + DeviceRows(rows[1..])
  }

  /** `lines[2:]`: what is left after the two header lines. */
  function DropHeader(lines: seq<string>): seq<string>
  {
    if |lines| < 2 then [] else lines[2..]
  }

  function NetworkError(): Line
  {
    ExporterErrorLine(Tag(Component, "network"), "proc_read_failed")
  }

  /** What `collect_network_interface_metrics` returns, given the text of /proc/net/dev
      (`None` when opening or reading it failed). */
  function NetworkSection(procNetDev: Option<string>): seq<Line>
  {
    match procNetDev
    case None => [NetworkError()]
    case Some(text) => DeviceRows(DropHeader(ReadLines(text)))
  }

  lemma DeviceRowsPrefix(rows: seq<string>, i: nat)
    requires i < |rows|
    ensures DeviceRows(rows[..i + 1]) == DeviceRows(rows[..i]) + DeviceRowLines(rows[i])
  {
    assert rows[..i + 1] == rows[..i] + [rows[i]];
    DeviceRowsSnoc(rows[..i], rows[i]);
  }

  lemma {:induction false} DeviceRowsSnoc(rows: seq<string>, row: string)
    ensures DeviceRows(rows + [row]) == DeviceRows(rows) + DeviceRowLines(row)
  {
    if rows == [] {
      assert [row][1..] == [];
    } else {
      assert (rows + [row])[1..] == rows[1..] + [row];
      DeviceRowsSnoc(rows[1..], row);
    }
  }

  /** The body of the row loop: the lines one row yields; each early return is one of
      the loop's `continue`s. */
  method CollectDeviceRow(row: string) returns (metrics: seq<Line>)
    ensures metrics == DeviceRowLines(row)
  {
    metrics := [];
    var parts := Split(row, ':');
    if |parts| != 2 {
      return;
    }
    var iface := Strip(parts[0]);
    if !OfInterest(iface) {
      return;
    }
    var stats := SplitWs(parts[1]);
    if |stats| >= 16 {
      var rxBytes, rxPackets, rxErrors := stats[0], stats[1], stats[2];
      var txBytes, txPackets, txErrors := stats[8], stats[9], stats[10];
      metrics := metrics + [Sample(InterfaceRxBytes, [Tag(Interface, iface)], rxBytes)];
      metrics := metrics + [Sample(InterfaceTxBytes, [Tag(Interface, iface)], txBytes)];
      metrics := metrics + [Sample(InterfaceRxPackets, [Tag(Interface, iface)], rxPackets)];
      metrics := metrics + [Sample(InterfaceTxPackets, [Tag(Interface, iface)], txPackets)];
      metrics := metrics + [Sample(InterfaceRxErrors, [Tag(Interface, iface)], rxErrors)];
      metrics := metrics + [Sample(InterfaceTxErrors, [Tag(Interface, iface)], txErrors)];
    }
  }

  /** The row loop: each row after the header, one after the other. */
  method CollectDeviceRows(rows: seq<string>) returns (metrics: seq<Line>)
    ensures metrics == DeviceRows(rows)
  {
    metrics := [];
    for i := 0 to |rows|
      invariant metrics == DeviceRows(rows[..i])
    {
      var rowLines := CollectDeviceRow(rows[i]);
      metrics := metrics + rowLines;
      DeviceRowsPrefix(rows, i);
    }
    assert rows[..|rows|] == rows;
  }

  method CollectNetworkInterfaceMetrics(procNetDev: Option<string>) returns (metrics: seq<Line>)
    ensures metrics == NetworkSection(procNetDev)
  {
    metrics := [];
    if procNetDev.None? {
      metrics := metrics + [NetworkError()];
      return;
    }
    var rows := DropHeader(ReadLines(procNetDev.value));
    metrics := CollectDeviceRows(rows);
  }

  /** `readlines()[2:]` on a text that starts with two whole lines is the lines of the
      rest of the text. */
  lemma DropHeaderLines(header1: string, header2: string, body: string)
    requires LineShaped(header1) && Terminated(header1)
    requires LineShaped(header2) && Terminated(header2)
    ensures DropHeader(ReadLines(header1 + header2 + body)) == ReadLines(body)
  {
    var tail := header2 + body;
    ReadLinesAfterLine(header2, body);
    ReadLinesAfterLine(header1, tail);
    assert header1 + header2 + body == header1 + tail;
    DropTwo(header1, header2, ReadLines(body));
  }

  lemma DropTwo<T>(a: T, b: T, rest: seq<T>)
    ensures ([a] + ([b] + rest))[2..] == rest
  {
  }

  /** The two header lines of /proc/net/dev never yield a line: the rows are read from
      the third line on. */
  lemma NetworkSkipsHeader(header1: string, header2: string, body: string)
    requires LineShaped(header1) && Terminated(header1)
    requires LineShaped(header2) && Terminated(header2)
    ensures NetworkSection(Some(header1 + header2 + body)) == DeviceRows(ReadLines(body))
  {
    DropHeaderLines(header1, header2, body);
  }

  /** A reader of an interface's six lines finds, in this order, received and sent bytes
      (counters 0 and 8), packets (1 and 9) and errors (2 and 10), each under its name. */
  lemma InterfaceLinesRead(iface: string, stats: seq<string>)
    requires |stats| >= 16
    requires forall j :: 0 <= j < |stats| ==> ' ' !in stats[j]
    ensures var texts := RenderAll(InterfaceLines(iface, stats));
      (|texts| == 6
      && ValueOf(texts[0]) == stats[0] && ValueOf(texts[1]) == stats[8]
      && ValueOf(texts[2]) == stats[1] && ValueOf(texts[3]) == stats[9]
      && ValueOf(texts[4]) == stats[2] && ValueOf(texts[5]) == stats[10])
    ensures var texts := RenderAll(InterfaceLines(iface, stats));
      (NameOf(texts[0]) == FamilyName(InterfaceRxBytes) && NameOf(texts[1]) == FamilyName(InterfaceTxBytes)
      && NameOf(texts[2]) == FamilyName(InterfaceRxPackets) && NameOf(texts[3]) == FamilyName(InterfaceTxPackets)
      && NameOf(texts[4]) == FamilyName(InterfaceRxErrors) && NameOf(texts[5]) == FamilyName(InterfaceTxErrors))
  {
    var lines := InterfaceLines(iface, stats);
    RenderRead(lines[0]);
    RenderRead(lines[1]);
    RenderRead(lines[2]);
    RenderRead(lines[3]);
    RenderRead(lines[4]);
    RenderRead(lines[5]);
  }

  /** The drop counters (3 and 11) and all other counters play no part: two rows that
      agree on counters 0, 1, 2, 8, 9 and 10 yield the same lines. */
  lemma InterfaceLinesIgnoreOthers(iface: string, stats: seq<string>, other: seq<string>)
    requires |stats| >= 16 && |other| >= 16
    requires other[0] == stats[0] && other[1] == stats[1] && other[2] == stats[2]
    requires other[8] == stats[8] && other[9] == stats[9] && other[10] == stats[10]
    ensures InterfaceLines(iface, other) == InterfaceLines(iface, stats)
  {
  }

  /** A row yields its six lines exactly when the conditions of `DeviceRowLines` hold,
      and no line at all otherwise. */
  lemma DeviceRowAccepted(row: string)
    ensures |DeviceRowLines(row)| == 0 || |DeviceRowLines(row)| == 6
    ensures |DeviceRowLines(row)| == 6 <==>
      var parts := Split(row, ':');
      |parts| == 2 && OfInterest(Strip(parts[0])) && |SplitWs(parts[1])| >= 16
  {
  }

  /** The name and the counters of a row hold no line break when the row holds none. */
  lemma DeviceRowPartsOneLine(row: string)
    requires LineShaped(row) && |Split(row, ':')| == 2
    ensures '\n' !in Strip(Split(row, ':')[0])
    ensures forall w :: w in SplitWs(Split(row, ':')[1]) ==> '\n' !in w
  {
    var parts := Split(row, ':');
    JoinSplit(row, ':');
    assert row == parts[0] + [':'] + parts[1];
    assert '\n' !in parts[0] by {
      forall k | 0 <= k < |parts[0]| ensures parts[0][k] != '\n' {
        assert parts[0][k] == row[k];
      }
    }
    StripWithout(parts[0], '\n');
    SplitWsWords(parts[1]);
    assert IsSpace('\n');
  }

  lemma DeviceRowOneLine(row: string)
    requires LineShaped(row)
    ensures forall line :: line in DeviceRowLines(row) ==> OneLine(line)
  {
    var parts := Split(row, ':');
    if |parts| == 2 {
      DeviceRowPartsOneLine(row);
      var stats := SplitWs(parts[1]);
      assert forall j :: 0 <= j < |stats| ==> stats[j] in stats;
    }
  }

  lemma {:induction false} DeviceRowsOneLine(rows: seq<string>)
    requires forall r :: r in rows ==> LineShaped(r)
    ensures forall line :: line in DeviceRows(rows) ==> OneLine(line)
  {
    if rows != [] {
      assert rows[0] in rows;
      assert forall r :: r in rows[1..] ==> r in rows;
      DeviceRowOneLine(rows[0]);
      DeviceRowsOneLine(rows[1..]);
    }
  }

  lemma NetworkOneLine(procNetDev: Option<string>)
    ensures forall line :: line in NetworkSection(procNetDev) ==> OneLine(line)
  {
    if procNetDev.Some? {
      var lines := ReadLines(procNetDev.value);
      ReadLinesShape(procNetDev.value);
      assert forall r :: r in DropHeader(lines) ==> r in lines;
      DeviceRowsOneLine(DropHeader(lines));
    }
  }

  // ===========================================================================
  // collect_all

  /** The HELP and TYPE lines that open every document. */
  const HelpLines: seq<Line> := [
    Help(TunnelStatus), Type(TunnelStatus),
    Help(PeerReceiveBytes), Type(PeerReceiveBytes),
    Help(PeerTransmitBytes), Type(PeerTransmitBytes),
    Help(Latency), Type(Latency),
    Help(InterfaceRxBytes), Type(InterfaceRxBytes),
    Help(InterfaceTxBytes), Type(InterfaceTxBytes),
    Help(IpsecConnectionsEstablished), Type(IpsecConnectionsEstablished)
  ]

  /** The exporter's own lines that close every document; `now` is `int(time.time())`. */
  function TrailerLines(now: int): seq<Line>
  {
    [ Help(ExporterInfo), Type(ExporterInfo),
      Sample(ExporterInfo, [Tag(Version, "1.0.0")], "1"),
      Sample(ScrapeTimestamp, [], IntText(now)) ]
  }

  /** The lines of the document, in the order `collect_all` gathers them. */
  function DocumentLines(config: Config, wireguard: Outcome, ipsec: Outcome,
                         procNetDev: Option<string>, latency: seq<Line>, now: int): seq<Line>
  {
    HelpLines
    + WireguardSection(config.wgInterface, wireguard)
    + IpsecSection(config, ipsec)
    + NetworkSection(procNetDev)
    + latency
    + TrailerLines(now)
  }

  /** `collect_all`: the document served at /metrics. The latency lines are those of
      `collect_latency_metrics`, which is not part of this model. */
  method CollectAll(config: Config, wireguard: Outcome, ipsec: Outcome,
                    procNetDev: Option<string>, latency: seq<Line>, now: int)
    returns (document: string)
    ensures document == JoinLines(RenderAll(DocumentLines(config, wireguard, ipsec, procNetDev, latency, now)))
  {
    var allMetrics: seq<Line> := [];
    allMetrics := allMetrics + [Help(TunnelStatus), Type(TunnelStatus)];
    allMetrics := allMetrics + [Help(PeerReceiveBytes), Type(PeerReceiveBytes)];
    allMetrics := allMetrics + [Help(PeerTransmitBytes), Type(PeerTransmitBytes)];
    allMetrics := allMetrics + [Help(Latency), Type(Latency)];
    allMetrics := allMetrics + [Help(InterfaceRxBytes), Type(InterfaceRxBytes)];
    allMetrics := allMetrics + [Help(InterfaceTxBytes), Type(InterfaceTxBytes)];
    allMetrics := allMetrics + [Help(IpsecConnectionsEstablished), Type(IpsecConnectionsEstablished)];
    assert allMetrics == HelpLines;

    var wireguardLines := CollectWireguardMetrics(config, wireguard);
    allMetrics := allMetrics + wireguardLines;
    var ipsecLines := CollectIpsecMetrics(config, ipsec);
    allMetrics := allMetrics + ipsecLines;
    var networkLines := CollectNetworkInterfaceMetrics(procNetDev);
    allMetrics := allMetrics + networkLines;
    allMetrics := allMetrics + latency;

    allMetrics := allMetrics + [Help(ExporterInfo), Type(ExporterInfo)];
    allMetrics := allMetrics + [Sample(ExporterInfo, [Tag(Version, "1.0.0")], "1")];
    allMetrics := allMetrics + [Sample(ScrapeTimestamp, [], IntText(now))];

    assert allMetrics == DocumentLines(config, wireguard, ipsec, procNetDev, latency, now);
    document := Join(RenderAll(allMetrics), '\n') + "\n";
  }

  lemma TrailerOneLine(now: int)
    ensures forall line :: line in TrailerLines(now) ==> OneLine(line)
  {
    IntTextValue(now);
    var stamp := IntText(now);
    assert '\n' !in stamp by {
      if stamp[0] == '-' {
        assert stamp == [stamp[0]] + stamp[1..];
        assert AllDigits(stamp[1..]);
      }
    }
  }

  /** Every line of the document is a line of text, provided the configured interface
      name and the latency lines hold no line break. */
  lemma DocumentOneLine(config: Config, wireguard: Outcome, ipsec: Outcome,
                        procNetDev: Option<string>, latency: seq<Line>, now: int)
    requires '\n' !in config.wgInterface
    requires forall line :: line in latency ==> OneLine(line)
    ensures var lines := DocumentLines(config, wireguard, ipsec, procNetDev, latency, now);
      forall line :: line in lines ==> OneLine(line)
  {
    WireguardOneLine(config.wgInterface, wireguard);
    IpsecOneLine(config, ipsec);
    NetworkOneLine(procNetDev);
    TrailerOneLine(now);
  }

  /** Lines of text joined by newlines, with one more at the end, split back into the
      same lines and the empty text after the final newline. */
  lemma RenderedLinesSplit(lines: seq<Line>)
    requires |lines| >= 1
    requires forall line :: line in lines ==> OneLine(line)
    ensures Split(JoinLines(RenderAll(lines)), '\n') == RenderAll(lines) + [""]
  {
    RenderAllNoNewline(lines);
    JoinLinesSplit(RenderAll(lines));
  }

  lemma Framed<T>(head: seq<T>, b: seq<T>, c: seq<T>, d: seq<T>, e: seq<T>, tail: seq<T>)
    ensures (head + b + c + d + e + tail)[..|head|] == head
    ensures (head + b + c + d + e + tail)[|head + b + c + d + e + tail| - |tail|..] == tail
  {
  }

  /** Read back line by line, the document gives its lines in order and the empty text
      after the final newline. */
  lemma DocumentLayout(config: Config, wireguard: Outcome, ipsec: Outcome,
                       procNetDev: Option<string>, latency: seq<Line>, now: int)
    requires '\n' !in config.wgInterface
    requires forall line :: line in latency ==> OneLine(line)
    ensures var lines := DocumentLines(config, wireguard, ipsec, procNetDev, latency, now);
      Split(JoinLines(RenderAll(lines)), '\n') == RenderAll(lines) + [""]
  {
    DocumentOneLine(config, wireguard, ipsec, procNetDev, latency, now);
    RenderedLinesSplit(DocumentLines(config, wireguard, ipsec, procNetDev, latency, now));
  }

  /** The document opens with the fourteen HELP/TYPE lines and closes with the four
      trailer lines, whatever the collectors yield. */
  lemma DocumentFrame(config: Config, wireguard: Outcome, ipsec: Outcome,
                      procNetDev: Option<string>, latency: seq<Line>, now: int)
    ensures var lines := DocumentLines(config, wireguard, ipsec, procNetDev, latency, now);
      lines[..|HelpLines|] == HelpLines && lines[|lines| - |TrailerLines(now)|..] == TrailerLines(now)
  {
    Framed(HelpLines, WireguardSection(config.wgInterface, wireguard), IpsecSection(config, ipsec),
      NetworkSection(procNetDev), latency, TrailerLines(now));
  }
}
