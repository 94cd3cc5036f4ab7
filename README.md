# VPN metrics exporter and iperf3 push, in Dafny

This project models two scripts from a VPN testbed's monitoring stack.

- **The VPN exporter** (`testbed/monitoring/exporter/vpn_exporter.py`) builds a
  Prometheus text document from three sources:
  - the output of `wg show <iface> dump`
  - the output of `ipsec statusall`
  - the contents of `/proc/net/dev`

  It frames them with HELP/TYPE annotations and an info/timestamp trailer.
- **The iperf3 push script** (`testbed/monitoring/exporter/push_iperf_metrics.py`) does four things:
  - it reads an iperf3 JSON report into a metrics dict
  - it optionally adds the average ping round-trip time
  - it renders the dict as exposition lines for a Pushgateway
  - it decides success from the gateway's answer

Both scripts work step by step: they append to a list, assign dict keys and loop over lines. So each collector is a Dafny `method`, which has a loop wherever the script loops: over the WireGuard peers, the `/proc/net/dev` rows and the iperf3 streams. The IPsec collector has no loop, in the script or in the model. Each method is proved equal to a specification function over the same inputs. The properties the scripts promise are then proved as lemmas about those functions:

- what each branch emits
- which fields are read back from a rendered line
- key order
- the round trip through `split('\n')`
- the success conditions

Modules:

- `Tools`: `Option`, and `Outcome`, which is how a subprocess ended (exit code with stdout and stderr, `FileNotFoundError`, `TimeoutExpired`, or another exception).
- `PyText`: the Python string operations the scripts use, each written out:
  - `split(sep)`, `split()`, `strip()`
  - `readlines()`, `count()`, `replace()`
  - `'\n'.join(...) + '\n'`, `str(int)`
- `Patterns`: the two regular expressions, each as a leftmost search with a proved match characterisation:
  - `(\d+)\s+bytes_i` and `(\d+)\s+bytes_o`
  - `rtt [^=]+= [\d.]+/([\d.]+)/`
- `Exposition`: one exposition sample line `name{k="v",...} value`, and how its name and value are read back.
- `VpnExporter`: the exporter's metric families, its three collectors and `collect_all`.
- `PushIperfMetrics`: decoded JSON values, the insertion-ordered metrics dict, the parser, the push, and the iperf3 and ping runs.

Python behaviour the model makes explicit:

- `dict.get` on a value that is not a dict raises, and so does `x / 1_000_000` on a non-number. Either one ends `parse_iperf_results` with the dict as it stood.
- `json.loads` keeps the last of duplicate keys.
- Reassigning a dict key keeps the key's position.
- Python truthiness decides `if udp:` and `if streams:`.
- `''.split('\n')` is `['']`, so `if lines:` in `collect_wireguard_metrics` always holds. A successful `wg` run always reports the tunnel as up, even when its output is empty.

## Model

| member | source | states |
|---|---|---|
| VpnExporter.CollectWireguardMetrics | testbed/monitoring/exporter/vpn_exporter.py:29-82 | The lines appended for each way `wg show <iface> dump` can end equal the WireGuard section of the document. |
| VpnExporter.CollectPeers | testbed/monitoring/exporter/vpn_exporter.py:49-69 | The loop over the peer lines emits the peer metrics of each line in order. |
| VpnExporter.CollectPeerLine | testbed/monitoring/exporter/vpn_exporter.py:50-69 | A dump line with fewer than 8 tab-separated fields adds nothing. Otherwise it adds the peer's receive, transmit and handshake samples. |
| VpnExporter.KeyLabel | testbed/monitoring/exporter/vpn_exporter.py:52 | The public-key label is the key's first 12 characters (all of a shorter key) followed by "...", and so it is 3 characters longer. |
| VpnExporter.KeyLabelCollision | testbed/monitoring/exporter/vpn_exporter.py:52 | Two keys get the same label exactly when their first 12 characters agree. |
| VpnExporter.EndpointLabel | testbed/monitoring/exporter/vpn_exporter.py:53 | The endpoint is kept unless it is "(none)", which becomes "unknown". |
| VpnExporter.PeerSectionBlocks | testbed/monitoring/exporter/vpn_exporter.py:49-69 | The peer section is three lines for each line with at least 8 fields, in order, and nothing for the others. |
| VpnExporter.WireguardSucceeded | testbed/monitoring/exporter/vpn_exporter.py:40-69 | On exit code 0 the section is the status-1 line and then the peer blocks of every dump line after the first. |
| VpnExporter.WireguardSuccess | testbed/monitoring/exporter/vpn_exporter.py:40-69 | On exit code 0 the section has 1 + 3·peers lines. It starts with status 1, and lines 1+3k to 3+3k are the metrics of the k-th accepted peer. |
| VpnExporter.WireguardSkipsInterfaceLine | testbed/monitoring/exporter/vpn_exporter.py:41-49 | The first line of the stripped dump (the interface line) yields only the status line. The peers are read from the lines after it. |
| VpnExporter.WireguardFailures | testbed/monitoring/exporter/vpn_exporter.py:70-80 | A non-zero exit gives only status 0. A missing `wg` gives status 0 and the wg_not_found error. A timeout gives only the timeout error, and any other exception gives only the exception error. |
| VpnExporter.PeerLinesRead | testbed/monitoring/exporter/vpn_exporter.py:54-69 | The three peer samples read back as receive bytes = field 5, transmit bytes = field 6 and last handshake = field 4, each under its metric name. |
| VpnExporter.WireguardOneLine | testbed/monitoring/exporter/vpn_exporter.py:29-82 | Every WireGuard line renders without a newline, whatever `wg` printed. |
| VpnExporter.CollectIpsecMetrics | testbed/monitoring/exporter/vpn_exporter.py:84-130 | The lines appended for each way `ipsec statusall` can end equal the IPsec section of the document. |
| VpnExporter.CollectIpsecStatus | testbed/monitoring/exporter/vpn_exporter.py:98-117 | On exit code 0 it emits the status, established and installed lines, then each byte counter whose pattern matches. |
| VpnExporter.IpsecDisabled | testbed/monitoring/exporter/vpn_exporter.py:88-89 | With the IPsec check switched off the section is empty, whatever the run. |
| VpnExporter.IpsecFailures | testbed/monitoring/exporter/vpn_exporter.py:119-128 | A non-zero exit gives one status-0 line. A missing `ipsec` gives status 0 and the ipsec_not_found error. A timeout and any other exception each give only their error line. |
| VpnExporter.IpsecUpIffEstablished | testbed/monitoring/exporter/vpn_exporter.py:102-105 | The tunnel is reported up exactly when "ESTABLISHED" occurs in the output, and down exactly when it does not. |
| VpnExporter.IpsecCountsRead | testbed/monitoring/exporter/vpn_exporter.py:102-107 | The established and installed samples read back as the decimal counts of "ESTABLISHED" and "INSTALLED" in the output. |
| VpnExporter.IpsecByteCounters | testbed/monitoring/exporter/vpn_exporter.py:111-117 | Each byte counter is emitted exactly when its pattern matches somewhere in the output. A receive counter is the fourth line and a transmit counter the last, each carrying the digits of its leftmost match. |
| VpnExporter.ByteCountersPlaced | testbed/monitoring/exporter/vpn_exporter.py:114-117 | After the three count lines, each counter appears exactly when its search found something. The receive counter comes right after them and the transmit counter last. |
| VpnExporter.IpsecOneLine | testbed/monitoring/exporter/vpn_exporter.py:84-130 | Every IPsec line renders without a newline, whatever the output. |
| VpnExporter.CollectNetworkInterfaceMetrics | testbed/monitoring/exporter/vpn_exporter.py:132-173 | The lines appended for `/proc/net/dev` equal the network section: the rows after the two header lines, or the proc_read_failed error when the file cannot be read. |
| VpnExporter.CollectDeviceRows | testbed/monitoring/exporter/vpn_exporter.py:141-168 | The loop over the rows emits each row's interface metrics in order. |
| VpnExporter.CollectDeviceRow | testbed/monitoring/exporter/vpn_exporter.py:142-168 | A row adds the six interface samples or nothing, as its parts, name and counters decide. |
| VpnExporter.NetworkSkipsHeader | testbed/monitoring/exporter/vpn_exporter.py:138-139 | The two header lines of `/proc/net/dev` contribute nothing. The section is made from the rows after them. |
| VpnExporter.DeviceRowAccepted | testbed/monitoring/exporter/vpn_exporter.py:142-153 | A row yields 0 or 6 lines. It yields 6 exactly when it splits on ':' into two parts, the stripped name starts with a prefix of interest, and at least 16 counters follow. |
| VpnExporter.StartsWithAnyExists | testbed/monitoring/exporter/vpn_exporter.py:149 | The `any(iface.startswith(prefix) ...)` test holds exactly when some listed prefix starts the name. |
| VpnExporter.InterfaceLinesRead | testbed/monitoring/exporter/vpn_exporter.py:152-168 | The six samples read back, in order, as `vpn_interface_rx_bytes` = counter 0, `tx_bytes` = 8, `rx_packets` = 1, `tx_packets` = 9, `rx_errors` = 2 and `tx_errors` = 10, each under its own metric name. |
| VpnExporter.InterfaceLinesIgnoreOthers | testbed/monitoring/exporter/vpn_exporter.py:153-168 | The samples depend only on counters 0, 1, 2, 8, 9 and 10, so the drop counters and the rest change nothing. |
| VpnExporter.NetworkOneLine | testbed/monitoring/exporter/vpn_exporter.py:132-173 | Every network line renders without a newline, whatever the file holds. |
| VpnExporter.AnnotationsOneLine | testbed/monitoring/exporter/vpn_exporter.py:209-228 | No HELP description or TYPE kind contains a newline. |
| VpnExporter.CollectAll | testbed/monitoring/exporter/vpn_exporter.py:204-242 | The document is the rendered annotations, then the WireGuard, IPsec, network and latency sections, then the trailer, joined with newlines and ended with a newline. |
| VpnExporter.DocumentFrame | testbed/monitoring/exporter/vpn_exporter.py:206-240 | The document starts with the fourteen HELP/TYPE lines and ends with the four trailer lines, whatever the collectors returned. |
| VpnExporter.DocumentOneLine | testbed/monitoring/exporter/vpn_exporter.py:204-242 | Every line of the document renders without a newline, provided the interface name and the latency lines have none. |
| VpnExporter.DocumentLayout | testbed/monitoring/exporter/vpn_exporter.py:242 | Splitting the document on newlines gives back exactly its rendered lines, followed by the empty piece after the final newline. |
| Patterns.FirstDigitsBeforeIsLeftmost | testbed/monitoring/exporter/vpn_exporter.py:111-112 | `re.search(r'(\d+)\s+tag')` finds nothing exactly when no position matches. Otherwise its group is the digits of a match with no match to its left. |
| Patterns.FirstDigitsBeforeWholeRun | testbed/monitoring/exporter/vpn_exporter.py:111-112 | The leftmost match's digits are a whole run: no digit comes right before them. |
| PyText.CountPositive | testbed/monitoring/exporter/vpn_exporter.py:102-105 | `output.count(pattern) > 0` holds exactly when the pattern occurs in the output. |
| PyText.JoinLinesSplit | testbed/monitoring/exporter/vpn_exporter.py:242 | `'\n'.join(lines) + '\n'` split on newlines gives the lines and a final empty piece, when no line has a newline. |
| PushIperfMetrics.ParseIperfResults | testbed/monitoring/exporter/push_iperf_metrics.py:56-93 | The dict built by the assignments equals the parse of the report. An exception stops the parse and keeps the dict built so far. |
| PushIperfMetrics.ApplyStreams | testbed/monitoring/exporter/push_iperf_metrics.py:78-83 | The loop over `streams` equals the stream stages applied in order, and it stops at the first stream that raises. |
| PushIperfMetrics.ApplyStream | testbed/monitoring/exporter/push_iperf_metrics.py:79-83 | A stream whose `udp` section is non-empty sets the jitter, lost-packets and lost-percent keys. A stream that is not a dict raises. |
| PushIperfMetrics.StreamLoopRaised | testbed/monitoring/exporter/push_iperf_metrics.py:78-91 | After an exception the streams that remain change nothing. |
| PushIperfMetrics.Get | testbed/monitoring/exporter/push_iperf_metrics.py:61-88 | `x.get(name, default)` gives a value exactly when `x` is a dict. Any other value raises. |
| PushIperfMetrics.LookupLast | testbed/monitoring/exporter/push_iperf_metrics.py:36 | A decoded object's value for a name is its last member with that name, and it has none when no member has the name. |
| PushIperfMetrics.PutEffect | testbed/monitoring/exporter/push_iperf_metrics.py:65-88 | `metrics[key] = value` appends the key when it is new and keeps its position otherwise. It sets the key's value and leaves every other key's value alone. |
| PushIperfMetrics.PutDistinct | testbed/monitoring/exporter/push_iperf_metrics.py:65-88 | Assignments keep the dict's keys distinct. |
| PushIperfMetrics.ParsedKeysInOrder | testbed/monitoring/exporter/push_iperf_metrics.py:58-93 | Whatever the report, the parsed keys are a prefix of the fixed order, with or without the three UDP keys. |
| PushIperfMetrics.StreamLoopShaped | testbed/monitoring/exporter/push_iperf_metrics.py:78-83 | Over well-formed streams nothing raises. The UDP keys hold the fields of the last stream with a non-empty `udp` section: the first such stream adds them and later ones overwrite them in place. |
| PushIperfMetrics.StreamsStageShaped | testbed/monitoring/exporter/push_iperf_metrics.py:75-83 | For a well-formed `end`, the streams step adds exactly the UDP entries of the last stream with UDP data. An empty or missing `streams` adds nothing. |
| PushIperfMetrics.ParseWellFormed | testbed/monitoring/exporter/push_iperf_metrics.py:56-93 | A well-formed report parses without exception to the expected dict. It holds the sender and receiver fields (throughputs divided by 10^6), the last UDP fields if any and the CPU fields, with 0 for each missing field. |
| PushIperfMetrics.ParseWellFormedKeys | testbed/monitoring/exporter/push_iperf_metrics.py:56-93 | A well-formed report yields every key of a complete run in assignment order, with the UDP keys exactly when some stream has UDP data. |
| PushIperfMetrics.ParsedWithoutLatency | testbed/monitoring/exporter/push_iperf_metrics.py:56-93 | The parse never sets the latency key. |
| PushIperfMetrics.ValueText | testbed/monitoring/exporter/push_iperf_metrics.py:104-106 | A value is written exactly when it is an int, a float or a bool. |
| PushIperfMetrics.NumericEntriesMembers | testbed/monitoring/exporter/push_iperf_metrics.py:103-104 | The pushed entries are exactly the dict's entries with numeric values. |
| PushIperfMetrics.MetricLinesNumeric | testbed/monitoring/exporter/push_iperf_metrics.py:103-106 | There is one metric line per numeric entry, in dict order, and line k is that entry's sample. |
| PushIperfMetrics.PromNameIsWord | testbed/monitoring/exporter/push_iperf_metrics.py:105 | Every `vpn_iperf_<key>` name is made only of lower-case letters and underscores. |
| PushIperfMetrics.EntryLineRead | testbed/monitoring/exporter/push_iperf_metrics.py:105-106 | A metric line reads back as `vpn_iperf_<key>` with the entry's value. |
| PushIperfMetrics.TimestampLineRead | testbed/monitoring/exporter/push_iperf_metrics.py:109 | The timestamp line reads back as `vpn_iperf_test_timestamp` with the time in milliseconds. |
| PushIperfMetrics.SuccessLineRead | testbed/monitoring/exporter/push_iperf_metrics.py:110 | The success line reads back as `vpn_iperf_test_success` with value 1. |
| PushIperfMetrics.PayloadLines | testbed/monitoring/exporter/push_iperf_metrics.py:100-112 | Splitting the payload on newlines gives its lines and a final empty piece. It has one line per numeric entry, read back with that entry's name and value, and then the timestamp and success lines. |
| PushIperfMetrics.PushUrlTarget | testbed/monitoring/exporter/push_iperf_metrics.py:115 | The URL is `<gateway>/metrics/job/<job>/vpn_type/<type>/target/` followed by the host with every '.' replaced by '_', so no '.' is left in the target. |
| PushIperfMetrics.PushToPrometheus | testbed/monitoring/exporter/push_iperf_metrics.py:96-136 | It posts the payload and URL above. The push succeeds exactly when the gateway answers 200. A URLError, and any other status, is a failure. Only other exceptions escape. |
| PushIperfMetrics.WithLatency | testbed/monitoring/exporter/push_iperf_metrics.py:196-198 | Adding a measured latency sets `latency_avg_ms` to it, appending the key when it is new. A failed measurement changes nothing, and no other key changes in either case. |
| PushIperfMetrics.LatencyPushedLast | testbed/monitoring/exporter/push_iperf_metrics.py:196-198 | A measured latency becomes the dict's last entry and the last metric line of the push. A failed measurement leaves both unchanged. |
| PushIperfMetrics.RunIperfTest | testbed/monitoring/exporter/push_iperf_metrics.py:24-53 | A test succeeds exactly when iperf3 exits with 0 and its output decodes as JSON. It then carries the decoded report. |
| PushIperfMetrics.RunIperfTestFailures | testbed/monitoring/exporter/push_iperf_metrics.py:42-53 | A failed test's error is iperf3's stderr for a non-zero exit, "JSON parse error: " and the decoder's message for output that is not JSON, "Timeout" for a timeout, and the exception's message otherwise. |
| PushIperfMetrics.RunLatencyTest | testbed/monitoring/exporter/push_iperf_metrics.py:139-156 | A measured average is digits with at most one dot and at least one digit. So it is never negative, and the caller's `latency >= 0` accepts it, while every failure gives the -1 sentinel. |
| PushIperfMetrics.RunLatencyTestMeasures | testbed/monitoring/exporter/push_iperf_metrics.py:147-152 | A latency is measured exactly when ping exits with 0, the rtt summary matches and the average parses as a number. It is then the average the leftmost match captures. |
| Patterns.RttAverageIsLeftmost | testbed/monitoring/exporter/push_iperf_metrics.py:150 | `re.search(r'rtt [^=]+= [\d.]+/([\d.]+)/')` finds nothing exactly when no position matches. Otherwise its group is the second number of a match with no match to its left. |

## Left out

- Processes, files, clocks and the network are not modelled.
  - How `wg`, `ipsec`, `iperf3` and `ping` ended is a parameter (`Outcome`).
  - So is the text of `/proc/net/dev` (`None` when it cannot be read).
  - So are `time.time()` and the gateway's answer (`Delivery`).
  - No request is sent.
- `collect_latency_metrics` (vpn_exporter.py:175-202) is outside the modelled core. Its lines are a parameter of `collect_all`.
- Module configuration is a parameter (`Config`): the environment variables `WIREGUARD_INTERFACE` and `IPSEC_CHECK`, and `EXPORTER_PORT` and `COLLECT_INTERVAL`, which the core does not read.
- `VPNMetrics` is not an object here. Its `metrics` and `labels` fields are never read or written by the collectors, so each collector is a method over its inputs.
- `MetricsHandler`, the HTTP server and `main` of both scripts are not modelled. This includes argument parsing, printing and `sys.exit`.
  - From `main` of the push script, only the latency step (push_iperf_metrics.py:196-198) is modelled.
  - That `main` reads `PUSHGATEWAY_URL` at line 166 before `global PUSHGATEWAY_URL` at line 172, which Python 3.6 and later reject as a SyntaxError when they compile the module. The gateway URL is a parameter of the push.
- Floating point is symbolic.
  - `bits_per_second / 1_000_000` and `float()` of the ping average are kept as the values they are computed from.
  - Their printed form comes from a caller-supplied `floatText` function.
  - A JSON float carries its literal text and whether it is zero (which is what truthiness needs); its numeric value is not modelled.
  - The OverflowError of dividing an integer too large for a float is not modelled.
- PushIperfMetrics.RunIperfTest: the elapsed time in the result dict is not modelled, and neither is the exact text of exception messages (they are opaque strings).
- PushIperfMetrics.RunLatencyTest: `float()` is modelled only on the texts the pattern can capture (digits and dots); the value is returned as that text.
- Patterns.FirstDigitsBeforeIsLeftmost: `\d` and `\s` match ASCII digits and Python's whitespace set. The non-ASCII Unicode digits that Python's `\d` also matches are not modelled.
- JSON decoding itself (`json.loads`) is a parameter of `run_iperf_test`. A decoded report is a `Json` value.
