# GoCert: a verified model of the certificate probe and the interactive check

GoCert connects to TLS endpoints, reads the certificate chain the server presents
(without validating trust), and reports what it sees: subject, issuer, dates,
serial number, names, whether the leaf matches the requested hostname, and the
presented chain leaf first. In one-shot mode it prints one JSON envelope per
endpoint (`{"data": ...}` or `{"error": ...}`). In the terminal UI the user picks
an endpoint from a list, one probe runs while a spinner turns, and the JSON is
then shown in a scrollable viewport.

This project models the two parts of the program that carry real logic:

- `checker.dfy`, module `Checker` (checker/checker.go). It resolves the port,
  forms the dial address, builds the report from the peer certificates, and
  builds the envelope. The two append loops of `checkCert` are methods with loop
  invariants, proved against the pure `IpStrings` and `ChainEntries`; `CheckCert`
  itself is proved against the pure `Report`. The library calls are inputs,
  passed as records of total functions: `Env` holds `url.Parse`, the TLS dial
  and the JSON encoder, and `X509` holds `Name.String`, `Time.Format`,
  `VerifyHostname` and the other conversions.
- `tui.dfy`, module `Tui` (tui/tui.go). `model.Update` is a pure transition
  `(Model, Msg) -> (Model, seq<Effect>)`. Starting the probe goroutine, waiting
  on the channel, `tea.Quit`, the spinner tick and the widgets' own commands are
  effect tags. The bubbles widgets are inputs (`Widgets`). Each returns only
  the part of the widget it owns: the list returns its cursor, the viewport its
  scroll offset, the spinner its frame. The module also models `max`, the rule
  length of the header and footer, and the list label text.
- `wrappers.dfy`: the `Option` type used for nil errors and nil commands.

Three behaviours of the code worth knowing, each stated as the code has it:

- A scheme other than `https` with no port is not rejected at resolution time.
  The port stays empty, and the dialer is asked for `host:`.
- A failed probe does not return the UI to `Listing`. The error envelope is
  shown in `Showing` like any other response.
- "Exactly one of `data`/`error`" holds only for a non-empty error message. An
  error whose message is empty would serialize as `{}` (`EnvelopeExclusive`
  states the condition).

## Model

| member | source | states |
|---|---|---|
| `Checker.ResolvePort` | checker/checker.go:80-87 | An explicit port wins. An empty port becomes `443` for `https`. The result is empty exactly when the port is empty and the scheme is not `https`. |
| `Checker.DialAddress` | checker/checker.go:93 | The address is the hostname, then `:`, then the port, with the lengths adding up. |
| `Checker.DialAddressSplits` | checker/checker.go:93 | Splitting the dial address at its last `:` gives back the hostname and a colon-free port. |
| `Checker.DialedAddress` | checker/checker.go:80-96 | After a successful parse, the probe's outcome is the dial of `host:port`, `host:443` (https, no port) or `host:` (other scheme, no port): the dial error becomes `DialFailed`, the peer certificates become `Handshaken`. |
| `Checker.Connect` | checker/checker.go:74-96 | Parsing fails exactly when `url.Parse` fails. A completed handshake carries at least one certificate. |
| `Checker.IpStrings` | checker/checker.go:112-114 | The IP list is converted element-wise: same length, entry i is the text of address i. |
| `Checker.AppendIpStrings` | checker/checker.go:112-114 | The append loop over the leaf's IP addresses builds exactly `IpStrings` of that list. |
| `Checker.AppendChain` | checker/checker.go:121-130 | The append loop over the presented certificates builds exactly `ChainEntries` of the list. |
| `Checker.ChainEntry` | checker/checker.go:122-127 | A chain entry copies the certificate's `IsCA` and names its issuer, not its subject: `Issuer.CommonName`, `Issuer.String()`, and `NotAfter` in the `2006-January-02` layout. |
| `Checker.ChainEntries` | checker/checker.go:121-130 | One entry per presented certificate, same order, leaf included. Entry i copies `IsCA`, the issuer string, the issuer common name and `NotAfter` formatted with `2006-January-02`. |
| `Checker.ChainEntriesDetermined` | checker/checker.go:121-127 | A chain entry depends only on the certificate's `IsCA`, issuer and `NotAfter`. |
| `Checker.LeafFieldsFromLeaf` | checker/checker.go:99-110 | Every leaf field of the report depends on `PeerCertificates[0]` alone, so reports of two chains with the same leaf differ only in `Chain`. |
| `Checker.Report` | checker/checker.go:99-132 | The report of a handshake. From `PeerCertificates[0]`: subject and issuer strings, DNS names, `NotBefore` and `NotAfter` in the `2006-January-02` layout, the serial number and public-key algorithm as text, the IP addresses as text in order, and `ValidHost` true exactly when `VerifyHostname` succeeds. The chain is exactly `ChainEntries` of the presented certificates, so the leaf's entry comes first. |
| `Checker.CheckCert` | checker/checker.go:69-134 | Parse or dial failure returns the zero `certData` with that error. Otherwise it returns no error and the report of the presented chain: leaf fields from certificate 0, `ValidHost` true exactly when `VerifyHostname` succeeds, chain built element-wise. |
| `Checker.ResponseKeys` | checker/checker.go:14-17 | `data` is serialized exactly when `Message` is set, `error` exactly when `Error` is non-empty (`omitempty`). |
| `Checker.CertDataKeys` | checker/checker.go:19-30 | `dns_names` and `ip_addresses` appear exactly when non-empty. The other eight keys always appear. |
| `Checker.ReportKeys` | checker/checker.go:21-26 | A report serializes `dns_names` exactly when the leaf has DNS names, and `ip_addresses` exactly when the leaf has IP addresses. |
| `Checker.Envelope` | checker/checker.go:44-49 | The envelope holds a report exactly after a handshake, then with an empty error. After a failure it holds no report and the failure's message. |
| `Checker.EnvelopeExclusive` | checker/checker.go:44-49 | A handshake serializes only `data`. A failure with a non-empty message serializes only `error`. |
| `Checker.HostnameMismatchNotFatal` | checker/checker.go:116-132 | A failed `VerifyHostname` only clears `is_valid_hostname`: the envelope still has the full report and an empty error. |
| `Checker.PrettyEncode` | checker/checker.go:60-67 | The envelope goes to the JSON encoder with an empty prefix and a four-space indent. The encoder's error is returned as is. |
| `Checker.EncodeFailureLine` | checker/checker.go:52-54 | The logged line is `Can not encode certificate info`, a space, the error text and a newline, as `fmt.Println` joins its two operands. |
| `Checker.GetJsonCert` | checker/checker.go:39-67 | The returned text is what the encoder writes for the envelope (empty prefix, four-space indent), even when encoding fails. An encoding failure only produces the logged line. |
| `Tui.Update` | tui/tui.go:105-194 | A quit key (`ctrl+c`, `q`, `esc`) returns the unchanged model and `Quit` in every state. No other message emits `Quit`. The list items are never changed. |
| `Tui.Resize` | tui/tui.go:116-134 | A window-size message sets `ready`, gives the viewport `msg.Width` and `msg.Height` less the header and footer heights, and changes nothing else in the model. A first resize builds a new viewport at `headerHeight + 1` with no content. Later resizes keep the content and position. It emits only viewport commands. |
| `Tui.UpdateListing` | tui/tui.go:137-157 | In `Listing`, a select with an item moves to `Checking` with that item as `choice`, and emits exactly the probe and the spinner tick. Any other message stays in `Listing`, changes at most the list cursor, and adds only widget commands. |
| `Tui.UpdateShowing` | tui/tui.go:158-173 | In `Showing`, the state becomes `Listing` exactly on `left`/`h`. Otherwise only the viewport's scroll offset can change, and only viewport commands are added. |
| `Tui.UpdateChecking` | tui/tui.go:174-189 | In `Checking`, the state becomes `Showing` exactly on a response. The response sets the content to its text and resets the spinner. Everything else is kept: choice, list, ready, quitting, and the viewport's geometry and rendering flag (the scroll offset is the widget's). Every effect before the closing channel wait comes from `cmds` or is a viewport command. A tick changes only the spinner. Any other message changes nothing. |
| `Tui.InitEffects` | tui/tui.go:84-86 | `Init` arms one wait on the result channel and starts no probe. |
| `Tui.Initial` | tui/tui.go:253-262 | The launch model lists the endpoints in `Listing`, with no choice, not ready, and its cursor on the first endpoint when there is one. |
| `Tui.ResetSpinner` | tui/tui.go:231-235 | The spinner becomes a fresh one and nothing else changes. |
| `Tui.SelectStartsProbe` | tui/tui.go:141-149 | In `Listing`, `enter`/`right`/`l` with an item under the cursor sets `choice` to that item and `state` to `Checking`. It emits exactly one probe for that item, then the spinner tick. |
| `Tui.SelectWithoutItem` | tui/tui.go:141-149 | With no selected item, select changes nothing and emits nothing. |
| `Tui.NavigateMovesCursor` | tui/tui.go:150-156 | In `Listing`, `up`/`k`/`down`/`j` change only the list cursor. |
| `Tui.ListingStaysListing` | tui/tui.go:136-157 | In `Listing`, every message except a select with an item leaves the state and `choice` unchanged. |
| `Tui.CheckingIgnoresKeys` | tui/tui.go:186-188 | While `Checking`, every non-quit key leaves the model unchanged and emits nothing. |
| `Tui.CheckingTickMovesSpinner` | tui/tui.go:183-185 | While `Checking`, a spinner tick changes only the spinner and emits only spinner commands. |
| `Tui.ResponseShows` | tui/tui.go:176-182 | In `Checking`, a response sets `Showing` and makes the viewport content exactly the response text. The spinner is reset. Every other model field and the viewport's geometry are kept, and only the scroll offset may move. The effects are viewport commands, then the wait that re-arms the channel. |
| `Tui.ResponseIgnoredElsewhere` | tui/tui.go:136-173 | A response in `Listing` or `Showing` changes nothing. |
| `Tui.ShowingBack` | tui/tui.go:162-163 | In `Showing`, `left`/`h` returns to `Listing`, with no other change. |
| `Tui.ShowingScrolls` | tui/tui.go:164-171 | In `Showing`, `down`/`j`/`up`/`k` change only the viewport's scroll offset and stay in `Showing`. |
| `Tui.ResizeGeometry` | tui/tui.go:116-134 | A window-size message sets `ready`, makes the viewport width `msg.Width` and its height `msg.Height − (header + footer)`, and keeps the state. Nothing outside the viewport changes. A ready viewport keeps its content. |
| `Tui.RunConcat` | tui/tui.go:105-194 | Running `a` then `b` equals running `a + b`, with the effects concatenated. |
| `Tui.StepInFlight` | tui/tui.go:141-182 | A step starts a probe exactly when it moves `Listing` → `Checking`. One step starts at most one probe, and a step leaves `Checking` exactly when it consumes a response. |
| `Tui.RunInFlight` | tui/tui.go:141-182 | Over any run, probes started plus one-if-initially-`Checking` equals responses consumed plus one-if-finally-`Checking`. So at most one probe is ever outstanding. |
| `Tui.LaunchedSessionInFlight` | tui/tui.go:257-262 | From the launch model, the probes started minus the responses consumed is 1 exactly while the model is `Checking`. |
| `Tui.StepWaits` | tui/tui.go:174-182 | A step arms a new wait on the result channel exactly when it consumes a probe's result. |
| `Tui.RunWaits` | tui/tui.go:174-182 | Over any run, the waits armed equal the results consumed. |
| `Tui.LaunchedSessionWaits` | tui/tui.go:84-103 | From launch, counting `Init`'s wait, the waits armed are always one more than the results consumed, so the channel always has a reader. |
| `Tui.BrowsingStaysListing` | tui/tui.go:150-156 | Any run of navigation keys and resizes keeps `Listing` and the items. It keeps the cursor on an item, assuming (`CursorStaysOnItem`) that the list widget clamps its cursor to the items. |
| `Tui.WaitingStaysChecking` | tui/tui.go:174-189 | Any run of non-quit, non-response messages keeps `Checking` and `choice`. |
| `Tui.SelectThenResponseShows` | tui/tui.go:136-190 | Any navigation and resizes, then select, then any waiting messages, then a response: the model ends in `Showing`, shows exactly that response, and `choice` is the item the cursor was on at select. This assumes (`CursorStaysOnItem`) that the list widget clamps its cursor to the items. |
| `Tui.Max` | tui/tui.go:196-201 | `max(a, b)` is at least both arguments and equal to one of them. |
| `Tui.Repeat` | tui/tui.go:205 | `strings.Repeat` of one character n times: length n, every character that one. The count must be non-negative. |
| `Tui.Rule` | tui/tui.go:203-211 | The header/footer rule is all `─`. Together with the label it fills the viewport width exactly. It is empty when the label is at least as wide. |
| `Tui.NatToDecimal` | tui/tui.go:53 | `%d` of a natural number is a non-empty string of digits with no leading zero. |
| `Tui.DecimalRoundTrip` | tui/tui.go:53 | Reading the decimal numeral of n back gives n. |
| `Tui.ItemLabel` | tui/tui.go:53-59 | The list label starts with `> ` exactly when its index is the cursor's, and ends with the item text. |
| `Tui.LabelRoundTrip` | tui/tui.go:53-59 | The label of item i reads back as: the `> ` mark exactly when i is the cursor index, then the number i+1, then `. `, then the item text. |

## Left out

- TLS dial and network I/O, `conn.Close` and the dial timeout: the dial is the input `Env.dial`, called with the address and the timeout.
- `url.Parse`, `Hostname()` and `Port()`: `Env.parse` yields the scheme, hostname and port, or a parse error message.
- x509, `big.Int`, `net.IP` and `time.Format` conversions and `VerifyHostname`: foreign library code, as the functions of `X509`.
- GetJsonCert: does not model the byte-exact output of `encoding/json` (library code). The text is whatever `Env.encode` writes. Only which keys appear is modelled (`ResponseKeys`, `CertDataKeys`). `chainCert` has no `omitempty` field, so all four of its keys always appear, and the model does not state this separately.
- The non-empty peer chain is a precondition (`HandshakeYieldsLeaf`): `checkCert` indexes `PeerCertificates[0]`, and a completed TLS handshake always delivers the server certificate.
- Concurrency: the goroutine in `checkServer`, its `time.Sleep`, the unbuffered channel and `waitForActivity` become the effects `SpawnProbe` and `WaitForActivity`. A result that arrives after quit has no consumer, and the blocked send is not modelled.
- Rendering: lipgloss styles, `View`, `Launch`'s program setup, and the `list`, `viewport` and `spinner` widget internals. Their updates are the inputs in `Widgets`, and the measured header and footer heights are the input `Chrome`. The run lemmas about browsing assume (`CursorStaysOnItem`) that the list widget keeps its cursor on an item, as bubbles' list does.
- Update: the scroll offset after `ViewDown`, `ViewUp`, `SetContent` and the viewport's own `Update` is whatever the widget input returns. Only "nothing but the offset changes" is stated.
- resetSpinner: works through a pointer on Update's local copy of the model. It is modelled as a value update of that copy, which is equivalent here.
- cmd/cmd.go (flag parsing, `os.Exit`) and main.go (the sequential print loop) are not part of this model.
- IPv6 literal hosts: the address is formed by plain concatenation, as in the source. No brackets are added, so `::1` on port 443 gives `::1:443`, which Go's dialer rejects as having too many colons. The dial is an input, so this rejection is only a possible `DialError`. `SplitHostPort` splits at the last `:` and, unlike `net.SplitHostPort`, accepts such an address. `DialAddressSplits` is about that split only.
- The spinner's id: every `spinner.New()` gets a fresh id, and a spinner ignores ticks carrying another id. The model's spinner is its frame alone, so the spinner `resetSpinner` builds equals the launch spinner.
