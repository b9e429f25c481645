# DNS check: a Dafny model

This project models the DNS health check of the Scorify `dns` plugin. The check
takes a JSON configuration with a DNS server (`target`, `port`), a record type, a
domain and an expected value. It sends one lookup to that server and succeeds only
if the expected value is among the answers.

The model follows `Run` step by step:

1. The decoded configuration is an input: either a `Schema` or the decoder's error.
2. The dial target is `Target:Port`, written as Go's `"%s:%d"` formats it.
3. The check fails with "deadline not set" when the context carries no deadline.
4. The resolver's dial hook ignores the network and address it is given. It always
   dials `"udp"` to the target, bounded by the context's deadline.
5. The record type selects exactly one lookup. Its error is returned unchanged,
   and its answers are turned into a list of strings.
6. A scan of that list either succeeds on an exact match or fails with
   `expected out <%q of expected> not found in [<list joined by ", ">]`.

The resolver is an oracle (`Check.Resolver`). It has one function per lookup, and
each function gets the `Dialer` that every connection it opens must go through.
`Run` returns the outcome and the lookups it issued (`issued`). That makes "no
lookup was made" something its contract can say.

Files:

- `wrappers.dfy`: `Option` and `Result`.
- `format.dfy` (module `Format`): the Go formatting the check relies on: `"%d"`,
  `"%q"` (`strconv.Quote`), `strings.Join`, and splitting an address at its last
  `:`. Each comes with a parser and a round-trip lemma.
- `dns_check.dfy` (module `Check`): the schema, the dialer, the resolver oracle,
  the normalisation loops, the dispatch, the match and `Run`. It also has the
  corrected `RunIntended` (see Findings) and the lemmas.

The A and AAAA cases are modelled as the code is written. `addresses := make(...)`
(main.go:52, main.go:62) declares a new slice that shadows the one at main.go:43.
So a successful A or AAAA lookup is always reported as not found, with an empty list.
`Check.Run` states this.

The check validates nothing:

- `Run` applies no port range and fills in no default port or record type. Empty
  strings and a zero or negative port go straight into `Target:Port` and the lookup.
- The dial hook always dials `"udp"`. No other network is ever used.
- An A or AAAA check can never succeed (see Findings).

## Model

| member | source | states |
|---|---|---|
| `Check.Run` | main.go:19-120 | A decode error is returned unchanged, ahead of the deadline check, and no lookup is made. With no deadline the result is DeadlineNotSet and no lookup is made. A record type outside the seven gives Unsupported(record) and no lookup. Otherwise exactly one lookup is issued, with the dialer for the context's deadline and `Target:Port`. Its error is returned unchanged. On success the result is Ok exactly when the expected value is in the normalised list; otherwise it is NotFound(expected, that list). A successful A or AAAA lookup always gives NotFound(expected, []). Against a resolver that refuses network names other than "ip", "ip4" and "ip6", an A or AAAA check always ends in that lookup error. At most one lookup is made. |
| `Check.Dialer.Dial` | main.go:35-39 | The hook ignores the network and address it is given: the connection is always "udp", to the configured target, with the captured deadline. |
| `Check.ConnStr` | main.go:27 | `"%s:%d"` of target and port: the text splits at its last `:` into exactly the target and `%d` of the port. |
| `Check.Normalised` | main.go:43-108 | The list each answer yields as written. An IP answer yields the empty list (the shadowed `addresses`). A CNAME yields exactly the canonical name. MX and NS yield the hosts, same length and order. PTR and TXT yield the answer unchanged. |
| `Check.ErrorString` | main.go:110-119 | Decode and lookup errors keep their own text. The other texts are "deadline not set", "unsupported record type: " followed by the record type, and a not-found text that starts with "expected out " and ends with "]". |
| `Check.Dispatch` | main.go:43-111 | The record type selects the lookup: `CallFor` is the table. An unsupported type issues nothing. A supported type issues exactly that lookup through the given dialer and returns its error unchanged, or the list normalised from its answer (empty for A/AAAA). |
| `Check.Match` | main.go:113-119 | The result is Ok if and only if the expected value equals some element exactly. Otherwise it is NotFound carrying the expected value and the whole list. |
| `Check.IPStrings` | main.go:52-55 | The list built for an IP answer has one element per address, in order, and element i is address i's text. In `Run` it is then dropped, because of the shadowing. |
| `Check.MXHosts` | main.go:79-82 | Same length and order as the MX records; element i is record i's host. The preference is dropped. |
| `Check.NSHosts` | main.go:89-92 | Same length and order as the NS records; element i is record i's host. |
| `Check.CopyStrings` | main.go:99-100 | A PTR or TXT answer is copied into a new slice equal to it. |
| `Check.DispatchTable` | main.go:45-110 | Exactly A, AAAA, CNAME, MX, NS, PTR and TXT select a lookup, and no two of them select the same one. |
| `Check.ConnStrRoundTrip` | main.go:27 | Split at its last `:`, the dial target reads back as the configured target, even when the target holds colons, and the text after the colon parses as the configured port. This is the model's own split, not Go's dialer (see Left out). |
| `Check.DialOverride` | main.go:33-40 | Whatever network and address the resolver passes, the connection uses "udp" and the context's deadline. Its address splits back into the configured target and port. |
| `Check.NotFoundMessageRoundTrip` | main.go:119 | The not-found text reads back as exactly the expected value and the joined list. |
| `Check.NotFoundMessageListsFound` | main.go:119 | For a non-empty list in which no found value holds a `,`, splitting the listed part of the message on ", " gives back every found value, in order. An empty list (the A/AAAA case as written) is not covered: as with Go's `strings.Split`, the empty listed part splits into one empty string. |
| `Check.OwnErrorTexts` | main.go:30 | The texts are "deadline not set", and "unsupported record type: " followed by the record type. No two of the check's own error texts are equal. |
| `Check.ShadowedAddressesExample` | main.go:43-55 | For an A answer holding 93.184.216.34, the list searched as written is empty. As intended it holds that address. |
| `Check.DispatchIntended` | main.go:45-65 | Like `Dispatch`, except that A/AAAA use the networks "ip4"/"ip6" and an A/AAAA answer yields the addresses' texts. |
| `Check.RunIntended` | main.go:43-119 | Like `Run`, with those corrections: a successful A/AAAA check succeeds if and only if the expected value is the text of some returned address. Every IP lookup it issues uses "ip4" or "ip6". |
| `Check.IntendedIPList` | main.go:52-55 | A value is in the intended IP list if and only if it is the text of one of the addresses. |
| `Format.NatDigits` | main.go:27 | `%d` of a non-negative int is a non-empty string of decimal digits with no leading zero. |
| `Format.Decimal` | main.go:27 | `%d` of an int is non-empty and holds no `:`. |
| `Format.DecimalRoundTrip` | main.go:27 | `%d` loses nothing: its output parses back to the same int, negative values included. |
| `Format.SplitLastColon` | main.go:27 | A split result rebuilds the input around a `:`, with no `:` after that one. No split means there is no `:` at all. |
| `Format.SplitLastColonOf` | main.go:27 | `host + ":" + tail`, with a colon-free tail, splits back into exactly host and tail. |
| `Format.Quote` | main.go:119 | `%q` of a string is enclosed in double quotes. |
| `Format.Join` | main.go:119 | `strings.Join`: empty for no parts. Otherwise it starts with the first part, and its length is the parts' total plus one separator for each gap between two parts. |
| `Format.QuoteRoundTrip` | main.go:119 | `%q` is unambiguous: a quoted string followed by anything reads back as the string and exactly what followed it. |
| `Format.SplitJoin` | main.go:119 | When the list is non-empty and no part holds the separator's first character, `strings.Split` undoes `strings.Join`. For an empty list it does not: the join is "" and `Split("", sep)` is `[""]`. |

## Findings

| source | as written | input that shows it | evidently intended | confidence | as-written member | corrected member |
|---|---|---|---|---|---|---|
| main.go:52 | `addresses := make(...)` in the A and AAAA cases (also main.go:62) declares a new slice that shadows the one at main.go:43, so the loop fills a slice that is then discarded | record "A", expected_output "93.184.216.34", and a lookup that succeeds with 93.184.216.34: the check fails with `expected out "93.184.216.34" not found in []`. This assumes the lookup succeeds. Go's resolver first rejects the network name "ipv4" (next row), which hides this defect | `addresses = make(...)`, filling the slice that is matched, so that the check succeeds | not executed | `Check.Run` (its A/AAAA clause), `Check.ShadowedAddressesExample` | `Check.RunIntended`, `Check.DispatchIntended` |
| main.go:47 | `LookupIP(ctx, "ipv4", ...)`, and `"ipv6"` at main.go:57. `net.Resolver.LookupIP` documents its networks as "ip", "ip4" and "ip6" and returns `UnknownNetworkError` for any other name | any A or AAAA configuration: with such a resolver the check ends in the lookup error "unknown network ipv4" (or "ipv6"), and no query is sent | the network names "ip4" and "ip6" | not executed | `Check.Run` (its `RejectsUnknownNetworks` clause) | `Check.RunIntended`, `Check.DispatchIntended` |

## Left out

- JSON decoding (main.go:20-25) is a library call. Its result is an input: a `Schema` or an error.
- The lookups of `net.Resolver` (`LookupIP`, `LookupCNAME`, `LookupMX`, `LookupNS`, `LookupAddr`, `LookupTXT`) and the DNS traffic behind them, including `PreferGo`. They are network I/O, so they are oracle functions of the dialer and their arguments.
- `Check.Run`: the network names "ipv4" and "ipv6" go to the `LookupIP` oracle exactly as written. Any oracle is allowed, so `Run` states Go's rejection of those names only for a resolver that rejects them (`RejectsUnknownNetworks`). It does not state that every resolver does (see Findings).
- The dial address is not parsed the way Go's dialer parses it. `ConnStr` and `Check.ConnStrRoundTrip` split the `Target:Port` text at its last `:` using the model's own `SplitLastColon`. `DialContext` uses `net.SplitHostPort`, which refuses an unbracketed IPv6 target such as "::1:53" ("too many colons"). In the model such a failure appears only as an error from the lookup oracle.
- DNS answers are represented as Unicode text (`string`, a sequence of scalar values), while Go's strings are bytes. A TXT string that is not valid UTF-8 (a raw 0xFF byte, say) has no counterpart in the model, and the model does not fix how a received byte string maps to Dafny text. In Go such an entry can never equal the expected value, because JSON decoding yields valid UTF-8. Only the bytes of the not-found message would differ.
- `net.IP.String()` is library code. An address is represented by the text it formats to.
- `net.Dialer`, `DialContext`, and the timing and cancellation of the context are time and concurrency. Only whether a deadline exists matters to the logic. The deadline is carried into the dialer and never compared.
- The context passed to each lookup and to the dial hook is not modelled beyond its deadline.
- `Format.EscapeChar`: writes every character above U+007F as itself. For ASCII it escapes as `strconv.Quote` does. Go escapes non-printable non-ASCII characters (`\u`, `\U`) using Unicode tables that are not modelled. Invalid UTF-8 cannot occur in a Dafny string.
- Go's `int` width: the port is a 64-bit int, as JSON decoding into `int` allows. Nothing else depends on the width.
- A Go error value is represented by its `Error()` text. Decode and lookup errors are returned unchanged. The model does not look inside them.
