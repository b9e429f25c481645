/** The DNS check: decode the configuration, insist on a deadline, point a
    resolver at Target:Port over UDP, run the one lookup that the record type
    selects, turn its answers into strings, and look for the expected value
    among them. The resolver's lookups are an oracle; the model records which
    lookup was issued, and with which dialer, so that "no lookup was made" can
    be stated. */
module Check {
  import opened Wrappers
  import opened Format

  /** Go's int on a 64-bit platform: JSON decoding refuses a port outside it. */
  type GoInt = x: int | -0x8000_0000_0000_0000 <= x < 0x8000_0000_0000_0000

  /** The configuration struct, as JSON decoding fills it in. Nothing is
      validated: a zero port or an empty string flows through unchanged. */
  datatype Schema = Schema(
    target: string,
    port: GoInt,
    record: string,
    domain: string,
    expectedOutput: string)

  /** A Go error value, represented by the text its Error method returns. */
  datatype GoError = GoError(message: string)

  /** An absolute point in time; the check only passes it along. */
  type Time = int

  /** What the check reads of its context: the deadline, if one is set. */
  datatype Context = Context(deadline: Option<Time>)

  /** One connection attempt: the network and address dialled, bounded by a deadline. */
  datatype Connection = Connection(network: string, address: string, deadline: Time)

  /** The dial hook installed in the resolver. Whatever network and address the
      resolver asks for, it dials "udp" to the configured target. */
  datatype Dialer = Dialer(deadline: Time, connStr: string) {
    function Dial(network: string, address: string): (c: Connection)
      ensures c.network == "udp" && c.address == connStr && c.deadline == deadline
    {
      Connection("udp", connStr, deadline)
    }
  }

  /** An address returned by LookupIP, with the text its String method gives. */
  datatype IP = IP(text: string)

  /** A mail-exchange record: host name and preference. */
  datatype MX = MX(host: string, pref: bv16)

  /** A name-server record. */
  datatype NS = NS(host: string)

  /** The six resolver lookups the check can issue, with their arguments. */
  datatype Call =
    | LookupIP(network: string, host: string)
    | LookupCNAME(host: string)
    | LookupMX(name: string)
    | LookupNS(name: string)
    | LookupAddr(addr: string)
    | LookupTXT(name: string)

  /** The raw answer of a successful lookup, one constructor per lookup. */
  datatype Answer =
    | IPs(ips: seq<IP>)
    | CanonicalName(cname: string)
    | MailExchanges(mxs: seq<MX>)
    | NameServers(nss: seq<NS>)
    | Names(names: seq<string>)
    | Texts(txts: seq<string>)

  /** The resolver as an oracle: for each lookup, given the dialer that every
      connection it opens goes through, an error or the raw answers. */
  datatype Resolver = Resolver(
    lookupIP: (Dialer, string, string) -> Result<seq<IP>, GoError>,
    lookupCNAME: (Dialer, string) -> Result<string, GoError>,
    lookupMX: (Dialer, string) -> Result<seq<MX>, GoError>,
    lookupNS: (Dialer, string) -> Result<seq<NS>, GoError>,
    lookupAddr: (Dialer, string) -> Result<seq<string>, GoError>,
    lookupTXT: (Dialer, string) -> Result<seq<string>, GoError>)
  {
    /** What the oracle answers to call, made through dialer. */
    function Perform(dialer: Dialer, call: Call): Result<Answer, GoError>
    {
      match call
      case LookupIP(network, host) =>
        (match lookupIP(dialer, network, host)
         case Failure(e) => Failure(e)
         case Success(ips) => Success(IPs(ips)))
      case LookupCNAME(host) =>
        (match lookupCNAME(dialer, host)
         case Failure(e) => Failure(e)
         case Success(c) => Success(CanonicalName(c)))
      case LookupMX(name) =>
        (match lookupMX(dialer, name)
         case Failure(e) => Failure(e)
         case Success(mxs) => Success(MailExchanges(mxs)))
      case LookupNS(name) =>
        (match lookupNS(dialer, name)
         case Failure(e) => Failure(e)
         case Success(nss) => Success(NameServers(nss)))
      case LookupAddr(addr) =>
        (match lookupAddr(dialer, addr)
         case Failure(e) => Failure(e)
         case Success(names) => Success(Names(names)))
      case LookupTXT(name) =>
        (match lookupTXT(dialer, name)
         case Failure(e) => Failure(e)
         case Success(txts) => Success(Texts(txts)))
    }
  }

  /** A lookup the check issued, and the dialer the resolver was given for it. */
  datatype Issued = Issued(dialer: Dialer, call: Call)

  /** The result of the check: nil (Ok) or one of its five kinds of error. */
  datatype Outcome =
    | Ok
    | DecodeErr(error: GoError)
    | DeadlineNotSet
    | Unsupported(record: string)
    | LookupErr(error: GoError)
    | NotFound(expected: string, found: seq<string>)

  /** The dispatch table: the one lookup a record type selects; None for a
      record type the check does not support. */
  function CallFor(record: string, domain: string): Option<Call>
  {
    match record
    case "A" => Some(LookupIP("ipv4", domain))
    case "AAAA" => Some(LookupIP("ipv6", domain))
    case "CNAME" => Some(LookupCNAME(domain))
    case "MX" => Some(LookupMX(domain))
    case "NS" => Some(LookupNS(domain))
    case "PTR" => Some(LookupAddr(domain))
    case "TXT" => Some(LookupTXT(domain))
    case _ => None
  }

  /** The dispatch table as evidently intended: A and AAAA use the network names
      "ip4" and "ip6" that the resolver's LookupIP accepts. */
  function CallForIntended(record: string, domain: string): Option<Call>
  {
    match record
    case "A" => Some(LookupIP("ip4", domain))
    case "AAAA" => Some(LookupIP("ip6", domain))
    case _ => CallFor(record, domain)
  }

  /** A resolver that, as Go's LookupIP is documented to, refuses every network
      name other than "ip", "ip4" and "ip6" before sending any query. */
  ghost predicate RejectsUnknownNetworks(resolver: Resolver)
  {
    forall d: Dialer, network: string, host: string ::
      network != "ip" && network != "ip4" && network != "ip6" ==>
        resolver.lookupIP(d, network, host).Failure?
  }

  /** The list of strings the check matches against, for each kind of answer, as
      the code is written. An IP answer yields the empty list: its strings are
      stored in a second `addresses` that shadows the one matched against. */
  function Normalised(a: Answer): (r: seq<string>)
    ensures a.IPs? ==> r == []
    ensures a.CanonicalName? ==> r == [a.cname]
    ensures a.MailExchanges? ==> |r| == |a.mxs| && forall i :: 0 <= i < |r| ==> r[i] == a.mxs[i].host
    ensures a.NameServers? ==> |r| == |a.nss| && forall i :: 0 <= i < |r| ==> r[i] == a.nss[i].host
    ensures a.Names? ==> r == a.names
    ensures a.Texts? ==> r == a.txts
  {
    match a
    case IPs(_) => []
    case CanonicalName(c) => [c]
    case MailExchanges(mxs) => seq(|mxs|, i requires 0 <= i < |mxs| => mxs[i].host)
    case NameServers(nss) => seq(|nss|, i requires 0 <= i < |nss| => nss[i].host)
    case Names(names) => names
    case Texts(txts) => txts
  }

  /** The list as evidently intended: an IP answer yields the addresses' texts. */
  function NormalisedIntended(a: Answer): seq<string>
  {
    match a
    case IPs(ips) => seq(|ips|, i requires 0 <= i < |ips| => ips[i].text)
    case _ => Normalised(a)
  }

  /** The dial target, "%s:%d" of the target and the port. */
  function ConnStr(target: string, port: int): (r: string)
    ensures SplitLastColon(r) == Some((target, Decimal(port)))
  {
    SplitLastColonOf(target, Decimal(port));
    target + ":" + Decimal(port)
  }

  const UnsupportedHead := "unsupported record type: "
  const NotFoundHead := "expected out "
  const NotFoundMiddle := " not found in ["

  /** The text of the error the check returns for a failing outcome. */
  function ErrorString(o: Outcome): (r: string)
    requires !o.Ok?
    ensures o.DecodeErr? || o.LookupErr? ==> r == o.error.message
    ensures o.DeadlineNotSet? ==> r == "deadline not set"
    ensures o.Unsupported? ==>
      |r| >= |UnsupportedHead| && r[..|UnsupportedHead|] == UnsupportedHead && r[|UnsupportedHead|..] == o.record
    ensures o.NotFound? ==> |r| > |NotFoundHead| && r[..|NotFoundHead|] == NotFoundHead && r[|r| - 1] == ']'
  {
    match o
    case DecodeErr(e) => e.message
    case DeadlineNotSet => "deadline not set"
    case Unsupported(r) => UnsupportedHead + r
    case LookupErr(e) => e.message
    case NotFound(x, found) =>
      NotFoundHead + Quote(x) + NotFoundMiddle + Join(found, ", ") + "]"
  }

  /** Reads a not-found message back into the expected value and the joined list. */
  function ParseNotFound(msg: string): Option<(string, string)>
  {
    if |msg| < |NotFoundHead| || msg[..|NotFoundHead|] != NotFoundHead then None
    else match Unquote(msg[|NotFoundHead|..])
      case None => None
      case Some((x, rest)) =>
        if |rest| > |NotFoundMiddle| && rest[..|NotFoundMiddle|] == NotFoundMiddle && rest[|rest| - 1] == ']'
        then Some((x, rest[|NotFoundMiddle|..|rest| - 1]))
        else None
  }

  // ---------------------------------------------------------------------------
  // Normalisation of the raw answers

  /** The strings of the looked-up addresses, one per address, in order. */
  method IPStrings(ips: seq<IP>) returns (addresses: seq<string>)
    ensures |addresses| == |ips|
    ensures forall i :: 0 <= i < |ips| ==> addresses[i] == ips[i].text
  {
    var a := new string[|ips|](_ => "");
    for i := 0 to |ips|
      invariant forall j :: 0 <= j < i ==> a[j] == ips[j].text
    {
      a[i] := ips[i].text;
    }
    addresses := a[..];
  }

  /** The host of each mail-exchange record, in order; preferences are dropped. */
  method MXHosts(mxs: seq<MX>) returns (addresses: seq<string>)
    ensures |addresses| == |mxs|
    ensures forall i :: 0 <= i < |mxs| ==> addresses[i] == mxs[i].host
  {
    var a := new string[|mxs|](_ => "");
    for i := 0 to |mxs|
      invariant forall j :: 0 <= j < i ==> a[j] == mxs[j].host
    {
      a[i] := mxs[i].host;
    }
    addresses := a[..];
  }

  /** The host of each name-server record, in order. */
  method NSHosts(nss: seq<NS>) returns (addresses: seq<string>)
    ensures |addresses| == |nss|
    ensures forall i :: 0 <= i < |nss| ==> addresses[i] == nss[i].host
  {
    var a := new string[|nss|](_ => "");
    for i := 0 to |nss|
      invariant forall j :: 0 <= j < i ==> a[j] == nss[j].host
    {
      a[i] := nss[i].host;
    }
    addresses := a[..];
  }

  /** A fresh slice of the same length holding a copy of the names. */
  method CopyStrings(names: seq<string>) returns (addresses: seq<string>)
    ensures addresses == names
  {
    var a := new string[|names|](_ => "");
    for i := 0 to |names|
      invariant a[..i] == names[..i]
    {
      a[i] := names[i];
    }
    addresses := a[..];
  }

  // ---------------------------------------------------------------------------
  // Dispatch, match and the whole check

  /** The result of the record-type switch. */
  datatype Dispatched = UnsupportedRecord | LookupFailed(error: GoError) | Answered(addresses: seq<string>)

  /** The record-type switch: issues the one lookup the record type selects,
      returns its error unchanged, or the list of strings to match against. */
  method Dispatch(resolver: Resolver, dialer: Dialer, record: string, domain: string)
    returns (result: Dispatched, issued: seq<Issued>)
    ensures CallFor(record, domain).None? ==> result == UnsupportedRecord && issued == []
    ensures CallFor(record, domain).Some? ==>
      var call := CallFor(record, domain).value;
      && issued == [Issued(dialer, call)]
      && result == match resolver.Perform(dialer, call)
                   case Failure(e) => LookupFailed(e)
                   case Success(a) => Answered(Normalised(a))
  {
    var addresses: seq<string> := [];
    match record {
    case "A" =>
      issued := [Issued(dialer, LookupIP("ipv4", domain))];
      var ips := resolver.lookupIP(dialer, "ipv4", domain);
      if ips.Failure? {
        return LookupFailed(ips.error), issued;
      }
      // This list is the shadowing inner `addresses`; it is dropped here.
      var inner := IPStrings(ips.value);
    case "AAAA" =>
      issued := [Issued(dialer, LookupIP("ipv6", domain))];
      var ips := resolver.lookupIP(dialer, "ipv6", domain);
      if ips.Failure? {
        return LookupFailed(ips.error), issued;
      }
      var inner := IPStrings(ips.value);
    case "CNAME" =>
      issued := [Issued(dialer, LookupCNAME(domain))];
      var cname := resolver.lookupCNAME(dialer, domain);
      if cname.Failure? {
        return LookupFailed(cname.error), issued;
      }
      addresses := [cname.value];
    case "MX" =>
      issued := [Issued(dialer, LookupMX(domain))];
      var mxs := resolver.lookupMX(dialer, domain);
      if mxs.Failure? {
        return LookupFailed(mxs.error), issued;
      }
      addresses := MXHosts(mxs.value);
    case "NS" =>
      issued := [Issued(dialer, LookupNS(domain))];
      var nss := resolver.lookupNS(dialer, domain);
      if nss.Failure? {
        return LookupFailed(nss.error), issued;
      }
      addresses := NSHosts(nss.value);
    case "PTR" =>
      issued := [Issued(dialer, LookupAddr(domain))];
      var ptrs := resolver.lookupAddr(dialer, domain);
      if ptrs.Failure? {
        return LookupFailed(ptrs.error), issued;
      }
      addresses := CopyStrings(ptrs.value);
    case "TXT" =>
      issued := [Issued(dialer, LookupTXT(domain))];
      var txts := resolver.lookupTXT(dialer, domain);
      if txts.Failure? {
        return LookupFailed(txts.error), issued;
      }
      addresses := CopyStrings(txts.value);
    case _ =>
      return UnsupportedRecord, [];
    }
    result := Answered(addresses);
  }

  /** The final scan: success on the first element equal to the expected value,
      otherwise the not-found error naming the value and the whole list. */
  method Match(addresses: seq<string>, expected: string) returns (outcome: Outcome)
    ensures outcome == Ok <==> expected in addresses
    ensures outcome != Ok ==> outcome == NotFound(expected, addresses)
  {
    for i := 0 to |addresses|
      invariant expected !in addresses[..i]
    {
      if addresses[i] == expected {
        return Ok;
      }
    }
    assert addresses[..|addresses|] == addresses;
    return NotFound(expected, addresses);
  }

  /** The check as written. `issued` lists the lookups it made (at most one). */
  method Run(decoded: Result<Schema, GoError>, ctx: Context, resolver: Resolver)
    returns (outcome: Outcome, issued: seq<Issued>)
    // A decode error is returned unchanged, before the deadline is looked at.
    ensures decoded.Failure? ==> outcome == DecodeErr(decoded.error) && issued == []
    ensures decoded.Success? && ctx.deadline.None? ==> outcome == DeadlineNotSet && issued == []
    ensures decoded.Success? && ctx.deadline.Some? ==>
      var s := decoded.value;
      var dialer := Dialer(ctx.deadline.value, ConnStr(s.target, s.port));
      match CallFor(s.record, s.domain)
      case None => outcome == Unsupported(s.record) && issued == []
      case Some(call) =>
        && issued == [Issued(dialer, call)]
        && match resolver.Perform(dialer, call)
           case Failure(e) => outcome == LookupErr(e)
           case Success(a) =>
             && (outcome == Ok <==> s.expectedOutput in Normalised(a))
             && (outcome != Ok ==> outcome == NotFound(s.expectedOutput, Normalised(a)))
    // A successful A or AAAA lookup is never matched: the list searched is empty.
    ensures decoded.Success? && decoded.value.record in {"A", "AAAA"} && |issued| == 1
            && resolver.Perform(issued[0].dialer, issued[0].call).Success?
            ==> outcome == NotFound(decoded.value.expectedOutput, [])
    // Against a resolver that refuses the names "ipv4" and "ipv6", as Go's does,
    // an A or AAAA check always ends in that lookup error.
    ensures decoded.Success? && ctx.deadline.Some? && decoded.value.record in {"A", "AAAA"}
            && RejectsUnknownNetworks(resolver)
            ==> outcome.LookupErr?
    ensures |issued| <= 1
  {
    if decoded.Failure? {
      return DecodeErr(decoded.error), [];
    }
    var schema := decoded.value;
    var connStr := ConnStr(schema.target, schema.port);
    if ctx.deadline.None? {
      return DeadlineNotSet, [];
    }
    var dialer := Dialer(ctx.deadline.value, connStr);
    var result;
    result, issued := Dispatch(resolver, dialer, schema.record, schema.domain);
    match result
    case UnsupportedRecord =>
      outcome := Unsupported(schema.record);
    case LookupFailed(e) =>
      outcome := LookupErr(e);
    case Answered(addresses) =>
      outcome := Match(addresses, schema.expectedOutput);
  }

  // ---------------------------------------------------------------------------
  // The A/AAAA lists as evidently intended

  /** The record-type switch with the A and AAAA lists kept, and with the
      network names LookupIP accepts. */
  method DispatchIntended(resolver: Resolver, dialer: Dialer, record: string, domain: string)
    returns (result: Dispatched, issued: seq<Issued>)
    ensures CallForIntended(record, domain).None? ==> result == UnsupportedRecord && issued == []
    ensures CallForIntended(record, domain).Some? ==>
      var call := CallForIntended(record, domain).value;
      && issued == [Issued(dialer, call)]
      && result == match resolver.Perform(dialer, call)
                   case Failure(e) => LookupFailed(e)
                   case Success(a) => Answered(NormalisedIntended(a))
  {
    if record == "A" || record == "AAAA" {
      var network := if record == "A" then "ip4" else "ip6";
      issued := [Issued(dialer, LookupIP(network, domain))];
      var ips := resolver.lookupIP(dialer, network, domain);
      if ips.Failure? {
        return LookupFailed(ips.error), issued;
      }
      var addresses := IPStrings(ips.value);
      result := Answered(addresses);
    } else {
      result, issued := Dispatch(resolver, dialer, record, domain);
    }
  }

  /** The check as evidently intended: an A or AAAA check succeeds exactly when
      the expected value is the text of one of the addresses looked up. */
  method RunIntended(decoded: Result<Schema, GoError>, ctx: Context, resolver: Resolver)
    returns (outcome: Outcome, issued: seq<Issued>)
    ensures decoded.Failure? ==> outcome == DecodeErr(decoded.error) && issued == []
    ensures decoded.Success? && ctx.deadline.None? ==> outcome == DeadlineNotSet && issued == []
    ensures decoded.Success? && ctx.deadline.Some? ==>
      var s := decoded.value;
      var dialer := Dialer(ctx.deadline.value, ConnStr(s.target, s.port));
      match CallForIntended(s.record, s.domain)
      case None => outcome == Unsupported(s.record) && issued == []
      case Some(call) =>
        && issued == [Issued(dialer, call)]
        && match resolver.Perform(dialer, call)
           case Failure(e) => outcome == LookupErr(e)
           case Success(a) =>
             && (outcome == Ok <==> s.expectedOutput in NormalisedIntended(a))
             && (outcome != Ok ==> outcome == NotFound(s.expectedOutput, NormalisedIntended(a)))
    ensures decoded.Success? && ctx.deadline.Some? && decoded.value.record in {"A", "AAAA"}
            && |issued| == 1 && resolver.Perform(issued[0].dialer, issued[0].call).Success?
            ==> var ips := resolver.Perform(issued[0].dialer, issued[0].call).value.ips;
                (outcome == Ok <==> exists i :: 0 <= i < |ips| && ips[i].text == decoded.value.expectedOutput)
    // Only the network names LookupIP accepts are used.
    ensures forall k :: 0 <= k < |issued| && issued[k].call.LookupIP? ==> issued[k].call.network in {"ip4", "ip6"}
  {
    if decoded.Failure? {
      return DecodeErr(decoded.error), [];
    }
    var schema := decoded.value;
    var connStr := ConnStr(schema.target, schema.port);
    if ctx.deadline.None? {
      return DeadlineNotSet, [];
    }
    var dialer := Dialer(ctx.deadline.value, connStr);
    var result;
    result, issued := DispatchIntended(resolver, dialer, schema.record, schema.domain);
    if result.Answered? && schema.record in {"A", "AAAA"} {
      ghost var ips := resolver.Perform(issued[0].dialer, issued[0].call).value.ips;
      IntendedIPList(ips, schema.expectedOutput);
    }
    match result
    case UnsupportedRecord =>
      outcome := Unsupported(schema.record);
    case LookupFailed(e) =>
      outcome := LookupErr(e);
    case Answered(addresses) =>
      outcome := Match(addresses, schema.expectedOutput);
  }

  // ---------------------------------------------------------------------------
  // Lemmas

  /** The dial target reads back as the configured target and port: split at
      its last ':', the text after it parses as the configured int. */
  lemma ConnStrRoundTrip(target: string, port: int)
    ensures var r := SplitLastColon(ConnStr(target, port));
      r.Some? && r.value.0 == target && ParseDecimal(r.value.1) == Some(port)
  {
    DecimalRoundTrip(port);
  }

  /** The dial override: whatever network and address the resolver passes, the
      connection is a "udp" one, to the configured target and port, bounded by
      the context's deadline. */
  lemma DialOverride(s: Schema, deadline: Time, network: string, address: string)
    ensures var c := Dialer(deadline, ConnStr(s.target, s.port)).Dial(network, address);
      && c.network == "udp"
      && c.deadline == deadline
      && SplitLastColon(c.address).Some?
      && SplitLastColon(c.address).value.0 == s.target
      && ParseDecimal(SplitLastColon(c.address).value.1) == Some(s.port)
  {
    ConnStrRoundTrip(s.target, s.port);
  }

  /** Exactly the seven record types select a lookup, and no two of them the same one. */
  lemma DispatchTable(record: string, other: string, domain: string)
    ensures CallFor(record, domain).Some? <==> record in {"A", "AAAA", "CNAME", "MX", "NS", "PTR", "TXT"}
    ensures CallFor(record, domain).Some? && CallFor(record, domain) == CallFor(other, domain) ==> record == other
  {
  }

  /** The check's own three error texts: "deadline not set", the record type
      after a fixed head, and the not-found text; no two of them coincide. */
  lemma OwnErrorTexts(record: string, expected: string, found: seq<string>)
    ensures ErrorString(DeadlineNotSet) == "deadline not set"
    ensures var m := ErrorString(Unsupported(record));
      |m| >= |UnsupportedHead| && m[..|UnsupportedHead|] == UnsupportedHead && m[|UnsupportedHead|..] == record
    ensures ErrorString(DeadlineNotSet) != ErrorString(Unsupported(record))
    ensures ErrorString(DeadlineNotSet) != ErrorString(NotFound(expected, found))
    ensures ErrorString(Unsupported(record)) != ErrorString(NotFound(expected, found))
  {
  }

  /** The not-found message names the expected value unambiguously and carries
      the joined list of what was found. */
  lemma NotFoundMessageRoundTrip(expected: string, found: seq<string>)
    ensures ParseNotFound(ErrorString(NotFound(expected, found))) == Some((expected, Join(found, ", ")))
  {
    var joined := Join(found, ", ");
    var tail := NotFoundMiddle + joined + "]";
    var msg := ErrorString(NotFound(expected, found));
    assert msg == NotFoundHead + (Quote(expected) + tail);
    assert msg[..|NotFoundHead|] == NotFoundHead;
    assert msg[|NotFoundHead|..] == Quote(expected) + tail;
    QuoteRoundTrip(expected, tail);
    assert tail[..|NotFoundMiddle|] == NotFoundMiddle;
    assert tail[|NotFoundMiddle|..|tail| - 1] == joined;
  }

  /** When no value found holds a ',', the message lists every value found, in order. */
  lemma NotFoundMessageListsFound(expected: string, found: seq<string>)
    requires |found| > 0
    requires forall i :: 0 <= i < |found| ==> ',' !in found[i]
    ensures ParseNotFound(ErrorString(NotFound(expected, found))).Some?
    ensures Split(ParseNotFound(ErrorString(NotFound(expected, found))).value.1, ", ") == found
  {
    NotFoundMessageRoundTrip(expected, found);
    SplitJoin(found, ", ");
  }

  /** As intended, the value is in an IP answer's list exactly when it is the
      text of one of the addresses. */
  lemma IntendedIPList(ips: seq<IP>, x: string)
    ensures x in NormalisedIntended(IPs(ips)) <==> exists i :: 0 <= i < |ips| && ips[i].text == x
  {
  }

  /** An A answer holding the expected address: as written the list searched is
      empty, so the check fails; as intended it holds the address. */
  lemma ShadowedAddressesExample()
    ensures var a := IPs([IP("93.184.216.34")]);
      && Normalised(a) == []
      && "93.184.216.34" !in Normalised(a)
      && NormalisedIntended(a) == ["93.184.216.34"]
  {
  }
}
