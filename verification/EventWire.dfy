// Events on the wire: the tuples that events.rs publishes, as decoded native
// values, and the parser that reads them back.

module EventWire {
  import opened EscrowTypes

  // ------------------------------------------------------------ decimal numerals

  function DigitChar(d: nat): char {
    if d == 0 then '0' else if d == 1 then '1' else if d == 2 then '2' else if d == 3 then '3' else if d == 4 then '4'
    else if d == 5 then '5' else if d == 6 then '6' else if d == 7 then '7' else if d == 8 then '8' else '9'
  }

  // The value of a decimal digit, or -1.
  function DigitValue(c: char): int {
    if c == '0' then 0 else if c == '1' then 1 else if c == '2' then 2 else if c == '3' then 3 else if c == '4' then 4
    else if c == '5' then 5 else if c == '6' then 6 else if c == '7' then 7 else if c == '8' then 8
    else if c == '9' then 9 else -1
  }

  function Digits(n: nat): string {
    (if n < 10 then [] else Digits(n / 10)) + [DigitChar(n % 10)]
  }

  // JavaScript's String(n) of an integer.
  function Decimal(n: int): string {
    if n < 0 then ['-'] + Digits(-n) else Digits(n)
  }

  predicate AllDigits(s: string) {
    s != [] && forall i :: 0 <= i < |s| ==> 0 <= DigitValue(s[i])
  }

  function Value(s: string): int {
    if s == [] then 0 else 10 * Value(s[..|s| - 1]) + DigitValue(s[|s| - 1])
  }

  // As asBigInt accepts them.
  function ParseInt(s: string): Option<int> {
    if s != [] && s[0] == '-' then (if AllDigits(s[1..]) then Some(-Value(s[1..])) else None)
    else if AllDigits(s) then Some(Value(s))
    else None
  }

  lemma DigitRoundTrip(d: nat)
    requires d < 10
    ensures DigitValue(DigitChar(d)) == d
  {
  }

  lemma {:induction false} DigitsValue(n: nat)
    ensures AllDigits(Digits(n)) && Value(Digits(n)) == n
  {
    DigitRoundTrip(n % 10);
    var s, last := Digits(n), DigitChar(n % 10);
    if n < 10 {
      assert s == [last] && s[..0] == [];
    } else {
      DigitsValue(n / 10);
      assert s == Digits(n / 10) + [last] && s[..|s| - 1] == Digits(n / 10);
    }
  }

  // A digit is not a minus sign.
  lemma ParseUnsigned(s: string)
    requires AllDigits(s)
    ensures ParseInt(s) == Some(Value(s))
  {
  }

  lemma ParseSigned(s: string)
    requires AllDigits(s)
    ensures ParseInt(['-'] + s) == Some(-Value(s))
  {
  }

  // Printing and parsing back is the identity, so numerals are injective.
  lemma DecimalRoundTrip(n: int)
    ensures ParseInt(Decimal(n)) == Some(n)
  {
    var m := if n < 0 then -n else n;
    DigitsValue(m);
    ParseUnsigned(Digits(m));
    ParseSigned(Digits(m));
  }

  lemma DecimalInjective(a: int, b: int)
    requires Decimal(a) == Decimal(b)
    ensures a == b
  {
    DecimalRoundTrip(a);
    DecimalRoundTrip(b);
  }

  lemma {:induction false} SameName(m: nat, n: nat)
    ensures Decimal(m) == Decimal(n) <==> m == n
  {
    if Decimal(m) == Decimal(n) { DecimalInjective(m, n); }
  }

  function Numerals(ids: set<nat>): set<string> {
    set id | id in ids :: Decimal(id)
  }

  // ------------------------------------------------------------ native values

  // What scValToNative yields: strings for symbols and addresses, bigints and
  // numbers for integers, and a fieldless enum in one of three shapes.
  datatype Val = Str(s: string) | Big(n: int) | Num(n: int) | List(items: seq<Val>) | Object(tag: string) | Other

  datatype Shape = Bare | Boxed | Tagged

  function EnumVal(tag: string, shape: Shape): Val {
    match shape
    case Bare => Str(tag)
    case Boxed => List([Str(tag)])
    case Tagged => Object(tag)
  }

  function AsString(v: Val): Option<string> {
    match v
    case Str(s) => Some(s)
    case Big(n) => Some(Decimal(n))
    case Num(n) => Some(Decimal(n))
    case _ => None
  }

  function AsBigInt(v: Val): Option<int> {
    match v
    case Big(n) => Some(n)
    case Num(n) => Some(n)
    case Str(s) => ParseInt(s)
    case _ => None
  }

  function AsNumber(v: Val): Option<int> {
    match v
    case Big(n) => Some(n)
    case Num(n) => Some(n)
    case _ => None
  }

  function DecodeTag(v: Val): Option<string> {
    match v
    case Str(s) => Some(s)
    case List(items) => if items != [] && items[0].Str? then Some(items[0].s) else None
    case Object(tag) => Some(tag)
    case _ => None
  }

  // ------------------------------------------------------------ writer

  datatype Raw = Raw(id: nat, ledger: nat, topics: seq<Val>, value: Val)

  function ResolutionTag(r: Resolution): string {
    match r
    case Pending => "Pending"
    case FullRefund => "FullRefund"
    case PartialSettlement => "PartialSettlement"
    case FullPayout => "FullPayout"
  }

  function EventName(e: Event): string {
    match e
    case CampaignCreated(_, _, _) => "CampaignCreated"
    case ContribReceived(_, _, _) => "ContribReceived"
    case ContribReconciled(_, _, _) => "ContribReconciled"
    case CampaignFunded(_, _) => "CampaignFunded"
    case TranchesConfigured(_, _) => "TranchesConfigured"
    case TrancheReleased(_, _, _) => "TrancheReleased"
    case HarvestReported(_, _, _) => "HarvestReported"
    case CampaignFailed(_, _) => "CampaignFailed"
    case ReturnClaimed(_, _, _) => "ReturnClaimed"
    case RefundClaimed(_, _, _) => "RefundClaimed"
    case DisputeOpened(_, _, _, _) => "DisputeOpened"
    case DisputeResolved(_, _, _, _, _, _) => "DisputeResolved"
    case CampaignSettled(_, _, _, _) => "CampaignSettled"
  }

  // The payload tuple; u32 fields decode to numbers, u64 and i128 to bigints.
  function Payload(e: Event, shape: Shape): seq<Val> {
    match e
    case CampaignCreated(farmer, ts, target) => [Str(farmer), Big(ts), Big(target)]
    case ContribReceived(investor, ts, amount) => [Str(investor), Big(ts), Big(amount)]
    case ContribReconciled(investor, ts, amount) => [Str(investor), Big(ts), Big(amount)]
    case CampaignFunded(ts, total) => [Big(ts), Big(total)]
    case TranchesConfigured(ts, count) => [Big(ts), Num(count)]
    case TrancheReleased(recipient, ts, amount) => [Str(recipient), Big(ts), Big(amount)]
    case HarvestReported(farmer, outcome, ts) => [Str(farmer), Str(outcome), Big(ts)]
    case CampaignFailed(ts, refundable) => [Big(ts), Big(refundable)]
    case ReturnClaimed(investor, ts, amount) => [Str(investor), Big(ts), Big(amount)]
    case RefundClaimed(investor, ts, amount) => [Str(investor), Big(ts), Big(amount)]
    case DisputeOpened(opener, reason, ts, ledger) => [Str(opener), Str(reason), Big(ts), Num(ledger)]
    case DisputeResolved(admin, resolution, payout, refund, ts, ledger) =>
      [Str(admin), EnumVal(ResolutionTag(resolution), shape), Big(payout), Big(refund), Big(ts), Num(ledger)]
    case CampaignSettled(farmer, ts, payout, investors) => [Str(farmer), Big(ts), Big(payout), Big(investors)]
  }

  function Publish(entry: LogEntry, shape: Shape): Raw {
    Raw(entry.id, entry.ledger, [Str(EventName(entry.event)), Big(entry.campaign)], List(Payload(entry.event, shape)))
  }

  // ------------------------------------------------------------ parser

  datatype Data =
    | EscrowCreatedData(farmer: string, timestamp: int, targetAmount: int)
    | InvestedData(investor: string, timestamp: int, amount: int)
    | ReconciledData(investor: string, timestamp: int, amount: int)
    | FundedData(timestamp: int, totalFunded: int)
    | TranchesConfiguredData(timestamp: int, trancheCount: int)
    | TrancheReleasedData(recipient: string, timestamp: int, amount: int)
    | HarvestReportedData(farmer: string, outcome: string, timestamp: int)
    | FailedData(timestamp: int, refundable: int)
    | ReturnClaimedData(investor: string, timestamp: int, amount: int)
    | RefundClaimedData(investor: string, timestamp: int, amount: int)
    | DisputeOpenedData(opener: string, reason: string, timestamp: int, ledgerSequence: int)
    | DisputeResolvedData(admin: string, resolution: string, payoutToFarmer: int, refundableToInvestors: int,
                          timestamp: int, ledgerSequence: int)
    | SettledData(farmer: string, timestamp: int, farmerPayout: int, investorReturns: int)

  datatype ParsedEvent = ParsedEvent(id: nat, campaign: string, data: Data)

  // Not one of the escrow's events; malformed, so that parsing throws; or parsed.
  datatype Parse = Ignored | Malformed | Parsed(event: ParsedEvent)

  // (string, number, bigint): the shape of most payloads.
  function Triple(arr: seq<Val>): Option<(string, int, int)> {
    if |arr| < 3 then None
    else
      var a, b, c := AsString(arr[0]), AsNumber(arr[1]), AsBigInt(arr[2]);
      if a.None? || b.None? || c.None? then None else Some((a.value, b.value, c.value))
  }

  function Pair(arr: seq<Val>): Option<(int, int)> {
    if |arr| < 2 then None
    else
      var a, b := AsNumber(arr[0]), AsBigInt(arr[1]);
      if a.None? || b.None? then None else Some((a.value, b.value))
  }

  function ParseData(name: string, arr: seq<Val>): Option<Data> {
    var p, t := Pair(arr), Triple(arr);
    if name == "CampaignCreated" then
      if t.None? then None else Some(EscrowCreatedData(t.value.0, t.value.1, t.value.2))
    else if name == "ContribReceived" then
      if t.None? then None else Some(InvestedData(t.value.0, t.value.1, t.value.2))
    else if name == "ContribReconciled" then
      if t.None? then None else Some(ReconciledData(t.value.0, t.value.1, t.value.2))
    else if name == "CampaignFunded" then
      if p.None? then None else Some(FundedData(p.value.0, p.value.1))
    else if name == "TranchesConfigured" then
      if |arr| < 2 || AsNumber(arr[0]).None? || AsNumber(arr[1]).None? then None
      else Some(TranchesConfiguredData(AsNumber(arr[0]).value, AsNumber(arr[1]).value))
    else if name == "TrancheReleased" then
      if t.None? then None else Some(TrancheReleasedData(t.value.0, t.value.1, t.value.2))
    else if name == "HarvestReported" then
      if |arr| < 3 || AsString(arr[0]).None? || AsString(arr[1]).None? || AsNumber(arr[2]).None? then None
      else Some(HarvestReportedData(AsString(arr[0]).value, AsString(arr[1]).value, AsNumber(arr[2]).value))
    else if name == "CampaignFailed" then
      if p.None? then None else Some(FailedData(p.value.0, p.value.1))
    else if name == "ReturnClaimed" then
      if t.None? then None else Some(ReturnClaimedData(t.value.0, t.value.1, t.value.2))
    else if name == "RefundClaimed" then
      if t.None? then None else Some(RefundClaimedData(t.value.0, t.value.1, t.value.2))
    else if name == "DisputeOpened" then ParseDisputeOpened(arr)
    else if name == "DisputeResolved" then ParseDisputeResolved(arr)
    else ParseSettled(arr)
  }

  function ParseDisputeOpened(arr: seq<Val>): Option<Data> {
    if |arr| < 4 then None
    else
      var opener, reason, ts, ledger := AsString(arr[0]), AsString(arr[1]), AsNumber(arr[2]), AsNumber(arr[3]);
      if opener.None? || reason.None? || ts.None? || ledger.None? then None
      else Some(DisputeOpenedData(opener.value, reason.value, ts.value, ledger.value))
  }

  function ParseDisputeResolved(arr: seq<Val>): Option<Data> {
    if |arr| < 6 then None
    else
      var admin, tag, payout := AsString(arr[0]), DecodeTag(arr[1]), AsBigInt(arr[2]);
      var refund, ts, ledger := AsBigInt(arr[3]), AsNumber(arr[4]), AsNumber(arr[5]);
      if admin.None? || tag.None? || payout.None? || refund.None? || ts.None? || ledger.None? then None
      else Some(DisputeResolvedData(admin.value, tag.value, payout.value, refund.value, ts.value, ledger.value))
  }

  function ParseSettled(arr: seq<Val>): Option<Data> {
    if |arr| < 4 then None
    else
      var farmer, ts, payout, investors := AsString(arr[0]), AsNumber(arr[1]), AsBigInt(arr[2]), AsBigInt(arr[3]);
      if farmer.None? || ts.None? || payout.None? || investors.None? then None
      else Some(SettledData(farmer.value, ts.value, payout.value, investors.value))
  }

  const ESCROW_EVENTS: set<string> := {
    "CampaignCreated", "ContribReceived", "ContribReconciled", "CampaignFunded", "TranchesConfigured",
    "TrancheReleased", "HarvestReported", "CampaignFailed", "ReturnClaimed", "RefundClaimed", "DisputeOpened",
    "DisputeResolved", "CampaignSettled" }

  function ParseEvent(raw: Raw): Parse {
    var name := if raw.topics == [] then Some("") else AsString(raw.topics[0]);
    if name.None? then Malformed
    else if name.value !in ESCROW_EVENTS then Ignored
    else
      var arr := if raw.value.List? then raw.value.items else [];
      var campaign := if |raw.topics| < 2 then None else AsString(raw.topics[1]);
      var data := ParseData(name.value, arr);
      if campaign.None? || data.None? then Malformed
      else Parsed(ParsedEvent(raw.id, campaign.value, data.value))
  }

  // What each event means to the reader.
  function DataOf(e: Event): Data {
    match e
    case CampaignCreated(farmer, ts, target) => EscrowCreatedData(farmer, ts, target)
    case ContribReceived(investor, ts, amount) => InvestedData(investor, ts, amount)
    case ContribReconciled(investor, ts, amount) => ReconciledData(investor, ts, amount)
    case CampaignFunded(ts, total) => FundedData(ts, total)
    case TranchesConfigured(ts, count) => TranchesConfiguredData(ts, count)
    case TrancheReleased(recipient, ts, amount) => TrancheReleasedData(recipient, ts, amount)
    case HarvestReported(farmer, outcome, ts) => HarvestReportedData(farmer, outcome, ts)
    case CampaignFailed(ts, refundable) => FailedData(ts, refundable)
    case ReturnClaimed(investor, ts, amount) => ReturnClaimedData(investor, ts, amount)
    case RefundClaimed(investor, ts, amount) => RefundClaimedData(investor, ts, amount)
    case DisputeOpened(opener, reason, ts, ledger) => DisputeOpenedData(opener, reason, ts, ledger)
    case DisputeResolved(admin, resolution, payout, refund, ts, ledger) =>
      DisputeResolvedData(admin, ResolutionTag(resolution), payout, refund, ts, ledger)
    case CampaignSettled(farmer, ts, payout, investors) => SettledData(farmer, ts, payout, investors)
  }

  // The events whose payload is an address, a time and an amount.
  predicate IsTriple(e: Event) {
    e.CampaignCreated? || e.ContribReceived? || e.ContribReconciled? || e.TrancheReleased? || e.ReturnClaimed?
    || e.RefundClaimed?
  }

  lemma {:induction false} TripleRoundTrip(e: Event, shape: Shape)
    requires IsTriple(e)
    ensures ParseData(EventName(e), Payload(e, shape)) == Some(DataOf(e))
  {
  }

  lemma PairRoundTrip(e: Event, shape: Shape)
    requires e.CampaignFunded? || e.TranchesConfigured? || e.CampaignFailed? || e.HarvestReported?
    ensures ParseData(EventName(e), Payload(e, shape)) == Some(DataOf(e))
  {
  }

  lemma {:induction false} LongRoundTrip(e: Event, shape: Shape)
    requires e.DisputeOpened? || e.CampaignSettled?
    ensures ParseData(EventName(e), Payload(e, shape)) == Some(DataOf(e))
  {
  }

  lemma {:induction false} ResolutionRoundTrip(e: Event, shape: Shape)
    requires e.DisputeResolved?
    ensures ParseData(EventName(e), Payload(e, shape)) == Some(DataOf(e))
  {
    assert DecodeTag(EnumVal(ResolutionTag(e.resolution), shape)) == Some(ResolutionTag(e.resolution));
  }

  // Every event the contract publishes parses to its own data under its own
  // campaign, whichever shape the enum takes.
  lemma WireRoundTrip(entry: LogEntry, shape: Shape)
    ensures ParseEvent(Publish(entry, shape))
        == Parsed(ParsedEvent(entry.id, Decimal(entry.campaign), DataOf(entry.event)))
  {
    if IsTriple(entry.event) {
      TripleRoundTrip(entry.event, shape);
    } else if entry.event.DisputeResolved? {
      ResolutionRoundTrip(entry.event, shape);
    } else if entry.event.DisputeOpened? || entry.event.CampaignSettled? {
      LongRoundTrip(entry.event, shape);
    } else {
      PairRoundTrip(entry.event, shape);
    }
    assert EventName(entry.event) in ESCROW_EVENTS;
  }

  // ------------------------------------------------------------ which events parse

  // What a field of a payload has to be.
  datatype Kind = Text | Number | Integer | Tag

  predicate IsDigit(c: char) { '0' <= c <= '9' }

  predicate AreDigits(s: string) {
    s != [] && forall i :: 0 <= i < |s| ==> IsDigit(s[i])
  }

  // An optional minus sign and digits.
  predicate IsNumeral(s: string) {
    AreDigits(if s != [] && s[0] == '-' then s[1..] else s)
  }

  // Texts may be numbers, integers may be numerals; an enum has its three shapes.
  predicate Fits(kind: Kind, v: Val) {
    match kind
    case Text => v.Str? || v.Big? || v.Num?
    case Number => v.Big? || v.Num?
    case Integer => v.Big? || v.Num? || (v.Str? && IsNumeral(v.s))
    case Tag => v.Str? || v.Object? || (v.List? && v.items != [] && v.items[0].Str?)
  }

  // The payloads of the escrow's events.
  function Fields(name: string): seq<Kind> {
    match name
    case "CampaignCreated" => [Text, Number, Integer]
    case "ContribReceived" => [Text, Number, Integer]
    case "ContribReconciled" => [Text, Number, Integer]
    case "CampaignFunded" => [Number, Integer]
    case "TranchesConfigured" => [Number, Number]
    case "TrancheReleased" => [Text, Number, Integer]
    case "HarvestReported" => [Text, Text, Number]
    case "CampaignFailed" => [Number, Integer]
    case "ReturnClaimed" => [Text, Number, Integer]
    case "RefundClaimed" => [Text, Number, Integer]
    case "DisputeOpened" => [Text, Text, Number, Number]
    case "DisputeResolved" => [Text, Tag, Integer, Integer, Number, Number]
    case "CampaignSettled" => [Text, Number, Integer, Integer]
    case _ => []
  }

  // The payload has these fields, and possibly more.
  predicate HasFields(arr: seq<Val>, kinds: seq<Kind>) {
    |kinds| <= |arr| && forall i :: 0 <= i < |kinds| ==> Fits(kinds[i], arr[i])
  }

  lemma {:induction false} DigitIff(c: char)
    ensures 0 <= DigitValue(c) <==> IsDigit(c)
  {
  }

  lemma {:induction false} AllDigitsIff(s: string)
    ensures AllDigits(s) <==> AreDigits(s)
  {
    if AllDigits(s) {
      forall i | 0 <= i < |s| ensures IsDigit(s[i]) { DigitIff(s[i]); }
    } else if s != [] {
      var i :| 0 <= i < |s| && DigitValue(s[i]) < 0;
      DigitIff(s[i]);
    }
  }

  lemma {:induction false} NumeralIff(s: string)
    ensures ParseInt(s).Some? <==> IsNumeral(s)
  {
    if s != [] && s[0] == '-' {
      AllDigitsIff(s[1..]);
    } else {
      AllDigitsIff(s);
    }
  }

  // What reading a field of this kind yields, if anything.
  predicate Reads(kind: Kind, v: Val) {
    match kind
    case Text => AsString(v).Some?
    case Number => AsNumber(v).Some?
    case Integer => AsBigInt(v).Some?
    case Tag => DecodeTag(v).Some?
  }

  lemma {:induction false} FitsIff(kind: Kind, v: Val)
    ensures Reads(kind, v) <==> Fits(kind, v)
  {
    if v.Str? {
      NumeralIff(v.s);
    }
  }

  predicate ReadsFields(arr: seq<Val>, kinds: seq<Kind>) {
    |kinds| <= |arr| && forall i :: 0 <= i < |kinds| ==> Reads(kinds[i], arr[i])
  }

  lemma {:induction false} FieldsIff(arr: seq<Val>, kinds: seq<Kind>)
    ensures ReadsFields(arr, kinds) <==> HasFields(arr, kinds)
  {
    forall i | 0 <= i < |kinds| && i < |arr| ensures Reads(kinds[i], arr[i]) <==> Fits(kinds[i], arr[i]) {
      FitsIff(kinds[i], arr[i]);
    }
  }

  lemma {:induction false} TriplesParseIff(name: string, arr: seq<Val>)
    requires name in {"CampaignCreated", "ContribReceived", "ContribReconciled", "TrancheReleased", "ReturnClaimed",
                     "RefundClaimed"}
    ensures ParseData(name, arr).Some? <==> ReadsFields(arr, Fields(name))
  {
  }

  lemma {:induction false} ShortOnesParseIff(name: string, arr: seq<Val>)
    requires name in {"CampaignFunded", "TranchesConfigured", "HarvestReported", "CampaignFailed"}
    ensures ParseData(name, arr).Some? <==> ReadsFields(arr, Fields(name))
  {
  }

  lemma {:induction false} LongOnesParseIff(name: string, arr: seq<Val>)
    requires name in {"DisputeOpened", "DisputeResolved", "CampaignSettled"}
    ensures ParseData(name, arr).Some? <==> ReadsFields(arr, Fields(name))
  {
  }

  lemma {:induction false} DataParsesIff(name: string, arr: seq<Val>)
    requires name in ESCROW_EVENTS
    ensures ParseData(name, arr).Some? <==> ReadsFields(arr, Fields(name))
  {
    if name in {"DisputeOpened", "DisputeResolved", "CampaignSettled"} {
      LongOnesParseIff(name, arr);
    } else if name in {"CampaignFunded", "TranchesConfigured", "HarvestReported", "CampaignFailed"} {
      ShortOnesParseIff(name, arr);
    } else {
      TriplesParseIff(name, arr);
    }
  }

  // An event is ignored if its first topic names none of the escrow's events; otherwise
  // it parses exactly if its second topic can be an id and its payload has the fields of
  // its kind, and processing it throws if not.
  lemma {:induction false} ParsesIff(raw: Raw)
    ensures var name := if raw.topics == [] then Some("") else AsString(raw.topics[0]);
            && (ParseEvent(raw).Ignored? <==> name.Some? && name.value !in ESCROW_EVENTS)
            && (ParseEvent(raw).Parsed? <==>
                  && name.Some? && name.value in ESCROW_EVENTS && 2 <= |raw.topics| && Fits(Text, raw.topics[1])
                  && HasFields(if raw.value.List? then raw.value.items else [], Fields(name.value)))
  {
    var name := if raw.topics == [] then Some("") else AsString(raw.topics[0]);
    if name.Some? && name.value in ESCROW_EVENTS {
      var arr := if raw.value.List? then raw.value.items else [];
      DataParsesIff(name.value, arr);
      FieldsIff(arr, Fields(name.value));
      if 2 <= |raw.topics| {
        FitsIff(Text, raw.topics[1]);
      }
    }
  }
}
