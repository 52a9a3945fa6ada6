// The inverse of the contract printer: what the canonical text of a gateway
// contract says, and that it says exactly the contract's behaviour.
module ContractParser {
  import opened Common
  import opened Messages
  import opened Sorting
  import opened CanonicalText
  import opened ConfigModel
  import opened ContractText

  // ------------------------------------------------- values of the fields

  function U64(n: nat): Option<uint64> {
    if n <= MAX_UINT64 then Some(n) else None
  }

  function OptionalU64(n: Option<nat>): Option<Option<uint64>> {
    if n.None? then Some(None)
    else
      var v :- U64(n.value);
      Some(Some(v))
  }

  function Wide(n: Option<uint64>): Option<nat> {
    if n.None? then None else Some(n.value)
  }

  function Bits(text: string): Option<uint64> {
    var bits :- ParseHex(text);
    U64(bits)
  }

  lemma BitsBack(bits: uint64)
    ensures Bits(BitsText(bits)) == Some(CanonicalBits(bits))
  {
    BitsRoundTrip(bits);
  }

  // A record without optional fields.
  function AsFields(ts: seq<Token>): (r: seq<Field>)
    ensures |r| == |ts| && forall i :: 0 <= i < |ts| ==> r[i] == Line(ts[i])
  {
    seq(|ts|, i requires 0 <= i < |ts| => Line(ts[i]))
  }

  lemma {:induction false} LinesOfFields(ts: seq<Token>)
    ensures ListLines(FieldLines, AsFields(ts)) == ts
  {
    if ts != [] {
      LinesOfFields(ts[1..]);
      assert AsFields(ts)[1..] == AsFields(ts[1..]);
      assert [ts[0]] + ts[1..] == ts;
    }
  }

  lemma SameShapeFields(a: seq<Token>, b: seq<Token>)
    requires SameShape(a, b)
    ensures SameSchema(AsFields(a), AsFields(b))
  {
  }

  // Reads lines of the same fields as a template.
  function ReadLines(template: seq<Token>, text: string): (r: Option<(seq<Token>, string)>)
    ensures r.Some? ==> SameShape(template, r.value.0)
  {
    var (fields, rest) :- ReadFields(AsFields(template), text);
    Some((seq(|fields|, i requires 0 <= i < |fields| && fields[i].Line? => fields[i].line), rest))
  }

  lemma ReadLinesBack(template: seq<Token>, lines: seq<Token>, after: string)
    requires SameShape(template, lines)
    ensures ReadLines(template, PrintAll(lines) + after) == Some((lines, after))
  {
    LinesOfFields(lines);
    SameShapeFields(template, lines);
    ReadFieldsBack(AsFields(template), AsFields(lines), after);
    var fields := AsFields(lines);
    assert seq(|fields|, i requires 0 <= i < |fields| && fields[i].Line? => fields[i].line) == lines;
  }

  // ------------------------------------------------------------ sections

  const BLANK_SETTINGS := GatewaySettings("", 0, 0, 0, 0, 0, 0, 0, 0, 0, 0)

  function SettingsOf(ts: seq<Token>): Option<GatewaySettings>
    requires SameShape(SettingsLines(BLANK_SETTINGS), ts)
  {
    var rate :- Bits(ts[1].text);
    var commandTimeout :- U64(ts[2].number);
    var switchHold :- U64(ts[3].number);
    var samples :- U64(ts[4].number);
    var graphPoll :- U64(ts[5].number);
    var graphWindow :- U64(ts[6].number);
    var clockStall :- U64(ts[7].number);
    var stateTimeout :- U64(ts[8].number);
    var lateThreshold :- U64(ts[9].number);
    var lateTicks :- U64(ts[10].number);
    Some(GatewaySettings(ts[0].text, rate, commandTimeout, switchHold, samples, graphPoll, graphWindow, clockStall,
                         stateTimeout, lateThreshold, lateTicks))
  }

  function ParseSettings(text: string): Option<(GatewaySettings, string)> {
    var (ts, rest) :- ReadLines(SettingsLines(BLANK_SETTINGS), text);
    var settings :- SettingsOf(ts);
    Some((settings, rest))
  }

  function NormalSettings(g: GatewaySettings): GatewaySettings {
    g.(outputRateHz := CanonicalBits(g.outputRateHz))
  }

  lemma SettingsShape(g: GatewaySettings)
    ensures SameShape(SettingsLines(BLANK_SETTINGS), SettingsLines(g))
  {
  }

  lemma SettingsValues(g: GatewaySettings)
    requires SameShape(SettingsLines(BLANK_SETTINGS), SettingsLines(g))
    ensures SettingsOf(SettingsLines(g)) == Some(NormalSettings(g))
  {
    BitsBack(g.outputRateHz);
  }

  lemma SettingsBack(g: GatewaySettings, after: string)
    ensures ParseSettings(PrintAll(SettingsLines(g)) + after) == Some((NormalSettings(g), after))
  {
    SettingsShape(g);
    SettingsValues(g);
    ReadLinesBack(SettingsLines(BLANK_SETTINGS), SettingsLines(g), after);
  }

  const BLANK_LIMITS := CommandLimits(0, 0, false, false, 0)

  function LimitsOf(ts: seq<Token>): Option<CommandLimits>
    requires SameShape(LimitsLines(BLANK_LIMITS), ts)
  {
    var linear :- Bits(ts[0].text);
    var angular :- Bits(ts[1].text);
    var skew :- U64(ts[4].number);
    Some(CommandLimits(linear, angular, ts[2].flag, ts[3].flag, skew))
  }

  function ParseLimits(text: string): Option<(CommandLimits, string)> {
    var (ts, rest) :- ReadLines(LimitsLines(BLANK_LIMITS), text);
    var limits :- LimitsOf(ts);
    Some((limits, rest))
  }

  function NormalLimits(l: CommandLimits): CommandLimits {
    l.(maxAbsLinear := CanonicalBits(l.maxAbsLinear), maxAbsAngular := CanonicalBits(l.maxAbsAngular))
  }

  lemma LimitsShape(l: CommandLimits)
    ensures SameShape(LimitsLines(BLANK_LIMITS), LimitsLines(l))
  {
  }

  lemma LimitsValues(l: CommandLimits)
    requires SameShape(LimitsLines(BLANK_LIMITS), LimitsLines(l))
    ensures LimitsOf(LimitsLines(l)) == Some(NormalLimits(l))
  {
    BitsBack(l.maxAbsLinear);
    BitsBack(l.maxAbsAngular);
  }

  lemma LimitsBack(l: CommandLimits, after: string)
    ensures ParseLimits(PrintAll(LimitsLines(l)) + after) == Some((NormalLimits(l), after))
  {
    LimitsShape(l);
    LimitsValues(l);
    ReadLinesBack(LimitsLines(BLANK_LIMITS), LimitsLines(l), after);
  }

  function ParseTopics(text: string): Option<((InputContract, OutputContract), string)> {
    var (ts, rest) :- ReadLines(TopicsLines(InputContract("", "", ""), OutputContract("", "", "")), text);
    Some(((InputContract(ts[0].text, ts[1].text, ts[2].text), OutputContract(ts[3].text, ts[4].text, ts[5].text)), rest))
  }

  lemma TopicsBack(i: InputContract, o: OutputContract, after: string)
    ensures ParseTopics(PrintAll(TopicsLines(i, o)) + after) == Some(((i, o), after))
  {
    ReadLinesBack(TopicsLines(InputContract("", "", ""), OutputContract("", "", "")), TopicsLines(i, o), after);
  }

  function ParseHeader(text: string): Option<(uint64, string)> {
    var (ts, rest) :- ReadLines(HeaderLines(0), text);
    var schemaVersion :- U64(ts[1].number);
    if ts[0] == HeaderLines(0)[0] then Some((schemaVersion, rest)) else None
  }

  lemma HeaderBack(schemaVersion: uint64, after: string)
    ensures ParseHeader(PrintAll(HeaderLines(schemaVersion)) + after) == Some((schemaVersion, after))
  {
    ReadLinesBack(HeaderLines(0), HeaderLines(schemaVersion), after);
  }

  // ------------------------------------------------------------- records

  function ReliabilityOf(s: string): Option<Reliability> {
    if s == ReliabilityName(Reliable) then Some(Reliable)
    else if s == ReliabilityName(BestEffort) then Some(BestEffort) else None
  }

  function DurabilityOf(s: string): Option<Durability> {
    if s == DurabilityName(Volatile) then Some(Volatile)
    else if s == DurabilityName(TransientLocal) then Some(TransientLocal) else None
  }

  function HistoryOf(s: string): Option<History> {
    if s == HistoryName(KeepLast) then Some(KeepLast) else if s == HistoryName(KeepAll) then Some(KeepAll) else None
  }

  function LivelinessOf(s: Option<string>): Option<Option<Liveliness>> {
    if s.None? then Some(None)
    else if s.value == LivelinessName(Automatic) then Some(Some(Automatic))
    else if s.value == LivelinessName(ManualByTopic) then Some(Some(ManualByTopic)) else None
  }

  function DirectionOf(s: string): Option<RemoteDirection> {
    if s == DirectionName(RemotePublisher) then Some(RemotePublisher)
    else if s == DirectionName(RemoteSubscription) then Some(RemoteSubscription) else None
  }

  lemma NamesBack(r: Reliability, d: Durability, h: History, l: Option<Liveliness>, side: RemoteDirection)
    ensures ReliabilityOf(ReliabilityName(r)) == Some(r) && DurabilityOf(DurabilityName(d)) == Some(d)
    ensures HistoryOf(HistoryName(h)) == Some(h) && LivelinessOf(LivelinessText(l)) == Some(l)
    ensures DirectionOf(DirectionName(side)) == Some(side)
  {
    assert ReliabilityName(Reliable)[0] == 'r' && ReliabilityName(BestEffort)[0] == 'b';
    assert DurabilityName(Volatile)[0] == 'v' && DurabilityName(TransientLocal)[0] == 't';
    assert HistoryName(KeepLast)[5] == 'l' && HistoryName(KeepAll)[5] == 'a';
    assert LivelinessName(Automatic)[0] == 'a' && LivelinessName(ManualByTopic)[0] == 'm';
    assert DirectionName(RemotePublisher)[0] == 'p' && DirectionName(RemoteSubscription)[0] == 's';
  }

  function QosFields(e: (string, QosProfile)): seq<Field> {
    var q := e.1;
    [Line(StrTok("qos_profiles.name", e.0)),
     Line(PolicyLines(q)[0]), Line(PolicyLines(q)[1]), Line(PolicyLines(q)[2]),
     MaybeUint("qos.depth.present", "qos.depth.value", Wide(UsedDepth(q))),
     MaybeUint("qos.deadline_ms.present", "qos.deadline_ms.value", Wide(q.deadlineMs)),
     MaybeUint("qos.lifespan_ms.present", "qos.lifespan_ms.value", Wide(q.lifespanMs)),
     MaybeStr("qos.liveliness.present", "qos.liveliness.value", LivelinessText(q.liveliness)),
     MaybeUint("qos.liveliness_lease_duration_ms.present", "qos.liveliness_lease_duration_ms.value", Wide(q.leaseMs))]
  }

  const BLANK_QOS := ("", QosProfile(Reliable, Volatile, KeepLast, 0, None, None, None, None))

  function NormalQos(e: (string, QosProfile)): (string, QosProfile) {
    (e.0, if e.1.history.KeepLast? then e.1 else e.1.(depth := 0))
  }

  function QosOf(fs: seq<Field>): Option<(string, QosProfile)> {
    if !SameSchema(QosFields(BLANK_QOS), fs) then None
    else
      var reliability :- ReliabilityOf(fs[1].line.text);
      var durability :- DurabilityOf(fs[2].line.text);
      var history :- HistoryOf(fs[3].line.text);
      var depth :- OptionalU64(fs[4].number);
      var deadline :- OptionalU64(fs[5].number);
      var lifespan :- OptionalU64(fs[6].number);
      var liveliness :- LivelinessOf(fs[7].text);
      var lease :- OptionalU64(fs[8].number);
      Some((fs[0].line.text,
            QosProfile(reliability, durability, history, if depth.Some? then depth.value else 0,
                       deadline, lifespan, liveliness, lease)))
  }

  lemma QosSchema(e: (string, QosProfile))
    ensures SameSchema(QosFields(BLANK_QOS), QosFields(e))
  {
  }

  lemma QosValues(e: (string, QosProfile))
    requires SameSchema(QosFields(BLANK_QOS), QosFields(e))
    ensures QosOf(QosFields(e)) == Some(NormalQos(e))
  {
    var fs := QosFields(e);
    assert fs[1].line.text == ReliabilityName(e.1.reliability) && fs[2].line.text == DurabilityName(e.1.durability);
    assert fs[3].line.text == HistoryName(e.1.history) && fs[7].text == LivelinessText(e.1.liveliness);
    NamesBack(e.1.reliability, e.1.durability, e.1.history, e.1.liveliness, RemotePublisher);
  }

  lemma {:induction false} ListSplit(fs: seq<Field>, n: nat)
    requires n <= |fs|
    ensures ListLines(FieldLines, fs) == ListLines(FieldLines, fs[..n]) + ListLines(FieldLines, fs[n..])
  {
    if n > 0 {
      ListSplit(fs[1..], n - 1);
      assert fs[..n][1..] == fs[1..][..n - 1] && fs[1..][n - 1..] == fs[n..];
    } else {
      assert fs[0..] == fs;
    }
  }

  lemma OneField(f: Field)
    ensures ListLines(FieldLines, [f]) == FieldLines(f)
  {
    assert [f][1..] == [];
    assert ListLines(FieldLines, [f]) == FieldLines(f) + ListLines(FieldLines, []);
  }

  // Plain lines, one optional field, and plain lines again.
  lemma AroundOptional(before: seq<Token>, optional: Field, after: seq<Token>)
    ensures ListLines(FieldLines, AsFields(before) + [optional] + AsFields(after)) ==
            before + FieldLines(optional) + after
  {
    var fs := AsFields(before) + [optional] + AsFields(after);
    var n := |before|;
    ListSplit(fs, n);
    assert fs[..n] == AsFields(before);
    ListSplit(fs[n..], 1);
    assert fs[n..][..1] == [optional] && fs[n..][1..] == AsFields(after);
    OneField(optional);
    LinesOfFields(before);
    LinesOfFields(after);
  }

  lemma AfterPlain(before: seq<Token>, fs: seq<Field>)
    ensures ListLines(FieldLines, AsFields(before) + fs) == before + ListLines(FieldLines, fs)
  {
    var all := AsFields(before) + fs;
    ListSplit(all, |before|);
    assert all[..|before|] == AsFields(before) && all[|before|..] == fs;
    LinesOfFields(before);
  }

  // Plain lines and five optional fields.
  lemma BeforeOptionals(before: seq<Token>, optionals: seq<Field>)
    requires |optionals| == 5
    ensures ListLines(FieldLines, AsFields(before) + optionals) ==
            before + FieldLines(optionals[0]) + FieldLines(optionals[1]) + FieldLines(optionals[2])
            + FieldLines(optionals[3]) + FieldLines(optionals[4])
  {
    AfterPlain(before, optionals);
    FiveFields(optionals);
    Prepend5(before, FieldLines(optionals[0]), FieldLines(optionals[1]), FieldLines(optionals[2]),
             FieldLines(optionals[3]), FieldLines(optionals[4]));
  }

  lemma Prepend5<T>(p: seq<T>, a: seq<T>, b: seq<T>, c: seq<T>, d: seq<T>, e: seq<T>)
    ensures p + (a + b + c + d + e) == p + a + b + c + d + e
  {
  }

  lemma FiveFields(fs: seq<Field>)
    requires |fs| == 5
    ensures ListLines(FieldLines, fs) ==
            FieldLines(fs[0]) + FieldLines(fs[1]) + FieldLines(fs[2]) + FieldLines(fs[3]) + FieldLines(fs[4])
  {
    assert fs[..1] == [fs[0]];
    OneField(fs[0]);
    LastField(fs, 1);
    LastField(fs, 2);
    LastField(fs, 3);
    LastField(fs, 4);
    assert fs[..5] == fs;
  }

  lemma LastField(fs: seq<Field>, n: nat)
    requires n < |fs|
    ensures ListLines(FieldLines, fs[..n + 1]) == ListLines(FieldLines, fs[..n]) + FieldLines(fs[n])
  {
    ListSplit(fs[..n + 1], n);
    assert fs[..n + 1][..n] == fs[..n] && fs[..n + 1][n..] == [fs[n]];
    OneField(fs[n]);
  }

  lemma QosLinesAreFields(e: (string, QosProfile))
    ensures QosEntryLines(e) == ListLines(FieldLines, QosFields(e))
  {
    var name := [StrTok("qos_profiles.name", e.0)];
    var plain := name + PolicyLines(e.1);
    var optionals := QosFields(e)[4..];
    assert QosFields(e) == AsFields(plain) + optionals;
    BeforeOptionals(plain, optionals);
    PrependName(name, PolicyLines(e.1), FieldLines(optionals[0]), FieldLines(optionals[1]), FieldLines(optionals[2]),
                FieldLines(optionals[3]), FieldLines(optionals[4]));
  }

  lemma PrependName<T>(n: seq<T>, p: seq<T>, a: seq<T>, b: seq<T>, c: seq<T>, d: seq<T>, e: seq<T>)
    ensures n + (p + a + b + c + d + e) == n + p + a + b + c + d + e
  {
  }

  lemma QosReadable()
    ensures Readable(QosFields(BLANK_QOS), QosEntryLines, QosFields, QosOf, NormalQos)
  {
    forall e
      ensures SameSchema(QosFields(BLANK_QOS), QosFields(e)) && QosEntryLines(e) == ListLines(FieldLines, QosFields(e))
      ensures QosOf(QosFields(e)) == Some(NormalQos(e))
    {
      QosSchema(e);
      QosValues(e);
      QosLinesAreFields(e);
    }
  }

  function StateTopicFields(e: (string, StateTopic)): seq<Field> {
    AsFields(StateTopicNameLines(e))
    + [MaybeStr("state_topics.qos_profile.present", "state_topics.qos_profile.value", e.1.qosProfile)]
    + AsFields([])
  }

  const BLANK_STATE_TOPIC := ("", StateTopic("", "", None))

  function StateTopicOf(fs: seq<Field>): Option<(string, StateTopic)> {
    if !SameSchema(StateTopicFields(BLANK_STATE_TOPIC), fs) then None
    else Some((fs[0].line.text, StateTopic(fs[1].line.text, fs[2].line.text, fs[3].text)))
  }

  function SameStateTopic(e: (string, StateTopic)): (string, StateTopic) {
    e
  }

  lemma StateTopicBack(e: (string, StateTopic))
    ensures SameSchema(StateTopicFields(BLANK_STATE_TOPIC), StateTopicFields(e))
    ensures StateTopicOf(StateTopicFields(e)) == Some(SameStateTopic(e))
  {
    assert SameShape(StateTopicNameLines(BLANK_STATE_TOPIC), StateTopicNameLines(e));
    SameShapeFields(StateTopicNameLines(BLANK_STATE_TOPIC), StateTopicNameLines(e));
  }

  lemma StateTopicReadable()
    ensures Readable(StateTopicFields(BLANK_STATE_TOPIC), StateTopicLines, StateTopicFields, StateTopicOf, SameStateTopic)
  {
    forall e
      ensures SameSchema(StateTopicFields(BLANK_STATE_TOPIC), StateTopicFields(e))
      ensures StateTopicLines(e) == ListLines(FieldLines, StateTopicFields(e))
      ensures StateTopicOf(StateTopicFields(e)) == Some(SameStateTopic(e))
    {
      StateTopicBack(e);
      AroundOptional(
        StateTopicNameLines(e),
        MaybeStr("state_topics.qos_profile.present", "state_topics.qos_profile.value", e.1.qosProfile), []);
    }
  }

  function EndpointFields(e: CriticalEndpoint): seq<Field> {
    AsFields(EndpointRoleLines(e))
    + [MaybeUint("critical_endpoint.max_count.present", "critical_endpoint.max_count.value", Wide(e.maxCount))]
    + AsFields(EndpointRuleLines(e))
  }

  const BLANK_ENDPOINT := CriticalEndpoint("", "", "", RemotePublisher, "", 0, None, false, false, false)

  function EndpointOf(fs: seq<Field>): Option<CriticalEndpoint> {
    if !SameSchema(EndpointFields(BLANK_ENDPOINT), fs) then None
    else
      var direction :- DirectionOf(fs[3].line.text);
      var minCount :- U64(fs[5].line.number);
      var maxCount :- OptionalU64(fs[6].number);
      if fs[10] != EndpointFields(BLANK_ENDPOINT)[10] || fs[11] != EndpointFields(BLANK_ENDPOINT)[11] then None
      else
        Some(CriticalEndpoint(fs[0].line.text, fs[1].line.text, fs[2].line.text, direction, fs[4].line.text, minCount,
                              maxCount, fs[7].line.flag, fs[8].line.flag, fs[9].line.flag))
  }

  function SameEndpoint(e: CriticalEndpoint): CriticalEndpoint {
    e
  }

  lemma EndpointSchema(e: CriticalEndpoint)
    ensures SameSchema(EndpointFields(BLANK_ENDPOINT), EndpointFields(e))
  {
    assert SameShape(EndpointRoleLines(BLANK_ENDPOINT), EndpointRoleLines(e));
    assert SameShape(EndpointRuleLines(BLANK_ENDPOINT), EndpointRuleLines(e));
    SameShapeFields(EndpointRoleLines(BLANK_ENDPOINT), EndpointRoleLines(e));
    SameShapeFields(EndpointRuleLines(BLANK_ENDPOINT), EndpointRuleLines(e));
  }

  // The fields one by one, so that nothing else of them has to be looked at.
  lemma EndpointFrom(fs: seq<Field>, e: CriticalEndpoint)
    requires SameSchema(EndpointFields(BLANK_ENDPOINT), fs)
    requires fs[0].line.text == e.id && fs[1].line.text == e.topic && fs[2].line.text == e.messageType
    requires fs[3].line.text == DirectionName(e.direction) && fs[4].line.text == e.remoteNodeFqn
    requires fs[5].line.number == e.minCount && fs[6].number == Wide(e.maxCount)
    requires fs[7].line.flag == e.allowAdditional && fs[8].line.flag == e.requiredForActivation
    requires fs[9].line.flag == e.exactQosRequired
    requires fs[10] == EndpointFields(BLANK_ENDPOINT)[10] && fs[11] == EndpointFields(BLANK_ENDPOINT)[11]
    ensures EndpointOf(fs) == Some(e)
  {
    NamesBack(Reliable, Volatile, KeepLast, None, e.direction);
  }

  lemma EndpointValues(e: CriticalEndpoint)
    requires SameSchema(EndpointFields(BLANK_ENDPOINT), EndpointFields(e))
    ensures EndpointOf(EndpointFields(e)) == Some(e)
  {
    EndpointFrom(EndpointFields(e), e);
  }

  lemma EndpointReadable()
    ensures Readable(EndpointFields(BLANK_ENDPOINT), EndpointLines, EndpointFields, EndpointOf, SameEndpoint)
  {
    forall e
      ensures SameSchema(EndpointFields(BLANK_ENDPOINT), EndpointFields(e))
      ensures EndpointLines(e) == ListLines(FieldLines, EndpointFields(e))
      ensures EndpointOf(EndpointFields(e)) == Some(SameEndpoint(e))
    {
      EndpointSchema(e);
      EndpointValues(e);
      AroundOptional(
        EndpointRoleLines(e),
        MaybeUint("critical_endpoint.max_count.present", "critical_endpoint.max_count.value", Wide(e.maxCount)),
        EndpointRuleLines(e));
    }
  }

  // -------------------------------------------------------- the contract

  function ReadCounted<T>(name: string, template: seq<Field>, recordOf: seq<Field> -> Option<T>, text: string)
    : Option<(seq<T>, string)>
  {
    var (n, rest) :- ReadUint(name, text);
    ReadRecords(n, template, recordOf, rest)
  }

  lemma CountedBack<T(!new)>(
    name: string, template: seq<Field>, linesOf: T -> seq<Token>, fieldsOf: T -> seq<Field>,
    recordOf: seq<Field> -> Option<T>, normal: T -> T, xs: seq<T>, after: string)
    requires Readable(template, linesOf, fieldsOf, recordOf, normal)
    ensures ReadCounted(name, template, recordOf, PrintAll(CountedLines(name, linesOf, xs)) + after) ==
            Some((Mapped(normal, xs), after))
  {
    var list := ListLines(linesOf, xs);
    PrintAppend([UintTok(name, |xs|)], list);
    PrintTwo(UintTok(name, |xs|), UintTok(name, |xs|), PrintAll(list) + after);
    Associative(PrintAll([UintTok(name, |xs|)]), PrintAll(list), after);
    ReadUintBack(name, |xs|, PrintAll(list) + after);
    ReadRecordsBack(template, linesOf, fieldsOf, recordOf, normal, xs, after);
  }

  function ParseFront(text: string): Option<((uint64, GatewaySettings, CommandLimits), string)> {
    var (schemaVersion, t1) :- ParseHeader(text);
    var (settings, t2) :- ParseSettings(t1);
    var (limits, t3) :- ParseLimits(t2);
    Some(((schemaVersion, settings, limits), t3))
  }

  datatype Lists = Lists(
    profiles: seq<(string, QosProfile)>,
    input: InputContract,
    output: OutputContract,
    states: seq<(string, StateTopic)>,
    endpoints: seq<CriticalEndpoint>)

  function ParseLists(text: string): Option<(Lists, string)> {
    var (profiles, t4) :- ReadCounted("qos_profiles.count", QosFields(BLANK_QOS), QosOf, text);
    var (topics, t5) :- ParseTopics(t4);
    var (states, t6) :- ReadCounted("state_topics.count", StateTopicFields(BLANK_STATE_TOPIC), StateTopicOf, t5);
    var (endpoints, t7) :- ReadCounted("critical_endpoints.count", EndpointFields(BLANK_ENDPOINT), EndpointOf, t6);
    Some((Lists(profiles, topics.0, topics.1, states, endpoints), t7))
  }

  function ParseContract(text: string): Option<GatewayContract> {
    var (front, rest) :- ParseFront(text);
    var (lists, end) :- ParseLists(rest);
    if end != "" then None
    else
      Some(GatewayContract(front.0, "", 0, front.1, front.2, lists.profiles, lists.input, lists.output, lists.states,
                           lists.endpoints))
  }

  // The behaviour of a contract: without its name and version, negative zeros
  // as zero, unused depths as 0, and the endpoints ordered by id.
  function NormalContract(c: GatewayContract): GatewayContract {
    GatewayContract(c.schemaVersion, "", 0, NormalSettings(c.gateway), NormalLimits(c.limits),
                    Mapped(NormalQos, c.qosProfiles), c.input, c.output, c.stateTopics,
                    Sort(EndpointKey, c.criticalEndpoints))
  }

  lemma PrintSections(a: seq<Token>, b: seq<Token>, c: seq<Token>, d: seq<Token>, e: seq<Token>, f: seq<Token>,
                      g: seq<Token>)
    ensures PrintAll(a + b + c + d + e + f + g) ==
            PrintAll(a) + (PrintAll(b) + (PrintAll(c) + (PrintAll(d) + (PrintAll(e) + (PrintAll(f) + (PrintAll(g) + ""))))))
  {
    PrintAppend(a, b);
    PrintAppend(a + b, c);
    PrintAppend(a + b + c, d);
    PrintAppend(a + b + c + d, e);
    PrintAppend(a + b + c + d + e, f);
    PrintAppend(a + b + c + d + e + f, g);
    JoinStrings(PrintAll(a), PrintAll(b), PrintAll(c), PrintAll(d), PrintAll(e), PrintAll(f), PrintAll(g));
  }

  lemma JoinStrings(a: string, b: string, c: string, d: string, e: string, f: string, g: string)
    ensures a + b + c + d + e + f + g == a + (b + (c + (d + (e + (f + (g + ""))))))
  {
  }

  lemma MappedSame<T(!new)>(f: T -> T, xs: seq<T>)
    requires forall x :: f(x) == x
    ensures Mapped(f, xs) == xs
  {
  }

  lemma FrontBack(c: GatewayContract, after: string)
    ensures ParseFront(PrintAll(HeaderLines(c.schemaVersion))
                       + (PrintAll(SettingsLines(c.gateway)) + (PrintAll(LimitsLines(c.limits)) + after))) ==
            Some(((c.schemaVersion, NormalSettings(c.gateway), NormalLimits(c.limits)), after))
  {
    HeaderBack(c.schemaVersion, PrintAll(SettingsLines(c.gateway)) + (PrintAll(LimitsLines(c.limits)) + after));
    SettingsBack(c.gateway, PrintAll(LimitsLines(c.limits)) + after);
    LimitsBack(c.limits, after);
  }

  function QosListLines(c: GatewayContract): seq<Token> {
    CountedLines("qos_profiles.count", QosEntryLines, c.qosProfiles)
  }

  function StateListLines(c: GatewayContract): seq<Token> {
    CountedLines("state_topics.count", StateTopicLines, c.stateTopics)
  }

  function EndpointListLines(c: GatewayContract): seq<Token> {
    CountedLines("critical_endpoints.count", EndpointLines, Sort(EndpointKey, c.criticalEndpoints))
  }

  lemma ListsBack(c: GatewayContract, after: string)
    ensures ParseLists(PrintAll(QosListLines(c))
                       + (PrintAll(TopicsLines(c.input, c.output))
                          + (PrintAll(StateListLines(c)) + (PrintAll(EndpointListLines(c)) + after)))) ==
            Some((Lists(Mapped(NormalQos, c.qosProfiles), c.input, c.output, c.stateTopics,
                        Sort(EndpointKey, c.criticalEndpoints)), after))
  {
    var sorted := Sort(EndpointKey, c.criticalEndpoints);
    var t6 := PrintAll(EndpointListLines(c)) + after;
    var t5 := PrintAll(StateListLines(c)) + t6;
    var t4 := PrintAll(TopicsLines(c.input, c.output)) + t5;
    QosReadable();
    CountedBack("qos_profiles.count", QosFields(BLANK_QOS), QosEntryLines, QosFields, QosOf, NormalQos, c.qosProfiles, t4);
    TopicsBack(c.input, c.output, t5);
    StateTopicReadable();
    CountedBack("state_topics.count", StateTopicFields(BLANK_STATE_TOPIC), StateTopicLines, StateTopicFields,
                StateTopicOf, SameStateTopic, c.stateTopics, t6);
    EndpointReadable();
    CountedBack("critical_endpoints.count", EndpointFields(BLANK_ENDPOINT), EndpointLines, EndpointFields, EndpointOf,
                SameEndpoint, sorted, after);
    MappedSame(SameStateTopic, c.stateTopics);
    MappedSame(SameEndpoint, sorted);
  }

  // What follows the limits.
  function ListsText(c: GatewayContract): string {
    PrintAll(QosListLines(c))
    + (PrintAll(TopicsLines(c.input, c.output)) + (PrintAll(StateListLines(c)) + (PrintAll(EndpointListLines(c)) + "")))
  }

  lemma TextParts(c: GatewayContract)
    ensures TextOf(c) == PrintAll(HeaderLines(c.schemaVersion))
                         + (PrintAll(SettingsLines(c.gateway)) + (PrintAll(LimitsLines(c.limits)) + ListsText(c)))
  {
    PrintSections(HeaderLines(c.schemaVersion), SettingsLines(c.gateway), LimitsLines(c.limits), QosListLines(c),
                  TopicsLines(c.input, c.output), StateListLines(c), EndpointListLines(c));
  }

  lemma FrontParsed(c: GatewayContract)
    ensures ParseFront(TextOf(c)) ==
            Some(((c.schemaVersion, NormalSettings(c.gateway), NormalLimits(c.limits)), ListsText(c)))
  {
    TextParts(c);
    FrontBack(c, ListsText(c));
  }

  lemma ContractFrom(text: string, front: (uint64, GatewaySettings, CommandLimits), rest: string, lists: Lists)
    requires ParseFront(text) == Some((front, rest)) && ParseLists(rest) == Some((lists, ""))
    ensures ParseContract(text) ==
            Some(GatewayContract(front.0, "", 0, front.1, front.2, lists.profiles, lists.input, lists.output,
                                 lists.states, lists.endpoints))
  {
  }

  // The parser gives back the behaviour of any printed contract.
  lemma ParseBack(c: GatewayContract)
    ensures ParseContract(TextOf(c)) == Some(NormalContract(c))
  {
    FrontParsed(c);
    ListsBack(c, "");
    ContractFrom(TextOf(c), (c.schemaVersion, NormalSettings(c.gateway), NormalLimits(c.limits)), ListsText(c),
                 Lists(Mapped(NormalQos, c.qosProfiles), c.input, c.output, c.stateTopics,
                       Sort(EndpointKey, c.criticalEndpoints)));
  }

  // ----------------------------------------- equal texts, equal behaviour

  lemma {:induction false} NormalQosLines(xs: seq<(string, QosProfile)>)
    ensures ListLines(QosEntryLines, Mapped(NormalQos, xs)) == ListLines(QosEntryLines, xs)
  {
    if xs != [] {
      NormalQosLines(xs[1..]);
      assert Mapped(NormalQos, xs)[1..] == Mapped(NormalQos, xs[1..]);
      assert QosEntryLines(NormalQos(xs[0])) == QosEntryLines(xs[0]);
    }
  }

  lemma NormalLines(c: GatewayContract)
    ensures SettingsLines(NormalSettings(c.gateway)) == SettingsLines(c.gateway)
    ensures LimitsLines(NormalLimits(c.limits)) == LimitsLines(c.limits)
    ensures CountedLines("qos_profiles.count", QosEntryLines, Mapped(NormalQos, c.qosProfiles)) ==
            CountedLines("qos_profiles.count", QosEntryLines, c.qosProfiles)
  {
    NormalQosLines(c.qosProfiles);
  }

  lemma BehaviourGivesText(c: GatewayContract, d: GatewayContract)
    requires NormalContract(c) == NormalContract(d)
    ensures ContractLines(c) == ContractLines(d)
  {
    NormalLines(c);
    NormalLines(d);
  }

  // Two contracts have the same text exactly when they behave the same.
  lemma TextIsBehaviour(c: GatewayContract, d: GatewayContract)
    ensures TextOf(c) == TextOf(d) <==> NormalContract(c) == NormalContract(d)
  {
    if NormalContract(c) == NormalContract(d) {
      BehaviourGivesText(c, d);
    } else {
      ParseBack(c);
      ParseBack(d);
    }
  }

  lemma SortedById(cs: seq<CriticalEndpoint>, ds: seq<CriticalEndpoint>)
    requires forall i, j :: 0 <= i < j < |cs| ==> cs[i].id != cs[j].id
    ensures Sort(EndpointKey, cs) == Sort(EndpointKey, ds) <==> multiset(cs) == multiset(ds)
  {
    forall x, y | x in cs && y in cs && EndpointKey(x) == EndpointKey(y)
      ensures x == y
    {
      CodesInjective(x.id, y.id);
    }
    SortCanonical(EndpointKey, cs, ds);
  }

  // With unique ids, which the contract parser demands, the order in which the
  // endpoints are listed is all that sorting takes away.
  lemma EndpointOrderIsIrrelevant(c: GatewayContract, d: GatewayContract)
    requires forall i, j :: 0 <= i < j < |c.criticalEndpoints| ==> c.criticalEndpoints[i].id != c.criticalEndpoints[j].id
    requires NormalContract(c.(criticalEndpoints := [])) == NormalContract(d.(criticalEndpoints := []))
    ensures TextOf(c) == TextOf(d) <==> multiset(c.criticalEndpoints) == multiset(d.criticalEndpoints)
  {
    TextIsBehaviour(c, d);
    SortedById(c.criticalEndpoints, d.criticalEndpoints);
  }
}
