/** What a device makes of a rendered ACL: a reader for the configuration lines, and first-match
    evaluation of the lists it reads. */
module AclMeaning {
  import opened Wrappers
  import opened Text
  import opened Ipv4
  import opened AclTemplate
  import ProvisioningTasks

  // ------------------------------------------------------------ structured

  datatype Action = Permit | Deny

  datatype Endpoint = Any | Host(ip: Address) | Net(ip: Address, wildcard: Address)

  datatype Rule = Rule(action: Action, protocol: string, source: Endpoint, destination: Endpoint, port: Option<string>)

  datatype Direction = In | Out

  datatype Apply = Apply(interface: string, direction: Direction)

  datatype Acl = Acl(name: string, rules: seq<Rule>, applyTo: Option<Apply>)

  predicate RuleFormed(r: Rule) {
    IsWord(r.protocol) && (r.port.Some? ==> IsWord(r.port.value))
  }

  predicate WellFormed(acl: Acl) {
    && IsWord(acl.name) && (acl.applyTo.Some? ==> IsWord(acl.applyTo.value.interface))
    && forall i :: 0 <= i < |acl.rules| ==> RuleFormed(acl.rules[i])
  }

  ghost predicate AllFormed(acls: seq<Acl>) {
    forall i :: 0 <= i < |acls| ==> WellFormed(acls[i])
  }

  // ------------------------------------------------ as template variables

  function ActionText(a: Action): string { if a.Permit? then "permit" else "deny" }

  function DirectionText(d: Direction): string { if d.In? then "in" else "out" }

  function EndpointWords(e: Endpoint): (ws: seq<string>)
    ensures ws != []
  {
    match e
    case Any => ["any"]
    case Host(ip) => ["host", Print(ip)]
    case Net(ip, wildcard) => [Print(ip), Print(wildcard)]
  }

  function SpellRule(r: Rule): RawRule {
    RawRule(Some(ActionText(r.action)), Some(r.protocol),
      Some(Phrase(EndpointWords(r.source))), Some(Phrase(EndpointWords(r.destination))), r.port)
  }

  function SpellRules(rules: seq<Rule>): (raws: seq<RawRule>)
    ensures |raws| == |rules|
  {
    if rules == [] then [] else [SpellRule(rules[0])] + SpellRules(rules[1..])
  }

  function SpellAcl(acl: Acl): RawAcl {
    RawAcl(Some(acl.name), Some(SpellRules(acl.rules)),
      match acl.applyTo
      case None => None
      case Some(a) => Some(RawApply(Some(a.interface), Some(DirectionText(a.direction)))))
  }

  function Spell(acls: seq<Acl>): seq<RawAcl> {
    if acls == [] then [] else [SpellAcl(acls[0])] + Spell(acls[1..])
  }

  // --------------------------------------------------------------- meaning

  datatype Packet = Packet(protocol: string, source: Address, destination: Address, port: string)

  /** `x` and `ip` agree on every bit the wildcard leaves clear. */
  predicate Agree(x: nat, ip: nat, wildcard: nat, bits: nat) {
    bits == 0 || ((wildcard % 2 == 1 || x % 2 == ip % 2) && Agree(x / 2, ip / 2, wildcard / 2, bits - 1))
  }

  predicate Covers(e: Endpoint, x: Address) {
    match e
    case Any => true
    case Host(ip) => x == ip
    case Net(ip, wildcard) => Agree(x, ip, wildcard, 32)
  }

  predicate Matches(r: Rule, p: Packet) {
    && (r.protocol == "ip" || r.protocol == p.protocol)
    && Covers(r.source, p.source) && Covers(r.destination, p.destination)
    && (r.port.Some? ==> r.port.value == p.port)
  }

  /** The first rule that matches decides; what nothing matches is denied. */
  function FirstMatch(rules: seq<Rule>, p: Packet): Action {
    if rules == [] then Deny
    else if Matches(rules[0], p) then rules[0].action
    else FirstMatch(rules[1..], p)
  }

  // ---------------------------------------------------------------- reader

  datatype Entry = Entry(rule: Rule, log: bool)

  datatype Binding = Binding(interface: string, acl: string, direction: Direction)

  datatype Mode = Top | InAcl(name: string) | InInterface(name: string)

  datatype Config = Config(mode: Mode, lists: map<string, seq<Entry>>, bindings: seq<Binding>)

  const BLANK: Config := Config(Top, map[], [])

  function ReadAction(w: string): Option<Action> {
    if w == "permit" then Some(Permit) else if w == "deny" then Some(Deny) else None
  }

  /** An endpoint at the front of some words, and the words after it. */
  function ReadEndpoint(ws: seq<string>): Option<(Endpoint, seq<string>)> {
    if ws == [] then None
    else if ws[0] == "any" then Some((Any, ws[1..]))
    else if |ws| == 1 then None
    else if ws[0] == "host" then
      match Parse(ws[1]) case Some(ip) => Some((Host(ip), ws[2..])) case None => None
    else
      match (Parse(ws[0]), Parse(ws[1]))
      case (Some(ip), Some(wildcard)) => Some((Net(ip, wildcard), ws[2..]))
      case _ => None
  }

  /** What may follow the endpoints: a port, a log flag. */
  function ReadTail(ws: seq<string>): Option<(Option<string>, bool)> {
    if ws == [] then Some((None, false))
    else if ws == ["log"] then Some((None, true))
    else if |ws| == 2 && ws[0] == "eq" then Some((Some(ws[1]), false))
    else None
  }

  function ReadEntry(ws: seq<string>): Option<Entry> {
    if |ws| < 2 || ReadAction(ws[0]).None? then None
    else
      match ReadEndpoint(ws[2..])
      case None => None
      case Some((source, more)) =>
        match ReadEndpoint(more)
        case None => None
        case Some((destination, tail)) =>
          match ReadTail(tail)
          case None => None
          case Some((port, log)) => Some(Entry(Rule(ReadAction(ws[0]).value, ws[1], source, destination, port), log))
  }

  function EntriesIn(lists: map<string, seq<Entry>>, name: string): seq<Entry> {
    if name in lists then lists[name] else []
  }

  /** The words of one line, read in the current mode; a line that makes no sense is refused. */
  function ReadWords(c: Config, ws: seq<string>): Option<Config> {
    if |ws| == 4 && ws[..3] == ["ip", "access-list", "extended"] then
      Some(c.(mode := InAcl(ws[3]), lists := c.lists[ws[3] := EntriesIn(c.lists, ws[3])]))
    else if |ws| == 2 && ws[0] == "interface" then Some(c.(mode := InInterface(ws[1])))
    else match c.mode
      case InAcl(name) =>
        (match ReadEntry(ws)
         case None => None
         case Some(x) => Some(c.(lists := c.lists[name := EntriesIn(c.lists, name) + [x]])))
      case InInterface(name) =>
        if |ws| == 4 && ws[..2] == ["ip", "access-group"] && ws[3] in {"in", "out"}
        then Some(c.(bindings := c.bindings + [Binding(name, ws[2], if ws[3] == "in" then In else Out)]))
        else None
      case Top => None
  }

  /** One line; those that start with an exclamation mark are comments. */
  function ReadLine(c: Config, line: string): Option<Config> {
    if line != "" && line[0] == '!' then Some(c) else ReadWords(c, Words(line))
  }

  function ReadLines(c: Config, lines: seq<string>): Option<Config>
    decreases |lines|
  {
    if lines == [] then Some(c)
    else match ReadLine(c, lines[0])
      case None => None
      case Some(next) => ReadLines(next, lines[1..])
  }

  /** What a device makes of a pushed text. */
  function ReadText(text: string): Option<Config> {
    ReadLines(BLANK, ProvisioningTasks.ConfigLines(text))
  }

  // -------------------------------------------------------- expected config

  const DENY_REST: Entry := Entry(Rule(Deny, "ip", Any, Any, None), true)

  function EntriesOf(rules: seq<Rule>): (r: seq<Entry>)
    ensures |r| == |rules| + 1
  {
    if rules == [] then [DENY_REST] else [Entry(rules[0], false)] + EntriesOf(rules[1..])
  }

  function ListsOf(lists: map<string, seq<Entry>>, acls: seq<Acl>): map<string, seq<Entry>>
    decreases |acls|
  {
    if acls == [] then lists
    else ListsOf(lists[acls[0].name := EntriesIn(lists, acls[0].name) + EntriesOf(acls[0].rules)], acls[1..])
  }

  function BindingsOf(acls: seq<Acl>): seq<Binding> {
    if acls == [] then []
    else
      (match acls[0].applyTo
       case None => []
       case Some(a) => [Binding(a.interface, acls[0].name, a.direction)]) + BindingsOf(acls[1..])
  }

  function RulesOf(entries: seq<Entry>): (r: seq<Rule>)
    ensures |r| == |entries|
  {
    if entries == [] then [] else [entries[0].rule] + RulesOf(entries[1..])
  }
}
