/** Rendering an ACL, filtering its lines and reading them back gives the rules one started from. */
module AclProofs {
  import opened Wrappers
  import opened Text
  import opened Ipv4
  import opened AclTemplate
  import opened AclMeaning
  import opened Sequences
  import ProvisioningTasks

  // ------------------------------------------------------ the printed lines

  datatype Line = Comment(text: string) | Outer(words: seq<string>) | Inner(words: seq<string>)

  ghost predicate Good(l: Line) {
    if l.Comment? then l.text != "" && l.text[0] == '!' && Unbroken(l.text)
    else l.words != [] && AllWords(l.words) && l.words[0][0] != '!'
  }

  ghost predicate AllGood(ls: seq<Line>) {
    forall i :: 0 <= i < |ls| ==> Good(ls[i])
  }

  function TextOf(l: Line): string {
    match l
    case Comment(text) => text
    case Outer(ws) => if ws == [] then "" else Phrase(ws)
    case Inner(ws) => Spaced(ws)
  }

  function Texts(ls: seq<Line>): (r: seq<string>)
    ensures |r| == |ls|
    ensures forall i :: 0 <= i < |r| ==> r[i] == TextOf(ls[i])
  {
    if ls == [] then [] else [TextOf(ls[0])] + Texts(ls[1..])
  }

  function Joined(ls: seq<Line>): string {
    if ls == [] then "" else TextOf(ls[0]) + "\n" + Joined(ls[1..])
  }

  function PortWords(port: Option<string>): seq<string> {
    match port case None => [] case Some(p) => ["eq", p]
  }

  function RuleWords(r: Rule): seq<string> {
    [ActionText(r.action), r.protocol] + (EndpointWords(r.source) + (EndpointWords(r.destination) + PortWords(r.port)))
  }

  function RuleLines(rules: seq<Rule>): seq<Line> {
    if rules == [] then [] else [Inner(RuleWords(rules[0]))] + RuleLines(rules[1..])
  }

  const SEPARATOR: Line := Comment("!")
  const TITLE_LINE: Line := Comment(TITLE)
  const DENY_LINE: Line := Inner(["deny", "ip", "any", "any", "log"])

  function ListHead(name: string): Line { Outer(["ip", "access-list", "extended", name]) }

  function AclLines(acl: Acl): seq<Line> {
    [ListHead(acl.name)] + (RuleLines(acl.rules) + [DENY_LINE, SEPARATOR])
  }

  function BindingLines(acl: Acl): seq<Line> {
    match acl.applyTo
    case None => []
    case Some(a) =>
      [Outer(["interface", a.interface]), Inner(["ip", "access-group", acl.name, DirectionText(a.direction)]),
          SEPARATOR]
  }

  function AllListLines(acls: seq<Acl>): seq<Line> {
    if acls == [] then [] else AclLines(acls[0]) + AllListLines(acls[1..])
  }

  function AllBindingLines(acls: seq<Acl>): seq<Line> {
    if acls == [] then [] else BindingLines(acls[0]) + AllBindingLines(acls[1..])
  }

  function AllLines(acls: seq<Acl>): seq<Line> {
    [TITLE_LINE] + (AllListLines(acls) + AllBindingLines(acls))
  }

  // ------------------------------------------------- every line is printable

  lemma PrintIsWord(a: Address)
    ensures IsWord(Print(a)) && '0' <= Print(a)[0] <= '9'
  {
    hide Octet;
  }

  lemma EndpointIsWords(e: Endpoint)
    ensures AllWords(EndpointWords(e))
  {
    hide Print;
    match e {
      case Any =>
      case Host(ip) => PrintIsWord(ip);
      case Net(ip, wildcard) => PrintIsWord(ip); PrintIsWord(wildcard);
    }
  }

  lemma RuleIsWords(r: Rule)
    requires RuleFormed(r)
    ensures AllWords(RuleWords(r))
  {
    hide EndpointWords;
    EndpointIsWords(r.source);
    EndpointIsWords(r.destination);
  }

  lemma {:induction false} RuleLinesGood(rules: seq<Rule>)
    requires forall i :: 0 <= i < |rules| ==> RuleFormed(rules[i])
    ensures AllGood(RuleLines(rules))
  {
    hide RuleFormed;
    if rules != [] {
      RuleIsWords(rules[0]);
      hide IsWord, EndpointWords;
      RuleLinesGood(rules[1..]);
    }
  }

  lemma GoodConcat(x: seq<Line>, y: seq<Line>)
    requires AllGood(x) && AllGood(y)
    ensures AllGood(x + y)
  {
  }

  lemma Keywords()
    ensures IsWord("ip") && IsWord("access-list") && IsWord("extended") && IsWord("deny") && IsWord("any")
        && IsWord("log")
    ensures IsWord("interface") && IsWord("access-group") && IsWord("in") && IsWord("out") && IsWord("permit")
  {
  }

  lemma FixedLinesGood(name: string)
    requires IsWord(name)
    ensures Good(ListHead(name)) && Good(DENY_LINE) && Good(SEPARATOR)
  {
    Keywords();
    hide IsWord;
  }

  lemma BindingLinesGood(acl: Acl)
    requires WellFormed(acl)
    ensures AllGood(BindingLines(acl))
  {
    Keywords();
    FixedLinesGood(acl.name);
    hide IsWord;
    match acl.applyTo {
      case None =>
      case Some(a) =>
        assert Good(Outer(["interface", a.interface]));
        assert Good(Inner(["ip", "access-group", acl.name, DirectionText(a.direction)]));
    }
  }

  lemma AclLinesGood(acl: Acl)
    requires WellFormed(acl)
    ensures AllGood(AclLines(acl))
  {
    RuleLinesGood(acl.rules);
    FixedLinesGood(acl.name);
    hide Good, RuleLines;
    GoodConcat(RuleLines(acl.rules), [DENY_LINE, SEPARATOR]);
    GoodConcat([ListHead(acl.name)], RuleLines(acl.rules) + [DENY_LINE, SEPARATOR]);
  }

  lemma {:induction false} AllLinesGood(acls: seq<Acl>)
    requires AllFormed(acls)
    ensures AllGood(AllListLines(acls)) && AllGood(AllBindingLines(acls))
  {
    hide Good, AclLines, BindingLines, WellFormed;
    if acls != [] {
      AclLinesGood(acls[0]);
      BindingLinesGood(acls[0]);
      AllLinesGood(acls[1..]);
      GoodConcat(AclLines(acls[0]), AllListLines(acls[1..]));
      GoodConcat(BindingLines(acls[0]), AllBindingLines(acls[1..]));
    }
  }

  // ------------------------------------------------ the template prints them

  lemma {:induction false} JoinedConcat(x: seq<Line>, y: seq<Line>)
    ensures Joined(x + y) == Joined(x) + Joined(y)
    decreases |x|
  {
    hide TextOf;
    if x == [] {
      EmptyConcat(y);
    } else {
      TailOfConcat(x, y);
      JoinedConcat(x[1..], y);
      ConcatAssociates(TextOf(x[0]) + "\n", Joined(x[1..]), Joined(y));
    }
  }

  lemma JoinedOne(l: Line)
    ensures Joined([l]) == TextOf(l) + "\n"
  {
    hide TextOf;
    SingletonTail(l);
    EmptyConcat(TextOf(l) + "\n");
  }

  lemma SpacedTwo(a: string, b: string)
    ensures Spaced([a, b]) == " " + a + " " + b
  {
    assert [a, b][1..] == [b];
    SingletonTail(b);
    EmptyConcat(" " + b);
    assert Spaced([b]) == " " + b;
    ConcatAssociates(" " + a, " ", b);
  }

  lemma EndpointSpaced(e: Endpoint)
    ensures Spaced(EndpointWords(e)) == " " + Phrase(EndpointWords(e))
  {
    hide EndpointWords, Print;
    EndpointIsWords(e);
    WordsOfPhrase(EndpointWords(e));
  }

  lemma PortSpaced(port: Option<string>)
    ensures Spaced(PortWords(port)) == if port.Some? then " eq " + port.value else ""
  {
    if port.Some? {
      SpacedTwo("eq", port.value);
      assert " eq " == " " + "eq" + " ";
    }
  }

  lemma Regroup(x: string, s: string, d: string, q: string)
    ensures x + " " + s + " " + d + q == x + ((" " + s) + ((" " + d) + q))
  {
  }

  lemma RuleRenders(r: Rule)
    ensures RenderRule(SpellRule(r)) == Ok(Spaced(RuleWords(r)) + "\n")
  {
    var s, d, q := EndpointWords(r.source), EndpointWords(r.destination), PortWords(r.port);
    SpacedTwo(ActionText(r.action), r.protocol);
    hide EndpointWords, Phrase, ActionText;
    EndpointSpaced(r.source);
    EndpointSpaced(r.destination);
    PortSpaced(r.port);
    SpacedConcat([ActionText(r.action), r.protocol], s + (d + q));
    SpacedConcat(s, d + q);
    SpacedConcat(d, q);
    hide Spaced, PortWords;
    Regroup(" " + ActionText(r.action) + " " + r.protocol, Phrase(s), Phrase(d), Spaced(q));
  }

  lemma {:induction false} RulesRender(rules: seq<Rule>)
    ensures RenderRules(SpellRules(rules)) == Ok(Joined(RuleLines(rules)))
  {
    hide RuleWords, SpellRule, RenderRule;
    if rules != [] {
      RuleRenders(rules[0]);
      RulesRender(rules[1..]);
    }
  }

  lemma HeadText(name: string)
    ensures TextOf(ListHead(name)) == "ip access-list extended " + name
  {
    SpacedTwo("extended", name);
    SpacedTwo("ip", "access-list");
    SpacedConcat(["ip", "access-list"], ["extended", name]);
    assert ["ip", "access-list"] + ["extended", name] == ["ip", "access-list", "extended", name];
    hide Spaced;
    assert (" " + "ip" + " " + "access-list" + (" " + "extended" + " " + name))[1..]
        == "ip access-list extended " + name;
  }

  lemma DenyText()
    ensures TextOf(DENY_LINE) == " deny ip any any log"
  {
    SpacedTwo("deny", "ip");
    SpacedTwo("any", "any");
    assert Spaced(["log"]) == " log";
    hide Spaced;
    SpacedConcat(["any", "any"], ["log"]);
    SpacedConcat(["deny", "ip"], ["any", "any"] + ["log"]);
    assert ["deny", "ip"] + (["any", "any"] + ["log"]) == ["deny", "ip", "any", "any", "log"];
  }

  lemma JoinedTwo(x: Line, y: Line)
    ensures Joined([x, y]) == TextOf(x) + "\n" + (TextOf(y) + "\n")
  {
    JoinedOne(x);
    JoinedOne(y);
    JoinedConcat([x], [y]);
    assert [x] + [y] == [x, y];
  }

  lemma AclRenders(acl: Acl)
    ensures RenderAcl(SpellAcl(acl)) == Ok(Joined(AclLines(acl)))
  {
    hide RenderRules, SpellRules, TextOf, Joined, RuleLines;
    RulesRender(acl.rules);
    HeadText(acl.name);
    DenyText();
    SeparatorText();
    JoinedOne(ListHead(acl.name));
    JoinedTwo(DENY_LINE, SEPARATOR);
    JoinedConcat(RuleLines(acl.rules), [DENY_LINE, SEPARATOR]);
    JoinedConcat([ListHead(acl.name)], RuleLines(acl.rules) + [DENY_LINE, SEPARATOR]);
    var head, rules := "ip access-list extended " + acl.name + "\n", Joined(RuleLines(acl.rules));
    assert head + rules + " deny ip any any log\n" + "!\n"
        == head + (rules + (" deny ip any any log" + "\n" + ("!" + "\n")));
  }

  lemma SeparatorText()
    ensures TextOf(SEPARATOR) == "!"
  {
  }

  lemma InterfaceText(name: string)
    ensures TextOf(Outer(["interface", name])) == "interface " + name
  {
    SpacedTwo("interface", name);
    hide Spaced;
    assert (" " + "interface" + " " + name)[1..] == "interface " + name;
  }

  lemma GroupText(name: string, direction: string)
    ensures TextOf(Inner(["ip", "access-group", name, direction])) == " ip access-group " + name + " " + direction
  {
    SpacedTwo("ip", "access-group");
    SpacedTwo(name, direction);
    SpacedConcat(["ip", "access-group"], [name, direction]);
    assert ["ip", "access-group"] + [name, direction] == ["ip", "access-group", name, direction];
    hide Spaced;
    assert " " + "ip" + " " + "access-group" + (" " + name + " " + direction)
        == " ip access-group " + name + " " + direction;
  }

  lemma BindingRenders(acl: Acl)
    ensures RenderBinding(SpellAcl(acl)) == Ok(Joined(BindingLines(acl)))
  {
    hide TextOf, Joined, SpellRules;
    match acl.applyTo {
      case None => EmptyJoined();
      case Some(a) =>
        var d := DirectionText(a.direction);
        var x, y := Outer(["interface", a.interface]), Inner(["ip", "access-group", acl.name, d]);
        InterfaceText(a.interface);
        GroupText(acl.name, d);
        SeparatorText();
        JoinedOne(x);
        JoinedTwo(y, SEPARATOR);
        JoinedConcat([x], [y, SEPARATOR]);
        assert [x] + [y, SEPARATOR] == [x, y, SEPARATOR];
        assert "interface " + a.interface + "\n" + " ip access-group " + acl.name + " " + d + "\n" + "!\n"
            == ("interface " + a.interface + "\n") + (" ip access-group " + acl.name + " " + d + "\n" + ("!" + "\n"));
    }
  }

  lemma EmptyJoined()
    ensures Joined([]) == ""
  {
  }

  lemma {:induction false} AllRender(acls: seq<Acl>)
    ensures RenderAcls(Spell(acls)) == Ok(Joined(AllListLines(acls)))
    ensures RenderBindings(Spell(acls)) == Ok(Joined(AllBindingLines(acls)))
  {
    hide Joined, AclLines, BindingLines, RenderAcl, RenderBinding, SpellAcl;
    if acls == [] {
      EmptyJoined();
    } else {
      AclRenders(acls[0]);
      BindingRenders(acls[0]);
      AllRender(acls[1..]);
      JoinedConcat(AclLines(acls[0]), AllListLines(acls[1..]));
      JoinedConcat(BindingLines(acls[0]), AllBindingLines(acls[1..]));
    }
  }

  /** The template's output, line by line. */
  lemma RenderIsLines(acls: seq<Acl>)
    ensures Render(Some(Spell(acls))) == Ok(Joined(AllLines(acls)))
  {
    hide Joined, AllListLines, AllBindingLines, RenderAcls, RenderBindings;
    AllRender(acls);
    assert TextOf(TITLE_LINE) == TITLE;
    JoinedOne(TITLE_LINE);
    JoinedConcat(AllListLines(acls), AllBindingLines(acls));
    JoinedConcat([TITLE_LINE], AllListLines(acls) + AllBindingLines(acls));
    ConcatAssociates(TITLE + "\n", Joined(AllListLines(acls)), Joined(AllBindingLines(acls)));
  }

  // ------------------------------------------------ splitting and filtering

  lemma {:induction false} JoinedIsConcat(ls: seq<Line>)
    ensures Joined(ls) == Concat(Terminate(Texts(ls)))
  {
    hide TextOf;
    if ls != [] { JoinedIsConcat(ls[1..]); }
  }

  lemma {:induction false} InkedKeepsAll(lines: seq<string>)
    requires forall i :: 0 <= i < |lines| ==> !ProvisioningTasks.Blank(lines[i])
    ensures ProvisioningTasks.Inked(lines) == lines
  {
    hide ProvisioningTasks.Blank;
    if lines != [] { InkedKeepsAll(lines[1..]); }
  }

  lemma {:induction false} BlankHasNoWords(line: string)
    requires ProvisioningTasks.Blank(line)
    ensures Words(line) == []
  {
    hide IsSpace;
    if line != "" { BlankHasNoWords(line[1..]); }
  }

  lemma GoodText(l: Line)
    requires Good(l)
    ensures Unbroken(TextOf(l)) && !ProvisioningTasks.Blank(TextOf(l)) && TextOf(l) != ""
    ensures l.Comment? <==> TextOf(l)[0] == '!'
    ensures !l.Comment? ==> Words(TextOf(l)) == l.words
  {
    match l {
      case Comment(text) =>
      case Outer(ws) =>
        hide Words, IsSpace, IsWord, Unbroken;
        WordsOfPhrase(ws);
        if ProvisioningTasks.Blank(TextOf(l)) { BlankHasNoWords(TextOf(l)); }
      case Inner(ws) =>
        hide Words, IsSpace, IsWord, Unbroken;
        WordsOfSpaced(ws);
        if ProvisioningTasks.Blank(TextOf(l)) { BlankHasNoWords(TextOf(l)); }
    }
  }

  /** Splitting the printed text and dropping blank lines gives back the printed lines. */
  lemma FilterKeepsLines(ls: seq<Line>)
    requires AllGood(ls)
    ensures ProvisioningTasks.ConfigLines(Joined(ls)) == Texts(ls)
  {
    hide Good, TextOf, Unbroken, ProvisioningTasks.Blank, SplitLines, Joined, Texts, ProvisioningTasks.Inked;
    var r := Texts(ls);
    forall i | 0 <= i < |r|
      ensures Unbroken(r[i]) && !ProvisioningTasks.Blank(r[i])
    {
      GoodText(ls[i]);
    }
    JoinedIsConcat(ls);
    SplitLinesOfJoin(r);
    InkedKeepsAll(r);
  }
}
