/** The main theorems about ACL rendering: reading back what was printed, and what it means. */
module AclRoundTrip {
  import opened Wrappers
  import opened Text
  import opened Ipv4
  import opened AclTemplate
  import opened AclMeaning
  import opened AclProofs
  import opened Sequences

  // --------------------------------------------------- reading by words

  function ReadOne(c: Config, l: Line): Option<Config> {
    if l.Comment? then Some(c) else ReadWords(c, l.words)
  }

  function ReadAll(c: Config, ls: seq<Line>): Option<Config>
    decreases |ls|
  {
    if ls == [] then Some(c)
    else match ReadOne(c, ls[0])
      case None => None
      case Some(next) => ReadAll(next, ls[1..])
  }

  lemma {:induction false} ReadingTexts(c: Config, ls: seq<Line>)
    requires AllGood(ls)
    ensures ReadLines(c, Texts(ls)) == ReadAll(c, ls)
    decreases |ls|
  {
    hide Good, TextOf, Words, ReadWords;
    if ls != [] {
      GoodText(ls[0]);
      assert Texts(ls)[1..] == Texts(ls[1..]);
      match ReadOne(c, ls[0]) {
        case None =>
        case Some(next) => ReadingTexts(next, ls[1..]);
      }
    }
  }

  lemma {:induction false} ReadConcat(c: Config, x: seq<Line>, y: seq<Line>)
    requires ReadAll(c, x).Some?
    ensures ReadAll(c, x + y) == ReadAll(ReadAll(c, x).value, y)
    decreases |x|
  {
    hide ReadOne;
    if x == [] {
      EmptyConcat(y);
    } else {
      TailOfConcat(x, y);
      ReadConcat(ReadOne(c, x[0]).value, x[1..], y);
    }
  }

  lemma ReadSingle(c: Config, l: Line)
    ensures ReadAll(c, [l]) == ReadOne(c, l)
  {
    hide ReadOne;
    SingletonTail(l);
    if ReadOne(c, l).Some? { assert ReadAll(ReadOne(c, l).value, []) == ReadOne(c, l); }
  }

  // ---------------------------------------------------------------- entries

  lemma EndpointReads(e: Endpoint, rest: seq<string>)
    ensures ReadEndpoint(EndpointWords(e) + rest) == Some((e, rest))
  {
    hide Print, Parse;
    var ws := EndpointWords(e) + rest;
    match e {
      case Any => assert ws[1..] == rest;
      case Host(ip) =>
        ParsePrint(ip);
        assert ws[2..] == rest;
      case Net(ip, wildcard) =>
        ParsePrint(ip);
        ParsePrint(wildcard);
        PrintIsWord(ip);
        assert ws[0] == Print(ip) && ws[1] == Print(wildcard) && ws[2..] == rest;
    }
  }

  lemma RuleReads(r: Rule)
    ensures ReadEntry(RuleWords(r)) == Some(Entry(r, false))
    ensures |RuleWords(r)| >= 4 && RuleWords(r)[0] == ActionText(r.action)
  {
    hide EndpointWords, ReadEndpoint;
    var s, d, q := EndpointWords(r.source), EndpointWords(r.destination), PortWords(r.port);
    var ws := RuleWords(r);
    assert ws[0] == ActionText(r.action) && ws[1] == r.protocol && ws[2..] == s + (d + q);
    EndpointReads(r.source, d + q);
    EndpointReads(r.destination, q);
  }

  lemma DenyReads()
    ensures ReadEntry(DENY_LINE.words) == Some(DENY_REST)
  {
    hide ReadEndpoint;
    var any := EndpointWords(Any);
    EndpointReads(Any, any + ["log"]);
    EndpointReads(Any, ["log"]);
    assert DENY_LINE.words[2..] == any + (any + ["log"]);
  }

  /** The list `name` gets entries appended. */
  function Extend(c: Config, name: string, more: seq<Entry>): Config {
    c.(lists := c.lists[name := EntriesIn(c.lists, name) + more])
  }

  lemma EntryReads(c: Config, ws: seq<string>, x: Entry)
    requires c.mode.InAcl? && ReadEntry(ws) == Some(x) && ws != [] && (ws[0] == "permit" || ws[0] == "deny")
    ensures ReadWords(c, ws) == Some(Extend(c, c.mode.name, [x]))
  {
    hide ReadEntry;
    if |ws| == 4 { assert ws[..3][0] == ws[0]; }
  }

  lemma ExtendTwice(c: Config, name: string, x: seq<Entry>, y: seq<Entry>)
    ensures Extend(Extend(c, name, x), name, y) == Extend(c, name, x + y)
  {
    ConcatAssociates(EntriesIn(c.lists, name), x, y);
  }

  lemma {:induction false} RulesRead(c: Config, rules: seq<Rule>)
    requires c.mode.InAcl?
    ensures ReadAll(c, RuleLines(rules) + [DENY_LINE, SEPARATOR]) == Some(Extend(c, c.mode.name, EntriesOf(rules)))
    decreases |rules|
  {
    hide RuleWords, ReadWords, Extend;
    var tail := [DENY_LINE, SEPARATOR];
    if rules == [] {
      EmptyConcat(tail);
      DenyReads();
      EntryReads(c, DENY_LINE.words, DENY_REST);
      assert tail[1..] == [SEPARATOR];
      ReadSingle(Extend(c, c.mode.name, [DENY_REST]), SEPARATOR);
    } else {
      var one := [Inner(RuleWords(rules[0]))];
      RuleReads(rules[0]);
      EntryReads(c, RuleWords(rules[0]), Entry(rules[0], false));
      ReadSingle(c, one[0]);
      var next := Extend(c, c.mode.name, [Entry(rules[0], false)]);
      ExtendMode(c, c.mode.name, [Entry(rules[0], false)]);
      RulesRead(next, rules[1..]);
      ConcatAssociates(one, RuleLines(rules[1..]), tail);
      ReadConcat(c, one, RuleLines(rules[1..]) + tail);
      ExtendTwice(c, c.mode.name, [Entry(rules[0], false)], EntriesOf(rules[1..]));
    }
  }

  lemma ExtendMode(c: Config, name: string, more: seq<Entry>)
    ensures Extend(c, name, more).mode == c.mode && Extend(c, name, more).bindings == c.bindings
  {
  }

  lemma HeadReads(c: Config, name: string)
    ensures ReadOne(c, ListHead(name)) == Some(Extend(c, name, []).(mode := InAcl(name)))
  {
    assert ListHead(name).words[..3] == ["ip", "access-list", "extended"];
    EmptyConcat(EntriesIn(c.lists, name));
  }

  /** Reading one printed list appends its rules and the final deny. */
  lemma AclReads(c: Config, acl: Acl)
    ensures ReadAll(c, AclLines(acl)) == Some(Extend(c, acl.name, EntriesOf(acl.rules)).(mode := InAcl(acl.name)))
  {
    hide ReadOne, RuleLines, ReadWords, EntriesOf, ReadAll;
    HeadReads(c, acl.name);
    ReadSingle(c, ListHead(acl.name));
    var open := Extend(c, acl.name, []).(mode := InAcl(acl.name));
    RulesRead(open, acl.rules);
    ReadConcat(c, [ListHead(acl.name)], RuleLines(acl.rules) + [DENY_LINE, SEPARATOR]);
    ExtendTwice(c, acl.name, [], EntriesOf(acl.rules));
    EmptyConcat(EntriesOf(acl.rules));
  }

  lemma BindingReads(c: Config, acl: Acl)
    ensures var r := ReadAll(c, BindingLines(acl));
            r.Some? && r.value.lists == c.lists && r.value.bindings == c.bindings + BindingsOf([acl])
  {
    assert BindingsOf([acl][1..]) == [];
    match acl.applyTo {
      case None => EmptyConcat(c.bindings);
      case Some(a) =>
        var d := DirectionText(a.direction);
        var x, y := Outer(["interface", a.interface]), Inner(["ip", "access-group", acl.name, d]);
        var one := c.(mode := InInterface(a.interface));
        assert ReadOne(c, x) == Some(one);
        assert y.words[..2] == ["ip", "access-group"] && y.words[2] == acl.name && y.words[3] == d;
        assert y.words[..3][1] == "access-group";
        var two := one.(bindings := one.bindings + [Binding(a.interface, acl.name, a.direction)]);
        assert ReadOne(one, y) == Some(two);
        hide ReadOne;
        ThreeRead(c, x, y, one, two);
        EmptyConcat([Binding(a.interface, acl.name, a.direction)]);
    }
  }

  lemma ThreeRead(c: Config, x: Line, y: Line, one: Config, two: Config)
    requires ReadOne(c, x) == Some(one) && ReadOne(one, y) == Some(two)
    ensures ReadAll(c, [x, y, SEPARATOR]) == Some(two)
  {
    hide ReadWords;
    assert [x, y, SEPARATOR][1..] == [y, SEPARATOR] && [y, SEPARATOR][1..] == [SEPARATOR];
    ReadSingle(two, SEPARATOR);
    assert ReadAll(one, [y, SEPARATOR]) == ReadAll(two, [SEPARATOR]);
  }

  lemma {:induction false} AllListsRead(c: Config, acls: seq<Acl>)
    ensures var r := ReadAll(c, AllListLines(acls));
            r.Some? && r.value.lists == ListsOf(c.lists, acls) && r.value.bindings == c.bindings
    decreases |acls|
  {
    hide AclLines, EntriesOf, ReadOne, ReadWords;
    if acls != [] {
      AclReads(c, acls[0]);
      var next := Extend(c, acls[0].name, EntriesOf(acls[0].rules)).(mode := InAcl(acls[0].name));
      AllListsRead(next, acls[1..]);
      ReadConcat(c, AclLines(acls[0]), AllListLines(acls[1..]));
    }
  }

  lemma FirstBinding(acls: seq<Acl>)
    requires acls != []
    ensures BindingsOf(acls) == BindingsOf([acls[0]]) + BindingsOf(acls[1..])
  {
    SingletonTail(acls[0]);
    if acls[0].applyTo.Some? {
      EmptyConcat([Binding(acls[0].applyTo.value.interface, acls[0].name, acls[0].applyTo.value.direction)]);
    }
  }

  lemma {:induction false} AllBindingsRead(c: Config, acls: seq<Acl>)
    ensures var r := ReadAll(c, AllBindingLines(acls));
            r.Some? && r.value.lists == c.lists && r.value.bindings == c.bindings + BindingsOf(acls)
    decreases |acls|
  {
    hide BindingLines, ReadOne, ReadWords;
    if acls == [] {
      EmptyConcat(c.bindings);
    } else {
      BindingReads(c, acls[0]);
      var next := ReadAll(c, BindingLines(acls[0])).value;
      AllBindingsRead(next, acls[1..]);
      ReadConcat(c, BindingLines(acls[0]), AllBindingLines(acls[1..]));
      FirstBinding(acls);
      hide BindingsOf, ReadAll;
      ConcatAssociates(c.bindings, BindingsOf([acls[0]]), BindingsOf(acls[1..]));
    }
  }

  /** Rendering any well-formed ACLs succeeds, and the text, split and stripped of blank lines, reads back:
      per name, the rules of its lists in order, each list closed by a deny of everything, and exactly the
      interface bindings that were asked for. */
  lemma RenderingReadsBack(acls: seq<Acl>)
    requires AllFormed(acls)
    ensures var text := Render(Some(Spell(acls)));
            && text.Ok? && ReadText(text.value).Some?
            && ReadText(text.value).value.lists == ListsOf(map[], acls)
            && ReadText(text.value).value.bindings == BindingsOf(acls)
  {
    hide Render, Joined, Texts, AllListLines, AllBindingLines, ReadLines;
    RenderIsLines(acls);
    AllLinesGood(acls);
    var body := AllListLines(acls) + AllBindingLines(acls);
    GoodConcat(AllListLines(acls), AllBindingLines(acls));
    TitleGood();
    GoodConcat([TITLE_LINE], body);
    FilterKeepsLines(AllLines(acls));
    ReadingTexts(BLANK, AllLines(acls));
    ReadSingle(BLANK, TITLE_LINE);
    ReadConcat(BLANK, [TITLE_LINE], body);
    AllListsRead(BLANK, acls);
    ReadConcat(BLANK, AllListLines(acls), AllBindingLines(acls));
    AllBindingsRead(ReadAll(BLANK, AllListLines(acls)).value, acls);
    EmptyConcat(BindingsOf(acls));
  }

  lemma UnbrokenConcat(x: string, y: string)
    requires Unbroken(x) && Unbroken(y)
    ensures Unbroken(x + y)
  {
  }

  lemma TitleUnbroken()
    ensures Unbroken(TITLE)
  {
    assert Unbroken("! ACL Configuration");
    assert Unbroken(" - generated by ");
    assert Unbroken("DevSecOps Platform");
    hide Unbroken;
    UnbrokenConcat("! ACL Configuration", " - generated by ");
    UnbrokenConcat("! ACL Configuration" + " - generated by ", "DevSecOps Platform");
  }

  lemma TitleGood()
    ensures AllGood([TITLE_LINE])
  {
    hide Unbroken;
    TitleUnbroken();
    assert TITLE[0] == '!';
  }

  // ------------------------------------------------------------ evaluation

  lemma {:induction false} EntriesDecide(rules: seq<Rule>, more: seq<Entry>, p: Packet)
    ensures FirstMatch(RulesOf(EntriesOf(rules) + more), p) == FirstMatch(rules, p)
    decreases |rules|
  {
    hide Matches;
    var es := EntriesOf(rules) + more;
    TailOfConcat(EntriesOf(rules), more);
    if rules == [] {
      DenyMatches(p);
    } else {
      EntriesDecide(rules[1..], more, p);
    }
  }

  lemma DenyMatches(p: Packet)
    ensures Matches(DENY_REST.rule, p)
  {
  }

  /** Later lists only append. */
  lemma {:induction false} ListsOnlyGrow(lists: map<string, seq<Entry>>, acls: seq<Acl>, name: string)
    returns (more: seq<Entry>)
    ensures EntriesIn(ListsOf(lists, acls), name) == EntriesIn(lists, name) + more
    ensures (forall i :: 0 <= i < |acls| ==> acls[i].name != name) ==> more == []
    decreases |acls|
  {
    hide EntriesOf;
    if acls == [] {
      more := [];
      EmptyConcat(EntriesIn(lists, name));
    } else {
      var es := EntriesOf(acls[0].rules);
      var next := lists[acls[0].name := EntriesIn(lists, acls[0].name) + es];
      more := ListsOnlyGrow(next, acls[1..], name);
      assert forall i :: 0 <= i < |acls[1..]| ==> acls[1..][i] == acls[i + 1];
      if acls[0].name == name {
        ConcatAssociates(EntriesIn(lists, name), es, more);
        more := es + more;
      }
    }
  }

  /** The first list of its name. */
  ghost predicate FirstOfName(acls: seq<Acl>, i: nat) {
    i < |acls| && forall j :: 0 <= j < i ==> acls[j].name != acls[i].name
  }

  lemma {:induction false} FirstListLeads(lists: map<string, seq<Entry>>, acls: seq<Acl>, i: nat)
    returns (more: seq<Entry>)
    requires FirstOfName(acls, i) && acls[i].name !in lists
    ensures EntriesIn(ListsOf(lists, acls), acls[i].name) == EntriesOf(acls[i].rules) + more
    ensures (forall j :: i < j < |acls| ==> acls[j].name != acls[i].name) ==> more == []
    decreases |acls|
  {
    hide EntriesOf;
    var next := lists[acls[0].name := EntriesIn(lists, acls[0].name) + EntriesOf(acls[0].rules)];
    assert forall k :: 0 <= k < |acls[1..]| ==> acls[1..][k] == acls[k + 1];
    if i == 0 {
      EmptyConcat(EntriesOf(acls[0].rules));
      more := ListsOnlyGrow(next, acls[1..], acls[0].name);
    } else {
      assert acls[0].name != acls[i].name;
      more := FirstListLeads(next, acls[1..], i - 1);
    }
  }

  /** Rendering keeps the meaning: for every packet, the list a device reads under a name decides as the
      first ACL given under that name, with everything unmatched denied. With distinct names the list is
      exactly the ACL's rules and the final deny. A name given twice leaves its later rules unreachable. */
  lemma RenderingKeepsMeaning(acls: seq<Acl>, i: nat, p: Packet)
    requires AllFormed(acls) && FirstOfName(acls, i)
    ensures var text := Render(Some(Spell(acls)));
            && text.Ok? && ReadText(text.value).Some?
            && (var entries := EntriesIn(ReadText(text.value).value.lists, acls[i].name);
                && FirstMatch(RulesOf(entries), p) == FirstMatch(acls[i].rules, p)
                && ((forall j :: i < j < |acls| ==> acls[j].name != acls[i].name)
                    ==> entries == EntriesOf(acls[i].rules)))
  {
    hide Render, ReadText, AllFormed, FirstMatch, EntriesOf, ListsOf;
    RenderingReadsBack(acls);
    var more := FirstListLeads(map[], acls, i);
    EntriesDecide(acls[i].rules, more, p);
    EmptyConcat(EntriesOf(acls[i].rules));
  }
}
