/** The extended-ACL template, printed as Jinja prints it with `trim_blocks`,
    `lstrip_blocks` and `StrictUndefined`. */
module AclTemplate {
  import opened Wrappers

  // The template's variables; every key may be missing.

  datatype RawRule = RawRule(
    action: Option<string>, protocol: Option<string>, source: Option<string>, destination: Option<string>,
    port: Option<string>)

  datatype RawApply = RawApply(interface: Option<string>, direction: Option<string>)

  datatype RawAcl = RawAcl(name: Option<string>, rules: Option<seq<RawRule>>, applyTo: Option<RawApply>)

  type Rendered = Wrappers.Result<string, string>

  const TITLE: string := "! ACL Configuration" + " - generated by " + "DevSecOps Platform"

  /** A strict variable: printing it when undefined raises. */
  function Var(v: Option<string>, name: string): Rendered {
    match v case Some(x) => Ok(x) case None => Err(name)
  }

  function RenderRule(r: RawRule): Rendered {
    var action :- Var(r.action, "action");
    var protocol :- Var(r.protocol, "protocol");
    var source :- Var(r.source, "source");
    var destination :- Var(r.destination, "destination");
    Ok(" " + action + " " + protocol + " " + source + " " + destination
       + (if r.port.Some? then " eq " + r.port.value else "") + "\n")
  }

  function RenderRules(rules: seq<RawRule>): Rendered {
    if rules == [] then Ok("")
    else
      var first :- RenderRule(rules[0]);
      var rest :- RenderRules(rules[1..]);
      Ok(first + rest)
  }

  /** One turn of the first loop. */
  function RenderAcl(acl: RawAcl): Rendered {
    var name :- Var(acl.name, "name");
    if acl.rules.None? then Err("rules")
    else
      var rules :- RenderRules(acl.rules.value);
      Ok("ip access-list extended " + name + "\n" + rules + " deny ip any any log\n" + "!\n")
  }

  function RenderAcls(acls: seq<RawAcl>): Rendered {
    if acls == [] then Ok("")
    else
      var first :- RenderAcl(acls[0]);
      var rest :- RenderAcls(acls[1..]);
      Ok(first + rest)
  }

  /** One turn of the second loop. */
  function RenderBinding(acl: RawAcl): Rendered {
    if acl.applyTo.None? then Ok("")
    else
      var interface :- Var(acl.applyTo.value.interface, "interface");
      var name :- Var(acl.name, "name");
      var direction :- Var(acl.applyTo.value.direction, "direction");
      Ok("interface " + interface + "\n" + " ip access-group " + name + " " + direction + "\n" + "!\n")
  }

  function RenderBindings(acls: seq<RawAcl>): Rendered {
    if acls == [] then Ok("")
    else
      var first :- RenderBinding(acls[0]);
      var rest :- RenderBindings(acls[1..]);
      Ok(first + rest)
  }

  /** `render_template` on acl.j2; an undefined variable is reported by name. */
  function Render(acls: Option<seq<RawAcl>>): Rendered {
    if acls.None? then Err("acls")
    else
      var lists :- RenderAcls(acls.value);
      var bindings :- RenderBindings(acls.value);
      Ok(TITLE + "\n" + lists + bindings)
  }

  // ------------------------------------------------- when rendering raises

  predicate RuleComplete(r: RawRule) {
    r.action.Some? && r.protocol.Some? && r.source.Some? && r.destination.Some?
  }

  predicate ApplyComplete(a: Option<RawApply>) {
    a.Some? ==> a.value.interface.Some? && a.value.direction.Some?
  }

  ghost predicate AclComplete(acl: RawAcl) {
    && acl.name.Some? && acl.rules.Some? && ApplyComplete(acl.applyTo)
    && forall i :: 0 <= i < |acl.rules.value| ==> RuleComplete(acl.rules.value[i])
  }

  lemma {:induction false} RulesRenderExactly(rules: seq<RawRule>)
    ensures RenderRules(rules).Ok? <==> forall i :: 0 <= i < |rules| ==> RuleComplete(rules[i])
  {
    if rules != [] {
      RulesRenderExactly(rules[1..]);
      assert forall i :: 0 < i < |rules| ==> rules[i] == rules[1..][i - 1];
      assert forall i :: 0 <= i < |rules[1..]| ==> rules[1..][i] == rules[i + 1];
    }
  }

  lemma {:induction false} AclsRenderExactly(acls: seq<RawAcl>)
    ensures (RenderAcls(acls).Ok? && RenderBindings(acls).Ok?) <==> forall i :: 0 <= i < |acls| ==> AclComplete(acls[i])
  {
    if acls != [] {
      AclsRenderExactly(acls[1..]);
      if acls[0].rules.Some? { RulesRenderExactly(acls[0].rules.value); }
      assert AclComplete(acls[0]) <==> RenderAcl(acls[0]).Ok? && RenderBinding(acls[0]).Ok?;
      assert forall i :: 0 < i < |acls| ==> acls[i] == acls[1..][i - 1];
      assert forall i :: 0 <= i < |acls[1..]| ==> acls[1..][i] == acls[i + 1];
    }
  }

  /** Rendering succeeds exactly when no variable but the optional `port` and `apply_to` is missing: a
      partial configuration is never produced. */
  lemma RendersExactly(acls: Option<seq<RawAcl>>)
    ensures Render(acls).Ok? <==> acls.Some? && forall i :: 0 <= i < |acls.value| ==> AclComplete(acls.value[i])
  {
    if acls.Some? { AclsRenderExactly(acls.value); }
  }

  // ---------------------------------------------- which variable is reported

  predicate RuleLacks(r: RawRule, name: string) {
    || (name == "action" && r.action == None) || (name == "protocol" && r.protocol == None)
    || (name == "source" && r.source == None) || (name == "destination" && r.destination == None)
  }

  ghost predicate AclLacks(acl: RawAcl, name: string) {
    || (name == "name" && acl.name == None) || (name == "rules" && acl.rules == None)
    || (acl.rules.Some? && exists i :: 0 <= i < |acl.rules.value| && RuleLacks(acl.rules.value[i], name))
    || (acl.applyTo.Some? && name == "interface" && acl.applyTo.value.interface == None)
    || (acl.applyTo.Some? && name == "direction" && acl.applyTo.value.direction == None)
  }

  lemma {:induction false} RulesNameMissing(rules: seq<RawRule>)
    ensures RenderRules(rules).Err? ==> exists i :: 0 <= i < |rules| && RuleLacks(rules[i], RenderRules(rules).error)
  {
    if rules != [] && RenderRules(rules).Err? {
      if RenderRule(rules[0]).Err? {
        assert RuleLacks(rules[0], RenderRules(rules).error);
      } else {
        RulesNameMissing(rules[1..]);
        var i :| 0 <= i < |rules[1..]| && RuleLacks(rules[1..][i], RenderRules(rules).error);
        assert rules[i + 1] == rules[1..][i];
      }
    }
  }

  lemma {:induction false} AclsNameMissing(acls: seq<RawAcl>)
    ensures RenderAcls(acls).Err? ==> exists i :: 0 <= i < |acls| && AclLacks(acls[i], RenderAcls(acls).error)
    ensures RenderBindings(acls).Err? ==> exists i :: 0 <= i < |acls| && AclLacks(acls[i], RenderBindings(acls).error)
  {
    if acls != [] {
      AclsNameMissing(acls[1..]);
      assert forall i :: 0 <= i < |acls[1..]| ==> acls[1..][i] == acls[i + 1];
      if acls[0].rules.Some? { RulesNameMissing(acls[0].rules.value); }
      assert RenderAcl(acls[0]).Err? ==> AclLacks(acls[0], RenderAcl(acls[0]).error);
      assert RenderBinding(acls[0]).Err? ==> AclLacks(acls[0], RenderBinding(acls[0]).error);
    }
  }

  /** The error of a failed rendering names a variable that is missing. */
  lemma {:induction false} ErrorNamesMissing(acls: Option<seq<RawAcl>>)
    requires Render(acls).Err?
    ensures if acls.None? then Render(acls).error == "acls"
            else exists i :: 0 <= i < |acls.value| && AclLacks(acls.value[i], Render(acls).error)
  {
    if acls.Some? { AclsNameMissing(acls.value); }
  }
}
