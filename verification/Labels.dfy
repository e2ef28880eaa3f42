/** The deploy-label language (labels.go): what a service asks for. */
module Labels {
  import opened Text
  import opened Glob
  import opened Targets
  import opened Gateway

  datatype Network = Network(id: string, name: string)

  /** The parser's settings; an empty namespace or network means the built-in default. */
  datatype Rules = Rules(namespace: string, allowedTags: seq<string>, defaultNetwork: string) {
    function Namespace(): string { if namespace == "" then "tailswarm" else namespace }
    function DefaultNetwork(): string { if defaultNetwork == "" then "tailswarm-overlay" else defaultNetwork }
    function Key(suffix: string): string { Namespace() + "." + suffix }
  }

  datatype Target = Target(
    serviceName: string, stack: string, network: string, hostname: string, tag: string,
    ports: seq<nat>, ingress: bool, egress: Option<EgressSpec>)

  datatype ParseError = UnknownNetwork | TagNotAllowed | NoTCPPorts | NoEgressTargets | BadEgressTarget | EgressTagNotAllowed

  datatype Parsed<+T> = Parsed(value: T) | Bad(error: ParseError)

  datatype Outcome = Disabled | Malformed(error: ParseError) | Enabled(target: Target)

  function Lower(s: string): string {
    if s == "" then ""
    else [if 'A' <= s[0] <= 'Z' then ((s[0] as int) + 32) as char else s[0]] + Lower(s[1..])
  }

  predicate IsTrue(s: string) { Lower(TrimSpace(s)) in {"true", "1", "yes", "on"} }

  /** The same word but for the case of its letters. */
  predicate SameFold(s: string, word: string) {
    |s| == |word| && forall i :: 0 <= i < |word| ==> s[i] == word[i] || ('a' <= word[i] <= 'z' && s[i] as int + 32 == word[i] as int)
  }

  lemma {:induction false} LowerIff(s: string, word: string)
    requires forall i :: 0 <= i < |word| ==> !('A' <= word[i] <= 'Z')
    ensures Lower(s) == word <==> SameFold(s, word)
  {
    if s != "" && word != "" {
      LowerIff(s[1..], word[1..]);
      var c := if 'A' <= s[0] <= 'Z' then ((s[0] as int) + 32) as char else s[0];
      assert Lower(s) == [c] + Lower(s[1..]) && word == [word[0]] + word[1..];
      assert Lower(s) == word <==> c == word[0] && Lower(s[1..]) == word[1..];
    }
  }

  /** What counts as yes: one of four words in any case, blanks around it. */
  lemma IsTrueIff(s: string)
    ensures IsTrue(s) <==> exists word :: word in {"true", "1", "yes", "on"} && SameFold(TrimSpace(s), word)
  {
    hide TrimSpace;
    hide Lower;
    forall word | word in {"true", "1", "yes", "on"} ensures Lower(TrimSpace(s)) == word <==> SameFold(TrimSpace(s), word) {
      LowerIff(TrimSpace(s), word);
    }
    hide SameFold;
    if IsTrue(s) {
      var word := Lower(TrimSpace(s));
      assert word in {"true", "1", "yes", "on"} && SameFold(TrimSpace(s), word);
    }
  }

  // ---------- networks and ports ----------

  function NamesById(networks: seq<Network>): map<string, string> {
    if networks == [] then map[]
    else NamesById(networks[..|networks| - 1])[networks[|networks| - 1].id := networks[|networks| - 1].name]
  }

  function Attached(spec: ServiceSpec): seq<NetworkAttachment> {
    if spec.networks == [] then spec.legacyNetworks else spec.networks
  }

  predicate AttachedTo(spec: ServiceSpec, networks: seq<Network>, name: string) {
    exists i :: 0 <= i < |Attached(spec)| &&
      (Attached(spec)[i].target == name || Lookup(NamesById(networks), Attached(spec)[i].target) == Some(name))
  }

  function Lookup(m: map<string, string>, k: string): Option<string> { if k in m then Some(m[k]) else None }

  /** The cluster lists the ID under the name, the last listing of an ID counting. */
  predicate ListedAs(networks: seq<Network>, id: string, name: string) {
    exists i :: 0 <= i < |networks| && networks[i] == Network(id, name) && forall j :: i < j < |networks| ==> networks[j].id != id
  }

  lemma {:induction false} NamesByIdIff(networks: seq<Network>, id: string, name: string)
    ensures Lookup(NamesById(networks), id) == Some(name) <==> ListedAs(networks, id, name)
  {
    if networks != [] {
      var n := |networks| - 1;
      var init := networks[..n];
      NamesByIdIff(init, id, name);
      if networks[n].id == id {
        assert networks[n] == Network(id, networks[n].name);
      } else {
        assert forall i :: 0 <= i < n ==> init[i] == networks[i];
        if ListedAs(networks, id, name) {
          var i :| 0 <= i < |networks| && networks[i] == Network(id, name) && forall j :: i < j < |networks| ==> networks[j].id != id;
          assert init[i] == Network(id, name) && forall j :: i < j < |init| ==> init[j].id != id;
        }
      }
    }
  }

  /** A service is on a network if one of its attachments names it or an ID listed under that
      name. Only a service without task-level attachments is looked at by its old ones. */
  lemma AttachedIff(spec: ServiceSpec, networks: seq<Network>, name: string)
    ensures AttachedTo(spec, networks, name) <==>
            exists a :: a in (if spec.networks != [] then spec.networks else spec.legacyNetworks) &&
              (a.target == name || ListedAs(networks, a.target, name))
  {
    hide NamesById;
    hide Lookup;
    hide ListedAs;
    var attached := Attached(spec);
    forall i | 0 <= i < |attached|
      ensures Lookup(NamesById(networks), attached[i].target) == Some(name) <==> ListedAs(networks, attached[i].target, name) {
      NamesByIdIff(networks, attached[i].target, name);
    }
    if a :| a in attached && (a.target == name || ListedAs(networks, a.target, name)) {
      var i :| 0 <= i < |attached| && attached[i] == a;
      assert Attached(spec)[i].target == name || Lookup(NamesById(networks), Attached(spec)[i].target) == Some(name);
    }
  }

  /** serviceAttachedTo. */
  method ServiceAttachedTo(spec: ServiceSpec, networks: seq<Network>, name: string) returns (ok: bool)
    ensures ok <==> AttachedTo(spec, networks, name)
  {
    var byID: map<string, string> := map[];
    for i := 0 to |networks|
      invariant byID == NamesById(networks[..i])
    {
      assert networks[..i + 1][..i] == networks[..i];
      byID := byID[networks[i].id := networks[i].name];
    }
    assert networks[..|networks|] == networks;
    var attached := spec.networks;
    if |attached| == 0 {
      attached := spec.legacyNetworks;
    }
    assert attached == Attached(spec);
    for i := 0 to |attached|
      invariant forall j :: 0 <= j < i ==> attached[j].target != name && Lookup(byID, attached[j].target) != Some(name)
    {
      if attached[i].target == name {
        return true;
      }
      if attached[i].target in byID && byID[attached[i].target] == name {
        assert Lookup(NamesById(networks), Attached(spec)[i].target) == Some(name);
        return true;
      }
    }
    return false;
  }

  predicate IsTCP(p: PortConfig) { p.protocol in {"", "tcp"} && p.targetPort != 0 }

  /** TCP target ports in declaration order, first occurrences only. */
  function PortsFrom(ports: seq<PortConfig>, seen: set<nat>): seq<nat> {
    if ports == [] then []
    else if IsTCP(ports[0]) && ports[0].targetPort !in seen
    then [ports[0].targetPort] + PortsFrom(ports[1..], seen + {ports[0].targetPort})
    else PortsFrom(ports[1..], seen)
  }

  function Ports(spec: ServiceSpec): seq<nat> {
    if spec.ports.None? then [] else PortsFrom(spec.ports.value, {})
  }

  /** tcpPorts. */
  method TcpPorts(spec: ServiceSpec) returns (out: seq<nat>)
    ensures out == Ports(spec)
  {
    out := [];
    if spec.ports.None? {
      return;
    }
    var ports := spec.ports.value;
    var seen: set<nat> := {};
    assert ports[0..] == ports;
    for i := 0 to |ports|
      invariant out + PortsFrom(ports[i..], seen) == Ports(spec)
    {
      assert ports[i..][1..] == ports[i + 1..];
      var p := ports[i];
      if p.protocol != "" && p.protocol != "tcp" {
        continue;
      }
      if p.targetPort == 0 {
        continue;
      }
      if p.targetPort in seen {
        continue;
      }
      assert out + ([p.targetPort] + PortsFrom(ports[i + 1..], seen + {p.targetPort})) ==
             (out + [p.targetPort]) + PortsFrom(ports[i + 1..], seen + {p.targetPort});
      seen := seen + {p.targetPort};
      out := out + [p.targetPort];
    }
  }

  /** The ports are exactly the declared TCP ports, each once. */
  lemma {:induction false} PortsExact(ports: seq<PortConfig>, seen: set<nat>)
    ensures var r := PortsFrom(ports, seen);
            && (forall p :: p in r <==>
                  p !in seen && p != 0 && exists c :: c in ports && (c.protocol == "" || c.protocol == "tcp") && c.targetPort == p)
            && (forall i, j :: 0 <= i < j < |r| ==> r[i] != r[j])
  {
    if ports != [] {
      var c0 := ports[0];
      assert forall c :: c in ports <==> c == c0 || c in ports[1..];
      if IsTCP(c0) && c0.targetPort !in seen {
        PortsExact(ports[1..], seen + {c0.targetPort});
      } else {
        PortsExact(ports[1..], seen);
      }
    }
  }

  predicate Declares(ports: seq<PortConfig>, p: nat) { exists c :: c in ports && IsTCP(c) && c.targetPort == p }

  lemma DeclaresCons(c: PortConfig, ports: seq<PortConfig>, p: nat)
    ensures Declares([c] + ports, p) <==> (IsTCP(c) && c.targetPort == p) || Declares(ports, p)
  {
    hide IsTCP;
    assert c in [c] + ports;
    forall x | x in ports ensures x in [c] + ports {}
  }

  /** Port `p` is declared before `q` is. */
  predicate Before(ports: seq<PortConfig>, p: nat, q: nat) {
    exists k :: 0 <= k < |ports| && IsTCP(ports[k]) && ports[k].targetPort == p && !Declares(ports[..k + 1], q)
  }

  lemma BeforeCons(c: PortConfig, ports: seq<PortConfig>, p: nat, q: nat)
    requires Before(ports, p, q) && !(IsTCP(c) && c.targetPort == q)
    ensures Before([c] + ports, p, q)
  {
    hide IsTCP;
    hide Declares;
    var k :| 0 <= k < |ports| && IsTCP(ports[k]) && ports[k].targetPort == p && !Declares(ports[..k + 1], q);
    var all := [c] + ports;
    DeclaresCons(c, ports[..k + 1], q);
    assert all[..k + 2] == [c] + ports[..k + 1] && all[k + 1] == ports[k];
    assert !Declares(all[..k + 1 + 1], q);
  }

  lemma BeforeFirst(c: PortConfig, ports: seq<PortConfig>, q: nat)
    requires IsTCP(c) && c.targetPort != q
    ensures Before([c] + ports, c.targetPort, q)
  {
    var all := [c] + ports;
    assert all[..0 + 1] == [c] && all[0] == c;
  }

  /** And they come in the order in which they are first declared. */
  lemma {:induction false} PortsInOrder(ports: seq<PortConfig>, seen: set<nat>, i: nat, j: nat)
    requires i < j < |PortsFrom(ports, seen)|
    ensures Before(ports, PortsFrom(ports, seen)[i], PortsFrom(ports, seen)[j])
  {
    hide IsTCP;
    hide Before;
    var c0, rest := ports[0], ports[1..];
    assert ports == [c0] + rest;
    var r := PortsFrom(ports, seen);
    PortsExact(ports, seen);
    assert r[j] in r && r[j] !in seen;
    if IsTCP(c0) && c0.targetPort !in seen {
      if i == 0 {
        BeforeFirst(c0, rest, r[j]);
      } else {
        assert r[0] == c0.targetPort && r[0] != r[j];
        PortsInOrder(rest, seen + {c0.targetPort}, i - 1, j - 1);
        BeforeCons(c0, rest, r[i], r[j]);
      }
    } else {
      PortsInOrder(rest, seen, i, j);
      BeforeCons(c0, rest, r[i], r[j]);
    }
  }

  // ---------- Labels.Parse ----------

  predicate TagOk(tag: string, derived: string, allowed: seq<string>) {
    tag == derived || exists i :: 0 <= i < |allowed| && GreedyMatch(allowed[i], tag)
  }

  lemma TagOkIff(tag: string, derived: string, allowed: seq<string>)
    ensures TagOk(tag, derived, allowed) <==> AllowedTag(tag, derived, allowed)
  {
    forall i | 0 <= i < |allowed| ensures GreedyMatch(allowed[i], tag) <==> Matches(allowed[i], tag) {
      GreedyDecidesMatch(allowed[i], tag);
    }
  }

  function ShortName(spec: ServiceSpec): string {
    var prefix := Get(spec.labels, "com.docker.stack.namespace") + "_";
    if HasPrefix(spec.name, prefix) then spec.name[|prefix|..] else spec.name
  }

  function DerivedTag(spec: ServiceSpec): string { "tag:swarm-" + ShortName(spec) }

  /** A network override must name an attached network. */
  function PickNetwork(rules: Rules, spec: ServiceSpec, networks: seq<Network>, key: string): Parsed<string> {
    var override := Get(spec.labels, key);
    if override == "" then Parsed(rules.DefaultNetwork())
    else if AttachedTo(spec, networks, override) then Parsed(override)
    else Bad(UnknownNetwork)
  }

  function PickTag(rules: Rules, spec: ServiceSpec, key: string, error: ParseError): Parsed<string> {
    var override := Get(spec.labels, key);
    if override == "" then Parsed(DerivedTag(spec))
    else if TagOk(override, DerivedTag(spec), rules.allowedTags) then Parsed(override)
    else Bad(error)
  }

  function BaseName(spec: ServiceSpec): string {
    var stack := Get(spec.labels, "com.docker.stack.namespace");
    if stack != "" then stack + "-" + ShortName(spec) else ShortName(spec)
  }

  /** parseIngress: the inbound fields filled into `tgt`. */
  function ParseIngress(rules: Rules, spec: ServiceSpec, networks: seq<Network>, tgt: Target): Parsed<Target> {
    match PickNetwork(rules, spec, networks, rules.Key("network"))
    case Bad(e) => Bad(e)
    case Parsed(network) =>
      match PickTag(rules, spec, rules.Key("tag"), TagNotAllowed)
      case Bad(e) => Bad(e)
      case Parsed(tag) =>
        if Ports(spec) == [] then Bad(NoTCPPorts)
        else
          var hostname := Get(spec.labels, rules.Key("hostname"));
          Parsed(tgt.(ingress := true, network := network, tag := tag, ports := Ports(spec),
                      hostname := if hostname == "" then BaseName(spec) else hostname))
  }

  /** parseEgress. */
  function ParseEgress(rules: Rules, spec: ServiceSpec, networks: seq<Network>): Parsed<EgressSpec> {
    match Targets.Parse(Get(spec.labels, rules.Key("egress.targets")))
    case None => Bad(BadEgressTarget)
    case Some(targets) =>
      if targets == [] then Bad(NoEgressTargets)
      else match PickNetwork(rules, spec, networks, rules.Key("egress.network"))
        case Bad(e) => Bad(e)
        case Parsed(network) =>
          match PickTag(rules, spec, rules.Key("egress.tag"), EgressTagNotAllowed)
          case Bad(e) => Bad(e)
          case Parsed(tag) =>
            var hostname := Get(spec.labels, rules.Key("egress.hostname"));
            Parsed(EgressSpec(if hostname == "" then BaseName(spec) + "-egress" else hostname, tag, network, targets))
  }

  predicate IngressOn(rules: Rules, spec: ServiceSpec) { IsTrue(Get(spec.labels, rules.Key("enable"))) }

  predicate EgressOn(rules: Rules, spec: ServiceSpec) { IsTrue(Get(spec.labels, rules.Key("egress.enable"))) }

  /** Labels.Parse. */
  function ParseLabels(rules: Rules, spec: ServiceSpec, networks: seq<Network>): Outcome {
    if !IngressOn(rules, spec) && !EgressOn(rules, spec) then Disabled
    else
      var blank := Target(spec.name, Get(spec.labels, "com.docker.stack.namespace"), "", "", "", [], false, None);
      var ing := if IngressOn(rules, spec) then ParseIngress(rules, spec, networks, blank) else Parsed(blank);
      match ing
      case Bad(e) => Malformed(e)
      case Parsed(tgt) =>
        if !EgressOn(rules, spec) then Enabled(tgt)
        else match ParseEgress(rules, spec, networks)
          case Bad(e) => Malformed(e)
          case Parsed(eg) => Enabled(tgt.(egress := Some(eg)))
  }

  /** A label of the daemon's namespace; absent reads as empty. */
  function LabelOf(rules: Rules, spec: ServiceSpec, suffix: string): string {
    Get(spec.labels, (if rules.namespace == "" then "tailswarm" else rules.namespace) + "." + suffix)
  }

  function StackOf(spec: ServiceSpec): string { Get(spec.labels, "com.docker.stack.namespace") }

  /** The service's name without the stack it belongs to. */
  lemma ShortNameIff(spec: ServiceSpec, short: string)
    ensures ShortName(spec) == short <==>
            || spec.name == StackOf(spec) + "_" + short
            || (short == spec.name && forall rest :: spec.name != StackOf(spec) + "_" + rest)
  {
    var prefix := StackOf(spec) + "_";
    if HasPrefix(spec.name, prefix) {
      assert spec.name == prefix + spec.name[|prefix|..];
    }
    forall rest | spec.name == prefix + rest ensures HasPrefix(spec.name, prefix) && rest == spec.name[|prefix|..] {}
  }

  function Or(override: string, default: string): string { if override == "" then default else override }

  /** The name derived from stack and service. */
  function Derived(spec: ServiceSpec): string {
    if StackOf(spec) == "" then ShortName(spec) else StackOf(spec) + "-" + ShortName(spec)
  }

  function Overlay(rules: Rules): string { Or(rules.defaultNetwork, "tailswarm-overlay") }

  /** The network is the one asked for, which is attached, or the default. */
  ghost predicate RightNetwork(rules: Rules, spec: ServiceSpec, networks: seq<Network>, suffix: string, network: string) {
    && network == Or(LabelOf(rules, spec, suffix), Overlay(rules))
    && (LabelOf(rules, spec, suffix) != "" ==> AttachedTo(spec, networks, network))
  }

  /** The tag is the one asked for, which is allowed, or the derived one. */
  ghost predicate RightTag(rules: Rules, spec: ServiceSpec, suffix: string, tag: string) {
    && tag == Or(LabelOf(rules, spec, suffix), "tag:swarm-" + ShortName(spec))
    && AllowedTag(tag, "tag:swarm-" + ShortName(spec), rules.allowedTags)
  }

  lemma PickedNetwork(rules: Rules, spec: ServiceSpec, networks: seq<Network>, suffix: string)
    requires PickNetwork(rules, spec, networks, rules.Key(suffix)).Parsed?
    ensures RightNetwork(rules, spec, networks, suffix, PickNetwork(rules, spec, networks, rules.Key(suffix)).value)
  {
    hide AttachedTo;
    KeyReads(rules, spec);
  }

  lemma PickedTag(rules: Rules, spec: ServiceSpec, suffix: string, error: ParseError)
    requires PickTag(rules, spec, rules.Key(suffix), error).Parsed?
    ensures RightTag(rules, spec, suffix, PickTag(rules, spec, rules.Key(suffix), error).value)
  {
    hide TagOk;
    hide Matches;
    hide ShortName;
    KeyReads(rules, spec);
    TagOkIff(Get(spec.labels, rules.Key(suffix)), DerivedTag(spec), rules.allowedTags);
  }

  lemma IngressFields(rules: Rules, spec: ServiceSpec, networks: seq<Network>, blank: Target)
    requires ParseIngress(rules, spec, networks, blank).Parsed?
    ensures var tgt := ParseIngress(rules, spec, networks, blank).value;
            && tgt.ingress && tgt.serviceName == blank.serviceName && tgt.stack == blank.stack && tgt.egress == blank.egress
            && tgt.hostname == Or(LabelOf(rules, spec, "hostname"), Derived(spec))
            && RightTag(rules, spec, "tag", tgt.tag) && RightNetwork(rules, spec, networks, "network", tgt.network)
            && tgt.ports == Ports(spec) != []
  {
    hide PickNetwork;
    hide PickTag;
    hide RightNetwork;
    hide RightTag;
    hide Ports;
    hide ShortName;
    KeyReads(rules, spec);
    PickedNetwork(rules, spec, networks, "network");
    PickedTag(rules, spec, "tag", TagNotAllowed);
  }

  lemma EgressFields(rules: Rules, spec: ServiceSpec, networks: seq<Network>)
    requires ParseEgress(rules, spec, networks).Parsed?
    ensures var eg := ParseEgress(rules, spec, networks).value;
            && eg.hostname == Or(LabelOf(rules, spec, "egress.hostname"), Derived(spec) + "-egress")
            && RightTag(rules, spec, "egress.tag", eg.tag) && RightNetwork(rules, spec, networks, "egress.network", eg.network)
            && Targets.Parse(LabelOf(rules, spec, "egress.targets")) == Some(eg.targets)
            && eg.targets != [] && AllGood(eg.targets)
  {
    hide PickNetwork;
    hide PickTag;
    hide RightNetwork;
    hide RightTag;
    hide Targets.Parse;
    hide AllGood;
    hide ShortName;
    KeyReads(rules, spec);
    ParseGood(Get(spec.labels, rules.Key("egress.targets")));
    PickedNetwork(rules, spec, networks, "egress.network");
    PickedTag(rules, spec, "egress.tag", EgressTagNotAllowed);
  }

  /** What acceptance means, field by field: each direction is filled in exactly when its own
      opt-in label says so; hostname, tag and network are what the label asks for, or else the
      derived name, the derived tag and the default network; a tag asked for matches the
      allowlist or is the derived one, a network asked for is attached; ingress has the
      declared TCP ports and egress the targets its label spells. */
  lemma AcceptedTarget(rules: Rules, spec: ServiceSpec, networks: seq<Network>)
    requires ParseLabels(rules, spec, networks).Enabled?
    ensures var tgt := ParseLabels(rules, spec, networks).target;
            && tgt.serviceName == spec.name && tgt.stack == StackOf(spec)
            && (tgt.ingress <==> IsTrue(LabelOf(rules, spec, "enable")))
            && (tgt.egress.Some? <==> IsTrue(LabelOf(rules, spec, "egress.enable")))
            && (tgt.ingress ==>
                  && tgt.hostname == Or(LabelOf(rules, spec, "hostname"), Derived(spec))
                  && RightTag(rules, spec, "tag", tgt.tag) && RightNetwork(rules, spec, networks, "network", tgt.network)
                  && tgt.ports == Ports(spec) != [])
            && (tgt.egress.Some? ==>
                  var eg := tgt.egress.value;
                  && eg.hostname == Or(LabelOf(rules, spec, "egress.hostname"), Derived(spec) + "-egress")
                  && RightTag(rules, spec, "egress.tag", eg.tag) && RightNetwork(rules, spec, networks, "egress.network", eg.network)
                  && Targets.Parse(LabelOf(rules, spec, "egress.targets")) == Some(eg.targets)
                  && eg.targets != [] && AllGood(eg.targets))
  {
    hide IsTrue;
    hide ParseIngress;
    hide ParseEgress;
    hide Targets.Parse;
    hide AllGood;
    hide Ports;
    hide RightTag;
    hide RightNetwork;
    hide Derived;
    KeyReads(rules, spec);
    var blank := Target(spec.name, Get(spec.labels, "com.docker.stack.namespace"), "", "", "", [], false, None);
    if IngressOn(rules, spec) {
      IngressFields(rules, spec, networks, blank);
    }
    if EgressOn(rules, spec) {
      EgressFields(rules, spec, networks);
    }
  }

  lemma KeyReads(rules: Rules, spec: ServiceSpec)
    ensures forall suffix :: Get(spec.labels, rules.Key(suffix)) == LabelOf(rules, spec, suffix)
  {
  }

  /** The label is absent or empty, or names an attached network. */
  predicate NetworkFine(rules: Rules, spec: ServiceSpec, networks: seq<Network>, suffix: string) {
    var name := Get(spec.labels, rules.Key(suffix));
    name == "" || AttachedTo(spec, networks, name)
  }

  /** The label is absent or empty, or an allowed tag. */
  ghost predicate TagFine(rules: Rules, spec: ServiceSpec, suffix: string) {
    var tag := Get(spec.labels, rules.Key(suffix));
    tag == "" || AllowedTag(tag, DerivedTag(spec), rules.allowedTags)
  }

  ghost predicate IngressFine(rules: Rules, spec: ServiceSpec, networks: seq<Network>) {
    NetworkFine(rules, spec, networks, "network") && TagFine(rules, spec, "tag") && Ports(spec) != []
  }

  ghost predicate EgressFine(rules: Rules, spec: ServiceSpec, networks: seq<Network>) {
    && NetworkFine(rules, spec, networks, "egress.network") && TagFine(rules, spec, "egress.tag")
    && Targets.Parse(Get(spec.labels, rules.Key("egress.targets"))).Some?
    && Targets.Parse(Get(spec.labels, rules.Key("egress.targets"))).value != []
  }

  /** Exactly when labels are accepted, ignored or rejected: one malformed direction spoils
      both. */
  lemma OutcomeIff(rules: Rules, spec: ServiceSpec, networks: seq<Network>)
    ensures var o := ParseLabels(rules, spec, networks);
            var ing, egr := IngressOn(rules, spec), EgressOn(rules, spec);
            && (o.Disabled? <==> !ing && !egr)
            && (o.Enabled? <==> (ing || egr) && (ing ==> IngressFine(rules, spec, networks)) && (egr ==> EgressFine(rules, spec, networks)))
  {
    hide IsTrue;
    hide TagOk;
    hide Targets.Parse;
    hide Matches;
    hide AttachedTo;
    hide AllowedTag;
    hide Ports;
    TagOkIff(Get(spec.labels, rules.Key("tag")), DerivedTag(spec), rules.allowedTags);
    TagOkIff(Get(spec.labels, rules.Key("egress.tag")), DerivedTag(spec), rules.allowedTags);
  }

  /** The first check that fails, in the order the labels are read. */
  ghost function FirstError(rules: Rules, spec: ServiceSpec, networks: seq<Network>): Option<ParseError> {
    var targets := Targets.Parse(LabelOf(rules, spec, "egress.targets"));
    var ing, egr := IngressOn(rules, spec), EgressOn(rules, spec);
    if ing && !NetworkFine(rules, spec, networks, "network") then Some(UnknownNetwork)
    else if ing && !TagFine(rules, spec, "tag") then Some(TagNotAllowed)
    else if ing && Ports(spec) == [] then Some(NoTCPPorts)
    else if egr && targets.None? then Some(BadEgressTarget)
    else if egr && targets.value == [] then Some(NoEgressTargets)
    else if egr && !NetworkFine(rules, spec, networks, "egress.network") then Some(UnknownNetwork)
    else if egr && !TagFine(rules, spec, "egress.tag") then Some(EgressTagNotAllowed)
    else None
  }

  /** Which error is reported. */
  lemma ErrorIs(rules: Rules, spec: ServiceSpec, networks: seq<Network>)
    ensures var o := ParseLabels(rules, spec, networks);
            (if o.Malformed? then Some(o.error) else None) == FirstError(rules, spec, networks)
  {
    hide IsTrue;
    hide TagOk;
    hide Targets.Parse;
    hide Matches;
    hide AttachedTo;
    hide AllowedTag;
    hide Ports;
    TagOkIff(Get(spec.labels, rules.Key("tag")), DerivedTag(spec), rules.allowedTags);
    TagOkIff(Get(spec.labels, rules.Key("egress.tag")), DerivedTag(spec), rules.allowedTags);
    KeyReads(rules, spec);
  }

  /** A gateway carries neither opt-in label, whatever namespace is configured. */
  lemma GatewayNeverOptsIn(rules: Rules, spec: ServiceSpec)
    requires spec.labels.Keys == {GATEWAY_FOR}
    ensures rules.Key("enable") !in spec.labels && rules.Key("egress.enable") !in spec.labels
    ensures forall networks :: ParseLabels(rules, spec, networks) == Disabled
  {
    var a, b := rules.Key("enable"), rules.Key("egress.enable");
    assert a[|a| - 1] == 'e' && b[|b| - 1] == 'e';
    assert GATEWAY_FOR[|GATEWAY_FOR| - 1] == 'r';
    TrimSpaceTrims("");
    assert Lower("") == "";
    assert !IsTrue("");
  }
}
