/** Egress target lists: the label parser, the encoder the gateway env uses, and how
    far each undoes the other. */
module Targets {
  import opened Text

  datatype EgressTarget = EgressTarget(host: string, port: nat)

  /** EgressTarget.addr. */
  function Addr(t: EgressTarget): string { t.host + ":" + Decimal(t.port) }

  /** The targets the parser can produce. */
  predicate Good(t: EgressTarget) {
    t.host != "" && Trimmed(t.host) && ',' !in t.host && ':' !in t.host && 1 <= t.port <= 65535
  }

  predicate AllGood(ts: seq<EgressTarget>) { forall i :: 0 <= i < |ts| ==> Good(ts[i]) }

  lemma AddrInjective(t: EgressTarget, u: EgressTarget)
    requires Good(t) && Good(u) && Addr(t) == Addr(u)
    ensures t == u
  {
    CutAt(t.host, Decimal(t.port), ':');
    CutAt(u.host, Decimal(u.port), ':');
    DecimalRoundTrip(t.port);
    DecimalRoundTrip(u.port);
  }

  // ---------- parseEgressTargets ----------

  function ParseEntry(entry: string): Option<EgressTarget> {
    match Cut(entry, ':')
    case None => None
    case Some(p) =>
      var host := TrimSpace(p.0);
      var portStr := TrimSpace(p.1);
      if host == "" || portStr == "" then None
      else match ParseUint16(portStr)
        case None => None
        case Some(port) => if port == 0 then None else Some(EgressTarget(host, port))
  }

  /** The entries in declaration order, blanks skipped, repeats of a trimmed entry
      dropped; None when an entry is malformed. */
  function ParseEntries(entries: seq<string>, seen: set<string>): Option<seq<EgressTarget>> {
    if entries == [] then Some([])
    else
      var entry := TrimSpace(entries[0]);
      if entry == "" then ParseEntries(entries[1..], seen)
      else match ParseEntry(entry)
        case None => None
        case Some(t) =>
          if entry in seen then ParseEntries(entries[1..], seen)
          else match ParseEntries(entries[1..], seen + {entry})
            case None => None
            case Some(rest) => Some([t] + rest)
  }

  function Parse(raw: string): Option<seq<EgressTarget>> {
    if TrimSpace(raw) == "" then Some([]) else ParseEntries(Split(raw, ','), {})
  }

  /** The loop of parseEgressTargets. */
  method ParseEgressTargets(raw: string) returns (r: Option<seq<EgressTarget>>)
    ensures r == Parse(raw)
  {
    hide TrimSpace;
    hide ParseEntry;
    hide Split;
    if TrimSpace(raw) == "" {
      return Some([]);
    }
    var seen: set<string> := {};
    var out: seq<EgressTarget> := [];
    var entries := Split(raw, ',');
    assert entries[0..] == entries && forall rest: seq<EgressTarget> :: out + rest == rest;
    for i := 0 to |entries|
      invariant Parse(raw) == match ParseEntries(entries[i..], seen) {
                                case None => None
                                case Some(rest) => Some(out + rest)
                              }
    {
      assert entries[i..][0] == entries[i] && entries[i..][1..] == entries[i + 1..];
      var entry := TrimSpace(entries[i]);
      if entry == "" {
        continue;
      }
      var t := ParseEntry(entry);
      if t.None? {
        return None;
      }
      if entry in seen {
        continue;
      }
      seen := seen + {entry};
      ghost var before := out;
      out := out + [t.value];
      assert forall rest :: before + ([t.value] + rest) == out + rest;
    }
    assert entries[|entries|..] == [] && out + [] == out;
    return Some(out);
  }

  // ---------- encodeTargets ----------

  function Addrs(ts: seq<EgressTarget>): (r: seq<string>)
    ensures |r| == |ts| && forall i :: 0 <= i < |ts| ==> r[i] == Addr(ts[i])
  {
    if ts == [] then [] else [Addr(ts[0])] + Addrs(ts[1..])
  }

  function Encode(ts: seq<EgressTarget>): string { Join(Addrs(ts), ',') }

  method EncodeTargets(targets: seq<EgressTarget>) returns (s: string)
    ensures s == Encode(targets)
  {
    var parts := new string[|targets|];
    for i := 0 to |targets|
      invariant forall j :: 0 <= j < i ==> parts[j] == Addr(targets[j])
    {
      parts[i] := Addr(targets[i]);
    }
    assert parts[..] == Addrs(targets);
    s := Join(parts[..], ',');
  }

  // ---------- what parsing accepts ----------

  lemma ParseEntryGood(entry: string)
    requires ParseEntry(entry).Some? && ',' !in entry
    ensures Good(ParseEntry(entry).value)
  {
    hide TrimSpace;
    hide Cut;
    hide DecimalValue;
    CutParts(entry, ':');
    var p := Cut(entry, ':').value;
    assert forall c :: c in p.0 ==> c in entry;
    TrimSpaceTrims(p.0);
  }

  lemma {:induction false} ParseEntriesGood(entries: seq<string>, seen: set<string>)
    requires forall i :: 0 <= i < |entries| ==> ',' !in entries[i]
    requires ParseEntries(entries, seen).Some?
    ensures AllGood(ParseEntries(entries, seen).value)
  {
    hide TrimSpace;
    hide ParseEntry;
    hide Good;
    if entries != [] {
      var entry := TrimSpace(entries[0]);
      TrimSpaceTrims(entries[0]);
      if entry == "" || entry in seen {
        ParseEntriesGood(entries[1..], seen);
      } else {
        ParseEntryGood(entry);
        ParseEntriesGood(entries[1..], seen + {entry});
      }
    }
  }

  /** Whatever raw list the parser accepts, its targets have the printable shape. */
  lemma ParseGood(raw: string)
    requires Parse(raw).Some?
    ensures AllGood(Parse(raw).value)
  {
    if TrimSpace(raw) != "" {
      SplitParts(raw, ',');
      ParseEntriesGood(Split(raw, ','), {});
    }
  }

  // ---------- exactly what parsing accepts, and what it makes of it ----------

  /** The entry spells the target: a host, a colon and a port number, blanks around each. */
  ghost predicate Spells(entry: string, t: EgressTarget) {
    && t.host != "" && 1 <= t.port <= 65535
    && exists h, p :: entry == h + ":" + p && ':' !in h && TrimSpace(h) == t.host && Numeral(TrimSpace(p), t.port)
  }

  lemma EntryIff(entry: string, t: EgressTarget)
    ensures ParseEntry(entry) == Some(t) <==> Spells(entry, t)
  {
    hide TrimSpace;
    hide Cut;
    hide ParseUint16;
    hide Numeral;
    if ParseEntry(entry) == Some(t) {
      CutParts(entry, ':');
      var p := Cut(entry, ':').value;
      ParseUint16Iff(TrimSpace(p.1), t.port);
      assert entry == p.0 + ":" + p.1;
    }
    if Spells(entry, t) {
      var h, p :| entry == h + ":" + p && ':' !in h && TrimSpace(h) == t.host && Numeral(TrimSpace(p), t.port);
      CutAt(h, p, ':');
      ParseUint16Iff(TrimSpace(p), t.port);
      NumeralNotEmpty(TrimSpace(p), t.port);
    }
  }

  lemma NumeralNotEmpty(s: string, n: nat)
    requires Numeral(s, n)
    ensures s != ""
  {
    hide Decimal;
  }

  /** The entries between commas, trimmed, blanks left out. */
  function NonBlank(parts: seq<string>): seq<string> {
    if parts == [] then []
    else (if TrimSpace(parts[0]) == "" then [] else [TrimSpace(parts[0])]) + NonBlank(parts[1..])
  }

  function Entries(raw: string): seq<string> { NonBlank(Split(raw, ',')) }

  /** `r` lists what `es` holds, once each, in the order of first occurrence. */
  ghost predicate FirstOccurrences(r: seq<string>, es: seq<string>) {
    && (forall i, j :: 0 <= i < j < |r| ==> r[i] != r[j])
    && (forall e :: e in r <==> e in es)
    && (forall i, j :: 0 <= i < j < |r| ==> exists k :: 0 <= k < |es| && es[k] == r[i] && r[j] !in es[..k + 1])
  }

  /** The first occurrences in `es` of what is not in `seen`. */
  function Firsts(es: seq<string>, seen: set<string>): seq<string> {
    if es == [] then []
    else if es[0] in seen then Firsts(es[1..], seen)
    else [es[0]] + Firsts(es[1..], seen + {es[0]})
  }

  lemma {:induction false} FirstsMembers(es: seq<string>, seen: set<string>)
    ensures var r := Firsts(es, seen);
            && (forall i, j :: 0 <= i < j < |r| ==> r[i] != r[j])
            && (forall e :: e in r <==> e in es && e !in seen)
  {
    if es != [] {
      assert forall e :: e in es <==> e == es[0] || e in es[1..];
      FirstsMembers(es[1..], if es[0] in seen then seen else seen + {es[0]});
    }
  }

  lemma {:induction false} FirstsOrder(es: seq<string>, seen: set<string>, i: nat, j: nat)
    requires i < j < |Firsts(es, seen)|
    ensures var r := Firsts(es, seen);
            exists k :: 0 <= k < |es| && es[k] == r[i] && r[j] !in es[..k + 1]
  {
    var rest := es[1..];
    var r := Firsts(es, seen);
    FirstsMembers(es, seen);
    if es[0] !in seen && i == 0 {
      assert es[..1] == [es[0]] && es[0] == r[0] && r[j] !in es[..0 + 1];
    } else {
      var seen', i', j' := if es[0] in seen then seen else seen + {es[0]}, if es[0] in seen then i else i - 1, if es[0] in seen then j else j - 1;
      FirstsOrder(rest, seen', i', j');
      var k :| 0 <= k < |rest| && rest[k] == r[i] && r[j] !in rest[..k + 1];
      assert es[..k + 2] == [es[0]] + rest[..k + 1];
      assert es[k + 1] == r[i] && r[j] !in es[..k + 1 + 1];
    }
  }

  lemma FirstsExact(es: seq<string>)
    ensures FirstOccurrences(Firsts(es, {}), es)
  {
    FirstsMembers(es, {});
    var r := Firsts(es, {});
    forall i, j | 0 <= i < j < |r| ensures exists k :: 0 <= k < |es| && es[k] == r[i] && r[j] !in es[..k + 1] {
      FirstsOrder(es, {}, i, j);
    }
  }

  ghost predicate SpellsAll(es: seq<string>, ts: seq<EgressTarget>) {
    |es| == |ts| && forall i :: 0 <= i < |es| ==> Spells(es[i], ts[i])
  }

  ghost predicate Wellformed(es: seq<string>) { forall e :: e in es ==> exists t :: Spells(e, t) }

  lemma WellformedCons(e: string, es: seq<string>)
    ensures Wellformed([e] + es) <==> Wellformed(es) && exists t :: Spells(e, t)
  {
    if Wellformed([e] + es) {
      assert e in [e] + es;
      forall x | x in es ensures exists t :: Spells(x, t) { assert x in [e] + es; }
    }
  }

  lemma {:induction false} ParseEntriesIff(parts: seq<string>, seen: set<string>)
    ensures ParseEntries(parts, seen).Some? <==> Wellformed(NonBlank(parts))
    ensures ParseEntries(parts, seen).Some? ==> SpellsAll(Firsts(NonBlank(parts), seen), ParseEntries(parts, seen).value)
  {
    hide TrimSpace;
    hide ParseEntry;
    hide Spells;
    if parts != [] {
      var entry, rest := TrimSpace(parts[0]), parts[1..];
      var es := NonBlank(rest);
      if entry == "" {
        assert NonBlank(parts) == es;
        ParseEntriesIff(rest, seen);
      } else {
        assert NonBlank(parts) == [entry] + es && ([entry] + es)[1..] == es;
        assert forall e :: e in [entry] + es <==> e == entry || e in es;
        forall t ensures ParseEntry(entry) == Some(t) <==> Spells(entry, t) { EntryIff(entry, t); }
        WellformedCons(entry, es);
        ParseEntriesIff(rest, if entry in seen then seen else seen + {entry});
      }
    }
  }

  lemma {:induction false} BlankSplit(s: string)
    requires Blank(s)
    ensures Split(s, ',') == [s]
  {
    if s != "" {
      assert IsSpace(s[0]);
      BlankSplit(s[1..]);
      assert [s[0]] + s[1..] == s;
    }
  }

  /** Exactly when a list is accepted: every entry that is not blank spells a target. One
      that does not spoils the whole list. What is accepted are, in order, the targets of
      the first occurrences of the trimmed entries. */
  lemma ParseIff(raw: string)
    ensures Parse(raw).Some? <==> Wellformed(Entries(raw))
    ensures Parse(raw).Some? ==> exists r :: FirstOccurrences(r, Entries(raw)) && SpellsAll(r, Parse(raw).value)
  {
    hide TrimSpace;
    hide ParseEntries;
    hide Spells;
    hide Split;
    hide FirstOccurrences;
    FirstsExact(Entries(raw));
    ParseEntriesIff(Split(raw, ','), {});
    TrimSpaceExact(raw);
    if TrimSpace(raw) == "" {
      BlankSplit(raw);
      assert [raw][1..] == [];
      assert NonBlank([]) == [];
      assert Entries(raw) == [];
      assert Firsts([], {}) == [];
    }
  }

  // ---------- round trips ----------

  lemma DecimalTrimmed(n: nat)
    ensures Trimmed(Decimal(n)) && ',' !in Decimal(n)
  {
    hide Decimal;
    var d := Decimal(n);
    assert IsDigit(d[0]) && IsDigit(d[|d| - 1]);
  }

  lemma ParseAddr(t: EgressTarget)
    requires Good(t)
    ensures TrimSpace(Addr(t)) == Addr(t) != ""
    ensures ',' !in Addr(t)
    ensures ParseEntry(Addr(t)) == Some(t)
  {
    hide Decimal;
    hide TrimSpace;
    hide Cut;
    hide DecimalValue;
    var d := Decimal(t.port);
    DecimalTrimmed(t.port);
    assert Trimmed(Addr(t));
    TrimSpaceTrims(Addr(t));
    TrimSpaceTrims(t.host);
    TrimSpaceTrims(d);
    CutAt(t.host, d, ':');
    DecimalRoundTrip(t.port);
  }

  /** First occurrences only, skipping those already in `seen`. */
  function DedupeFrom(ts: seq<EgressTarget>, seen: set<EgressTarget>): seq<EgressTarget> {
    if ts == [] then []
    else if ts[0] in seen then DedupeFrom(ts[1..], seen)
    else [ts[0]] + DedupeFrom(ts[1..], seen + {ts[0]})
  }

  function Dedupe(ts: seq<EgressTarget>): seq<EgressTarget> { DedupeFrom(ts, {}) }

  predicate Distinct(ts: seq<EgressTarget>) { forall i, j :: 0 <= i < j < |ts| ==> ts[i] != ts[j] }

  lemma {:induction false} DedupeDistinct(ts: seq<EgressTarget>, seen: set<EgressTarget>)
    requires Distinct(ts) && forall i :: 0 <= i < |ts| ==> ts[i] !in seen
    ensures DedupeFrom(ts, seen) == ts
  {
    if ts != [] {
      DedupeDistinct(ts[1..], seen + {ts[0]});
    }
  }

  ghost predicate SeenAddrs(seen: set<EgressTarget>, raw: set<string>) {
    && (forall t :: t in seen ==> Good(t) && Addr(t) in raw)
    && (forall s :: s in raw ==> exists t :: t in seen && Good(t) && Addr(t) == s)
  }

  lemma {:induction false} ParseAddrs(ts: seq<EgressTarget>, seen: set<EgressTarget>, raw: set<string>)
    requires AllGood(ts) && SeenAddrs(seen, raw)
    ensures ParseEntries(Addrs(ts), raw) == Some(DedupeFrom(ts, seen))
  {
    hide TrimSpace;
    hide ParseEntry;
    hide Good;
    hide Addr;
    if ts != [] {
      var t := ts[0];
      ParseAddr(t);
      assert Addrs(ts)[1..] == Addrs(ts[1..]);
      if Addr(t) in raw {
        var u :| u in seen && Good(u) && Addr(u) == Addr(t);
        AddrInjective(t, u);
        ParseAddrs(ts[1..], seen, raw);
      } else {
        ParseAddrs(ts[1..], seen + {t}, raw + {Addr(t)});
      }
    }
  }

  /** Encoding and parsing back keeps the first occurrence of every target. */
  lemma ParseEncode(ts: seq<EgressTarget>)
    requires AllGood(ts)
    ensures Parse(Encode(ts)) == Some(Dedupe(ts))
  {
    hide TrimSpace;
    hide ParseEntry;
    hide ParseEntries;
    hide Good;
    hide Addr;
    hide Split;
    TrimSpaceTrims("");
    if ts != [] {
      forall i | 0 <= i < |ts| ensures ',' !in Addrs(ts)[i] {
        ParseAddr(ts[i]);
      }
      SplitJoin(Addrs(ts), ',');
      ParseAddr(ts[0]);
      EncodeNotBlank(ts);
      ParseAddrs(ts, {}, {});
    }
  }

  lemma EncodeNotBlank(ts: seq<EgressTarget>)
    requires ts != [] && Good(ts[0])
    ensures TrimSpace(Encode(ts)) != ""
  {
    var e := Encode(ts);
    assert e[0] == Addr(ts[0])[0] == ts[0].host[0];
    assert TrimLeft(e) == e;
    var r := TrimRight(e);
    if r == "" {
      TrimRightAllSpace(e);
    }
  }

  lemma {:induction false} TrimRightAllSpace(s: string)
    requires TrimRight(s) == ""
    ensures forall i :: 0 <= i < |s| ==> IsSpace(s[i])
  {
    if s != "" {
      TrimRightAllSpace(s[..|s| - 1]);
    }
  }

  /** For distinct printable targets the two are inverse. */
  lemma ParseEncodeDistinct(ts: seq<EgressTarget>)
    requires AllGood(ts) && Distinct(ts)
    ensures Parse(Encode(ts)) == Some(ts)
  {
    ParseEncode(ts);
    DedupeDistinct(ts, {});
  }

  /** Re-encoding an accepted label and parsing it again normalises it: the result is
      the deduplicated parse. */
  lemma Normalise(raw: string)
    requires Parse(raw).Some?
    ensures Parse(Encode(Parse(raw).value)) == Some(Dedupe(Parse(raw).value))
  {
    ParseGood(raw);
    ParseEncode(Parse(raw).value);
  }

  lemma TrimLeadingBlank(s: string)
    requires Trimmed(s) && s != ""
    ensures TrimSpace(" " + s) == s
  {
    assert (" " + s)[1..] == s;
    assert TrimLeft(" " + s) == TrimLeft(s) == s;
  }

  /** The parser drops repeats of the raw entry, not of the target it denotes: the same
      target written with a blank before its port is kept a second time. */
  lemma RepeatedTargetSurvives(t: EgressTarget)
    requires Good(t)
    ensures Parse(Addr(t) + "," + (t.host + ": " + Decimal(t.port))) == Some([t, t])
  {
    hide Decimal;
    hide TrimSpace;
    hide Cut;
    hide Split;
    hide DecimalValue;
    var d := Decimal(t.port);
    var first, second := Addr(t), t.host + ": " + d;
    ParseAddr(t);
    DecimalTrimmed(t.port);
    assert ParseEntry(second) == Some(t) by {
      assert second == t.host + [':'] + (" " + d);
      CutAt(t.host, " " + d, ':');
      TrimLeadingBlank(d);
      TrimSpaceTrims(t.host);
      DecimalRoundTrip(t.port);
    }
    TrimSpaceTrims(second);
    assert |second| == |first| + 1;
    var raw := Join([first, second], ',');
    assert [first, second][1..] == [second] && Join([second], ',') == second;
    assert raw == first + "," + second;
    SplitJoin([first, second], ',');
    assert TrimSpace(raw) == raw by {
      TrimSpaceTrims(raw);
    }
    TwoEntries(first, second, t);
  }

  lemma TwoEntries(first: string, second: string, t: EgressTarget)
    requires TrimSpace(first) == first != "" && TrimSpace(second) == second != "" && first != second
    requires ParseEntry(first) == ParseEntry(second) == Some(t)
    ensures ParseEntries([first, second], {}) == Some([t, t])
  {
    hide TrimSpace;
    hide ParseEntry;
    assert [first, second][1..] == [second] && [second][1..] == [];
    var none: seq<EgressTarget> := [];
    assert ParseEntries([], {first} + {second}) == Some(none) && [t] + none == [t];
    assert ParseEntries([second], {first}) == Some([t]);
    assert {} + {first} == {first} && [t] + [t] == [t, t];
  }
}
