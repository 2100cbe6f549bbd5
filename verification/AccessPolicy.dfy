// Source-range policies of the legacy gateway: normalising the requested ranges,
// reading a stored policy and narrowing it.
module AccessPolicy {
  import opened Common
  import opened Text
  import opened Networks

  /****** Requested source ranges ******/

  // A network is in a special block when its first and its last address are.
  predicate Within(net: Network, first: nat, last: nat) {
    first <= net.address && Last(net) <= last
  }

  // Neither unrestricted nor loopback (127.0.0.0/8), link-local (169.254.0.0/16),
  // multicast (224.0.0.0/4) or unspecified (0.0.0.0).
  predicate Allowed(net: Network) {
    && net.prefix > 0
    && !Within(net, 0x7F00_0000, 0x7FFF_FFFF)
    && !Within(net, 0xA9FE_0000, 0xA9FE_FFFF)
    && !Within(net, 0xE000_0000, 0xEFFF_FFFF)
    && !Within(net, 0, 0)
  }

  // The canonical text of one acceptable source range.
  function Canonical(text: string): Option<string> {
    var net := Parse(text);
    if net.Some? && Allowed(net.value) then Some(Print(net.value)) else None
  }

  predicate AllCanonical(values: seq<string>) {
    forall v | v in values :: Canonical(v).Some?
  }

  function Canonicals(values: seq<string>): (r: seq<string>)
    requires AllCanonical(values)
    ensures |r| == |values|
  {
    if values == [] then []
    else
      assert values[0] in values && forall v | v in values[1..] :: v in values;
      [Canonical(values[0]).value] + Canonicals(values[1..])
  }

  function SourceRangesOf(values: seq<string>): Option<seq<string>> {
    if !(1 <= |values| <= 64) || !AllCanonical(values) || !Distinct(Canonicals(values)) then None
    else Some(Sorted(Canonicals(values)))
  }

  lemma {:induction false} CanonicalsAt(values: seq<string>, i: nat)
    requires AllCanonical(values) && i < |values|
    ensures Canonicals(values)[i] == Canonical(values[i]).value
  {
    hide Canonical;
    if i > 0 { CanonicalsAt(values[1..], i - 1); }
  }

  lemma CanonicalsAppend(values: seq<string>, v: string)
    requires AllCanonical(values) && Canonical(v).Some?
    ensures AllCanonical(values + [v]) && Canonicals(values + [v]) == Canonicals(values) + [Canonical(v).value]
  {
    hide Canonical;
    forall i | 0 <= i < |values + [v]|
      ensures Canonicals(values + [v])[i] == (Canonicals(values) + [Canonical(v).value])[i]
    {
      CanonicalsAt(values + [v], i);
      if i < |values| { CanonicalsAt(values, i); }
    }
  }

  // The loop of source_ranges.
  method SourceRanges(values: seq<string>) returns (ranges: Option<seq<string>>)
    ensures ranges == SourceRangesOf(values)
  {
    hide Parse, Allowed, Print;
    if !(1 <= |values| <= 64) { return None; }
    var result: seq<string> := [];
    for i := 0 to |values|
      invariant AllCanonical(values[..i]) && result == Canonicals(values[..i])
    {
      var net := Parse(values[i]);
      if net.None? || !Allowed(net.value) {
        assert Canonical(values[i]).None? && values[i] in values;
        return None;
      }
      CanonicalsAppend(values[..i], values[i]);
      assert values[..i + 1] == values[..i] + [values[i]];
      result := result + [Print(net.value)];
    }
    assert values[..|values|] == values;
    if !Distinct(result) { return None; }
    return Some(Sorted(result));
  }

  // The addresses a list of source ranges admits.
  ghost predicate AdmittedBy(texts: seq<string>, ip: nat) {
    exists text | text in texts :: Parse(text).Some? && Contains(Parse(text).value, ip)
  }

  lemma CanonicalFixed(text: string)
    requires Canonical(text).Some?
    ensures var c := Canonical(text).value;
            && Canonical(c) == Some(c)
            && Parse(c) == Parse(text) && Parse(text).Some?
            && c != "" && ',' !in c && Strip(c) == c
  {
    hide Parse, Contains, WellFormed;
    var net := Parse(text).value;
    PrintParse(net);
    var c := Print(net);
    JoinAvoids(Quad(net.address), '.', ',');
    assert c[0] == Quad(net.address)[0][0];
    assert IsDigit(c[0]) by { assert Quad(net.address)[0][0] in Quad(net.address)[0]; }
    assert c[|c| - 1] == Decimal(net.prefix)[|Decimal(net.prefix)| - 1];
    assert IsDigit(c[|c| - 1]) by { assert Decimal(net.prefix)[|Decimal(net.prefix)| - 1] in Decimal(net.prefix); }
  }

  lemma {:induction false} CanonicalsElements(values: seq<string>)
    requires AllCanonical(values)
    ensures forall v | v in Canonicals(values) :: exists was | was in values :: v == Canonical(was).value
    ensures forall was | was in values :: Canonical(was).value in Canonicals(values)
  {
    hide Canonical;
    forall v | v in Canonicals(values)
      ensures exists was | was in values :: v == Canonical(was).value
    {
      var i :| 0 <= i < |values| && Canonicals(values)[i] == v;
      CanonicalsAt(values, i);
      assert values[i] in values;
    }
    forall was | was in values
      ensures Canonical(was).value in Canonicals(values)
    {
      var i :| 0 <= i < |values| && values[i] == was;
      CanonicalsAt(values, i);
      assert Canonicals(values)[i] in Canonicals(values);
    }
  }

  lemma CanonicalsAdmit(values: seq<string>, ip: nat)
    requires AllCanonical(values)
    ensures AdmittedBy(Canonicals(values), ip) <==> AdmittedBy(values, ip)
  {
    CanonicalsElements(values);
    hide Parse, Contains, Canonical, Canonicals;
    if AdmittedBy(Canonicals(values), ip) {
      var v :| v in Canonicals(values) && Parse(v).Some? && Contains(Parse(v).value, ip);
      var was :| was in values && v == Canonical(was).value;
      CanonicalFixed(was);
    }
    if AdmittedBy(values, ip) {
      var was :| was in values && Parse(was).Some? && Contains(Parse(was).value, ip);
      CanonicalFixed(was);
    }
  }

  lemma SameAdmit(a: seq<string>, b: seq<string>, ip: nat)
    requires multiset(a) == multiset(b)
    ensures AdmittedBy(a, ip) <==> AdmittedBy(b, ip)
  {
    hide Parse, Contains;
    assert forall v :: v in a <==> v in multiset(a);
    assert forall v :: v in b <==> v in multiset(b);
  }

  // A list of canonical texts is its own list of canonical texts.
  lemma {:induction false} CanonicalAlready(r: seq<string>)
    requires forall v | v in r :: Canonical(v) == Some(v)
    ensures Canonicals(r) == r
  {
    hide Canonical;
    if r != [] { CanonicalAlready(r[1..]); }
  }

  // Normalising a list keeps the addresses it admits, and normalising it again
  // changes nothing.
  lemma SourceRangesStable(values: seq<string>)
    requires SourceRangesOf(values).Some?
    ensures var r := SourceRangesOf(values).value;
            && SourceRangesOf(r) == Some(r) && AllCanonical(r) && Canonicals(r) == r
            && forall ip: nat :: AdmittedBy(r, ip) <==> AdmittedBy(values, ip)
  {
    hide Parse, Contains, Canonical, Canonicals, AdmittedBy, Sorted;
    var texts := Canonicals(values);
    var r := Sorted(texts);
    SortedOrders(texts);
    SortedFixes(r);
    SortedCanonical(values);
    CanonicalAlready(r);
    DistinctBag(texts);
    DistinctBag(r);
    forall ip: nat
      ensures AdmittedBy(r, ip) <==> AdmittedBy(values, ip)
    {
      SameAdmit(r, texts, ip);
      CanonicalsAdmit(values, ip);
    }
  }

  lemma SortedCanonical(values: seq<string>)
    requires AllCanonical(values)
    ensures var r := Sorted(Canonicals(values));
            |r| == |values| && forall v | v in r :: Canonical(v) == Some(v)
  {
    hide Canonical, Canonicals, Sorted;
    var texts := Canonicals(values);
    var r := Sorted(texts);
    SortedOrders(texts);
    assert |r| == |multiset(r)| == |multiset(texts)| == |texts|;
    forall v | v in r
      ensures Canonical(v) == Some(v)
    {
      assert v in multiset(r) && v in texts;
      CanonicalsElements(values);
      var was :| was in values && v == Canonical(was).value;
      CanonicalFixed(was);
    }
  }

  /****** The policy of an entry, and narrowing it ******/

  datatype Kind = Service | Ingress

  datatype View = View(uid: Json, stable: Digest<(Json, Json)>, present: bool, value: Json)

  function Stripped(parts: seq<string>): seq<string> {
    seq(|parts|, i requires 0 <= i < |parts| => Strip(parts[i]))
  }

  predicate AllStrings(items: seq<Json>) {
    forall v | v in items :: v.Str?
  }

  function Strings(items: seq<Json>): seq<string>
    requires AllStrings(items)
  {
    seq(|items|, i requires 0 <= i < |items| => assert items[i] in items; items[i].text)
  }

  // The texts of a stored policy; an ingress keeps them comma separated.
  function Texts(kind: Kind, value: Json): Option<seq<string>> {
    match kind
    case Ingress => if value.Str? then Some(Stripped(Split(value.text, ','))) else None
    case Service => if value.Arr? && AllStrings(value.items) then Some(Strings(value.items)) else None
  }

  // The policy an entry enforces: absent or empty means everyone.
  ghost predicate Admits(kind: Kind, value: Json, ip: nat) {
    !Truthy(value) || (Texts(kind, value).Some? && AdmittedBy(Texts(kind, value).value, ip))
  }

  function Stored(kind: Kind, requested: seq<string>): Json
    requires |requested| > 0
  {
    match kind
    case Ingress => Str(Join(requested, ','))
    case Service => Arr(seq(|requested|, i requires 0 <= i < |requested| => Str(requested[i])))
  }

  predicate InsideOne(text: string, former: seq<string>) {
    exists o | o in former :: Parse(text).Some? && Parse(o).Some? && SubnetOf(Parse(text).value, Parse(o).value)
  }

  // The new value, or None when a requested range is not inside a single former one.
  function RestrictedValue(kind: Kind, requested: seq<string>, previous: Json): Option<Json>
    requires |requested| > 0
  {
    if !Truthy(previous) then Some(Stored(kind, requested))
    else
      var former := Texts(kind, previous);
      if former.None? || (exists o | o in former.value :: Parse(o).None?)
         || (exists r | r in requested :: !InsideOne(r, former.value)) then None
      else Some(Stored(kind, requested))
  }

  lemma RangeTexts(values: seq<string>)
    requires SourceRangesOf(values).Some?
    ensures var r := SourceRangesOf(values).value;
            |r| > 0 && forall v | v in r :: ',' !in v && Strip(v) == v && v != ""
  {
    hide Parse, Contains, Canonical, Canonicals, Sorted;
    SortedCanonical(values);
    forall v | v in SourceRangesOf(values).value
      ensures ',' !in v && Strip(v) == v && v != ""
    {
      CanonicalFixed(v);
    }
  }

  // A normalised list survives being stored.
  lemma StoredTexts(kind: Kind, values: seq<string>)
    requires SourceRangesOf(values).Some?
    ensures var r := SourceRangesOf(values).value;
            |r| > 0 && Truthy(Stored(kind, r)) && Texts(kind, Stored(kind, r)) == Some(r)
  {
    hide Parse, Contains, Canonical, Canonicals, Sorted, SourceRangesOf;
    var r := SourceRangesOf(values).value;
    RangeTexts(values);
    if kind.Ingress? {
      SplitJoin(r, ',');
      assert r[0] in r;
      assert Stripped(r) == r;
    } else {
      assert Strings(Stored(kind, r).items) == r;
    }
  }

  // Whoever the restricted list admits was admitted before, for every IPv4 address.
  lemma RestrictionNarrows(kind: Kind, values: seq<string>, previous: Json, ip: nat)
    requires SourceRangesOf(values).Some? && |SourceRangesOf(values).value| > 0
    requires var v := RestrictedValue(kind, SourceRangesOf(values).value, previous); v.Some? && Admits(kind, v.value, ip)
    ensures Admits(kind, previous, ip)
    ensures AdmittedBy(values, ip)
  {
    var requested := SourceRangesOf(values).value;
    StoredTexts(kind, values);
    SourceRangesStable(values);
    if Truthy(previous) {
      var former := Texts(kind, previous).value;
      var r :| r in requested && Parse(r).Some? && Contains(Parse(r).value, ip);
      assert InsideOne(r, former);
      var o :| o in former && Parse(o).Some? && SubnetOf(Parse(r).value, Parse(o).value);
      SubnetIsInclusion(Parse(r).value, Parse(o).value);
    }
  }

  // Every address of one range belongs to another.
  ghost predicate Covered(v: string, o: string) {
    forall ip: nat :: AdmittedBy([v], ip) ==> AdmittedBy([o], ip)
  }

  lemma CoveredIsSubnet(v: string, o: string)
    requires Parse(v).Some? && Parse(o).Some?
    ensures Covered(v, o) <==> SubnetOf(Parse(v).value, Parse(o).value)
  {
    SubnetIsInclusion(Parse(v).value, Parse(o).value);
    forall ip: nat
      ensures AdmittedBy([v], ip) <==> Contains(Parse(v).value, ip)
      ensures AdmittedBy([o], ip) <==> Contains(Parse(o).value, ip)
    {
      assert v in [v] && o in [o];
    }
  }

  lemma InsideOneIsCovered(v: string, former: seq<string>)
    requires Parse(v).Some? && forall o | o in former :: Parse(o).Some?
    ensures InsideOne(v, former) <==> exists o | o in former :: Covered(v, o)
  {
    hide Parse, SubnetOf, Covered;
    forall o | o in former
      ensures Covered(v, o) <==> SubnetOf(Parse(v).value, Parse(o).value)
    {
      CoveredIsSubnet(v, o);
    }
  }

  // The normalised list holds the canonical text of each requested range, no other.
  lemma SourceRangesElements(values: seq<string>, text: string)
    requires SourceRangesOf(values).Some?
    ensures text in SourceRangesOf(values).value <==> exists v | v in values :: Canonical(v).value == text
  {
    hide Canonical;
    var texts := Canonicals(values);
    SortedOrders(texts);
    assert text in Sorted(texts) <==> text in multiset(texts);
    if text in texts {
      var i :| 0 <= i < |texts| && texts[i] == text;
      CanonicalsAt(values, i);
      assert values[i] in values;
    }
    if v :| v in values && Canonical(v).value == text {
      var i :| 0 <= i < |values| && values[i] == v;
      CanonicalsAt(values, i);
    }
  }

  // Against an existing policy a request is accepted exactly when each requested
  // range is covered by one existing range.
  lemma RestrictionAcceptedIff(kind: Kind, values: seq<string>, previous: Json)
    requires SourceRangesOf(values).Some? && |SourceRangesOf(values).value| > 0
    requires Truthy(previous) && Texts(kind, previous).Some?
    requires forall o | o in Texts(kind, previous).value :: Parse(o).Some?
    ensures RestrictedValue(kind, SourceRangesOf(values).value, previous).Some? <==>
            forall v | v in values :: exists o | o in Texts(kind, previous).value :: Covered(v, o)
  {
    hide Parse, Canonical, Texts, Covered, InsideOne;
    var requested, former := SourceRangesOf(values).value, Texts(kind, previous).value;
    forall v | v in values
      ensures Canonical(v).value in requested
      ensures InsideOne(Canonical(v).value, former) <==> exists o | o in former :: Covered(v, o)
    {
      CanonicalFixed(v);
      SourceRangesElements(values, Canonical(v).value);
      InsideOneIsCovered(v, former);
      SameNetworkSameInside(v, Canonical(v).value, former);
    }
    forall r | r in requested
      ensures exists v | v in values :: Canonical(v).value == r
    {
      SourceRangesElements(values, r);
    }
  }

  lemma SameNetworkSameInside(a: string, b: string, former: seq<string>)
    requires Parse(a) == Parse(b)
    ensures InsideOne(a, former) <==> InsideOne(b, former)
  {
    hide Parse;
  }

  // The converse of narrowing fails: two single addresses do not let the pair of
  // them through, although the pair admits nobody new.
  lemma UnionOfHalvesIsRefused()
    ensures SourceRangesOf(["1.0.0.0/31"]) == Some(["1.0.0.0/31"])
    ensures RestrictedValue(Service, ["1.0.0.0/31"], Arr([Str("1.0.0.0/32"), Str("1.0.0.1/32")])) == None
    ensures forall ip: nat :: AdmittedBy(["1.0.0.0/31"], ip) ==> AdmittedBy(["1.0.0.0/32", "1.0.0.1/32"], ip)
  {
    hide Parse, Contains, Allowed, SubnetOf;
    var whole, low, high := Network(0x100_0000, 31), Network(0x100_0000, 32), Network(0x100_0001, 32);
    PairTexts();
    PairArithmetic();
    PairAdmits();
    var items := [Str("1.0.0.0/32"), Str("1.0.0.1/32")];
    assert Strings(items) == ["1.0.0.0/32", "1.0.0.1/32"];
    assert !InsideOne("1.0.0.0/31", Strings(items));
    assert "1.0.0.0/31" in ["1.0.0.0/31"];
    assert Canonicals(["1.0.0.0/31"]) == ["1.0.0.0/31"];
  }

  lemma PairAdmits()
    ensures forall ip: nat :: AdmittedBy(["1.0.0.0/31"], ip) ==> AdmittedBy(["1.0.0.0/32", "1.0.0.1/32"], ip)
  {
    hide Parse, Contains, Allowed, SubnetOf;
    var whole, low, high := Network(0x100_0000, 31), Network(0x100_0000, 32), Network(0x100_0001, 32);
    PairTexts();
    PairArithmetic();
    forall ip: nat
      ensures AdmittedBy(["1.0.0.0/31"], ip) ==> AdmittedBy(["1.0.0.0/32", "1.0.0.1/32"], ip)
    {
      ContainsIsRange(whole, ip);
      ContainsIsRange(low, ip);
      ContainsIsRange(high, ip);
      assert "1.0.0.0/32" in ["1.0.0.0/32", "1.0.0.1/32"] && "1.0.0.1/32" in ["1.0.0.0/32", "1.0.0.1/32"];
    }
  }

  lemma PairArithmetic()
    ensures var whole, low, high := Network(0x100_0000, 31), Network(0x100_0000, 32), Network(0x100_0001, 32);
            && WellFormed(whole) && WellFormed(low) && WellFormed(high)
            && Last(whole) == 0x100_0001 && Last(low) == 0x100_0000 && Last(high) == 0x100_0001
            && Allowed(whole) && !SubnetOf(whole, low) && !SubnetOf(whole, high)
  {
    assert Pow2(0) == 1 && Pow2(1) == 2;
  }

  lemma PairTexts()
    ensures Parse("1.0.0.0/31") == Some(Network(0x100_0000, 31))
    ensures Parse("1.0.0.0/32") == Some(Network(0x100_0000, 32))
    ensures Parse("1.0.0.1/32") == Some(Network(0x100_0001, 32))
    ensures Print(Network(0x100_0000, 31)) == "1.0.0.0/31"
  {
    hide Parse, Print, WellFormed, Allowed, SubnetOf, Last;
    PairArithmetic();
    PrintSmall(0, 31);
    PrintSmall(0, 32);
    PrintSmall(1, 32);
    assert "1.0.0." + [Digit(0)] + "/3" + [Digit(1)] == "1.0.0.0/31";
    assert "1.0.0." + [Digit(0)] + "/3" + [Digit(2)] == "1.0.0.0/32";
    assert "1.0.0." + [Digit(1)] + "/3" + [Digit(2)] == "1.0.0.1/32";
    PrintParse(Network(0x100_0000, 31));
    PrintParse(Network(0x100_0000, 32));
    PrintParse(Network(0x100_0001, 32));
  }

  lemma QuadSmall(host: nat)
    requires host < 10
    ensures Quad(0x100_0000 + host) == ["1", "0", "0", [Digit(host)]]
  {
  }

  lemma PrintSmall(host: nat, prefix: nat)
    requires host < 10 && 30 <= prefix < 40
    ensures Print(Network(0x100_0000 + host, prefix)) == "1.0.0." + [Digit(host)] + "/3" + [Digit(prefix - 30)]
  {
    QuadSmall(host);
    hide Quad;
    var parts := Quad(0x100_0000 + host);
    assert Join(parts[2..], '.') == "0." + [Digit(host)];
    assert Join(parts[1..], '.') == "0." + Join(parts[1..][1..], '.') && parts[1..][1..] == parts[2..];
    assert Decimal(prefix) == "3" + [Digit(prefix - 30)] by { assert prefix / 10 == 3 && prefix % 10 == prefix - 30; }
  }
}
