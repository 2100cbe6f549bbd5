// The configured base domain: its normal form, what validation accepts of it and the
// hosts made from it.
module Domains {
  import opened Common
  import opened Text
  import Networks

  /****** Normal form ******/

  function StripDots(s: string): string {
    if s != "" && s[|s| - 1] == '.' then StripDots(s[..|s| - 1]) else s
  }

  // What domain_hosts makes of a configured base domain before it checks it.
  function Normal(baseDomain: string): string {
    StripDots(Lower(Strip(baseDomain)))
  }

  predicate Capital(c: char) {
    'A' <= c <= 'Z'
  }

  lemma {:induction false} StripDotsPrefix(s: string)
    ensures StripDots(s) <= s && (forall c | c in s :: c == '.' || c in StripDots(s))
    ensures StripDots(s) == s <==> s == "" || s[|s| - 1] != '.'
  {
    if s != "" && s[|s| - 1] == '.' {
      StripDotsPrefix(s[..|s| - 1]);
      assert s == s[..|s| - 1] + ['.'];
    }
  }

  lemma {:induction false} StripLeftDrops(s: string)
    ensures forall c | c in s :: Blank(c) || c in StripLeft(s)
  {
    if s != "" && Blank(s[0]) {
      StripLeftDrops(s[1..]);
      assert s == [s[0]] + s[1..];
    }
  }

  lemma {:induction false} StripRightDrops(s: string)
    ensures forall c | c in s :: Blank(c) || c in StripRight(s)
  {
    if s != "" && Blank(s[|s| - 1]) {
      StripRightDrops(s[..|s| - 1]);
      assert s == s[..|s| - 1] + [s[|s| - 1]];
    }
  }

  // Normalising loses blanks, dots and capitals only.
  lemma NormalKeeps(domain: string, c: char)
    requires c in domain && !Blank(c) && c != '.'
    ensures LowerChar(c) in Normal(domain)
  {
    StripLeftDrops(domain);
    StripRightDrops(StripLeft(domain));
    var stripped := Strip(domain);
    var i :| 0 <= i < |stripped| && stripped[i] == c;
    assert Lower(stripped)[i] == LowerChar(c) && Lower(stripped)[i] in Lower(stripped);
    StripDotsPrefix(Lower(stripped));
  }

  // A domain is in normal form exactly when it has no capital, no blank at either end
  // and no dot at its end.
  lemma NormalWhen(domain: string)
    ensures Normal(domain) == domain <==>
              && (forall c | c in domain :: !Capital(c))
              && (domain == "" || (!Blank(domain[0]) && !Blank(domain[|domain| - 1]) && domain[|domain| - 1] != '.'))
  {
    hide Strip, StripDots;
    var stripped := Strip(domain);
    StripDotsPrefix(Lower(stripped));
    if Normal(domain) == domain {
      var i, j := StripSlice(domain);
      assert |domain| <= |Lower(stripped)| == |stripped| == j - i;
      assert stripped == domain;
      assert forall k | 0 <= k < |domain| :: domain[k] == LowerChar(domain[k]);
    } else if domain == "" || (!Blank(domain[0]) && !Blank(domain[|domain| - 1])) {
      StripPlain(domain);
      if forall c | c in domain :: !Capital(c) {
        assert forall k | 0 <= k < |domain| :: domain[k] in domain;
        assert Lower(domain) == domain;
      }
    }
  }

  /****** What is accepted ******/

  predicate LabelChar(c: char) {
    'a' <= c <= 'z' || IsDigit(c) || c == '-'
  }

  predicate Label(name: string) {
    1 <= |name| <= 63 && (forall c | c in name :: LabelChar(c)) && name[0] != '-' && name[|name| - 1] != '-'
  }

  predicate EndsWith(s: string, end: string) {
    |end| <= |s| && s[|s| - |end|..] == end
  }

  // domain_hosts: the domain both hosts end in, or nothing when it refuses. Labels hold
  // no colon, so only an IPv4 address could pass for a name.
  function DomainOf(baseDomain: string): Option<string> {
    var domain := Normal(baseDomain);
    var labels := Split(domain, '.');
    if || |labels| < 2 || |"llm-admin." + domain| > 253 || (exists name | name in labels :: !Label(name))
       || Networks.ParseAddress(domain).Some?
       || domain == "example.com" || EndsWith(domain, ".example.com")
    then None
    else Some(domain)
  }

  const PLACEHOLDERS := [
    "replace", "example.com", "example.net", "example.org", "example-workspace", "stage3check", "<", ">"]

  // `configured` on a text: something is there and no placeholder is left.
  predicate Configured(text: string) {
    Strip(text) != "" && forall p | p in PLACEHOLDERS :: !Includes(Lower(text), p)
  }

  // What the validation of a configuration demands of its base domain.
  predicate Validated(baseDomain: string) {
    Configured(baseDomain) && DomainOf(baseDomain).Some?
  }

  lemma {:induction false} LabelsOnly(s: string)
    requires forall name | name in Split(s, '.') :: Label(name)
    ensures forall c | c in s :: LabelChar(c) || c == '.'
    ensures s != "" && s[0] != '.' && s[|s| - 1] != '.'
  {
    var labels := Split(s, '.');
    assert labels[0] in labels && labels[|labels| - 1] in labels;
    JoinSplit(s, '.');
    LabelsJoin(labels);
  }

  lemma {:induction false} LabelsJoin(labels: seq<string>)
    requires labels != [] && forall name | name in labels :: Label(name)
    ensures var s := Join(labels, '.');
            && (forall c | c in s :: LabelChar(c) || c == '.')
            && s != "" && s[0] != '.' && s[|s| - 1] != '.'
  {
    assert labels[0] in labels && labels[0][0] in labels[0] && labels[0][|labels[0]| - 1] in labels[0];
    if |labels| > 1 { LabelsJoin(labels[1..]); }
  }

  // An accepted domain holds nothing but labels and dots, and it is in normal form.
  lemma AcceptedIsPlain(baseDomain: string)
    requires DomainOf(baseDomain).Some?
    ensures forall c | c in DomainOf(baseDomain).value :: LabelChar(c) || c == '.'
    ensures Normal(DomainOf(baseDomain).value) == DomainOf(baseDomain).value
    ensures DomainOf(DomainOf(baseDomain).value) == DomainOf(baseDomain)
    ensures '`' !in baseDomain
  {
    var domain := DomainOf(baseDomain).value;
    LabelsOnly(domain);
    assert domain[0] in domain && domain[|domain| - 1] in domain;
    NormalWhen(domain);
    if '`' in baseDomain { NormalKeeps(baseDomain, '`'); }
  }

  lemma {:induction false} IncludedChars(s: string, part: string, c: char)
    requires Includes(s, part) && c in part
    ensures c in s
  {
    if part <= s {
      assert s == part + s[|part|..];
    } else {
      IncludedChars(s[1..], part, c);
    }
  }

  /****** A domain with a capital letter ******/

  const CAPITAL := "Tenant.net"

  lemma CapitalIsNormalised()
    ensures Normal(CAPITAL) == "tenant.net" != CAPITAL
  {
    StripPlain(CAPITAL);
    assert Lower(CAPITAL) == "tenant.net";
    assert "tenant.net"[0] != CAPITAL[0];
  }

  lemma CapitalLabels()
    ensures Split("tenant.net", '.') == ["tenant", "net"]
  {
    assert "tenant.net" == "tenant" + ['.'] + "net";
    SplitFirst("tenant", "net", '.');
    SplitPlain("net", '.');
  }

  lemma LabelsHere()
    ensures Label("tenant") && Label("net")
  {
  }

  lemma CapitalIsNoPlaceholder()
    ensures forall p | p in PLACEHOLDERS :: !Includes("tenant.net", p)
  {
    forall p | p in PLACEHOLDERS
      ensures !Includes("tenant.net", p)
    {
      var odd := if p == "<" then '<' else if p == ">" then '>' else if p == "replace" then 'r' else if p == "stage3check" then 's' else 'x';
      assert odd in p && odd !in "tenant.net";
      if Includes("tenant.net", p) { IncludedChars("tenant.net", p, odd); }
    }
  }

  // Validation accepts it.
  lemma CapitalIsValidated()
    ensures Validated(CAPITAL) && DomainOf(CAPITAL) == Some("tenant.net") && Normal(CAPITAL) != CAPITAL
  {
    CapitalIsNormalised();
    CapitalLabels();
    LabelsHere();
    CapitalIsNoPlaceholder();
    hide Normal, Label, Includes, Split;
    StripPlain(CAPITAL);
    assert Lower(CAPITAL) == "tenant.net";
  }
}
