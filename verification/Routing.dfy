/** From the Host of a request to the label of a tunnel. */
module Routing {
  import opened Wire
  import opened Names
  import opened Text
  import opened RequestHead

  /** `host.rstrip(".")` */
  function WithoutRoot(s: string): string {
    if s != "" && s[|s| - 1] == '.' then WithoutRoot(s[..|s| - 1]) else s
  }

  predicate EndsWith(s: string, suffix: string) { |suffix| <= |s| && s[|s| - |suffix|..] == suffix }

  /** `_label_from_host` */
  function LabelFromHost(host: Option<string>, base: string): Option<string> {
    if host.None? || host.value == "" || base == "" then None
    else
      var h := WithoutRoot(Lower(host.value));
      var suffix := "." + base;
      if h == base then None
      else if EndsWith(h, suffix) then
        var l := h[..|h| - |suffix|];
        if ValidLabel(l) then Some(l) else None
      else None
  }

  /** The host that the relay advertises for a label. */
  function Advertised(l: string, base: string): string { l + "." + base }

  predicate BaseDomain(base: string) {
    base != "" && forall i | 0 <= i < |Split(base, '.')| :: ValidLabel(Split(base, '.')[i])
  }

  /** A host routes to a label exactly when, in lower case and without the root's dots, it is the
      label under the base domain. */
  lemma LabelIff(host: string, base: string, l: string)
    requires host != "" && base != ""
    ensures LabelFromHost(Some(host), base) == Some(l) <==> ValidLabel(l) && WithoutRoot(Lower(host)) == Advertised(l, base)
  {
    hide ValidLabel, WithoutRoot, EndsWith;
    Under(WithoutRoot(Lower(host)), base, l);
  }

  lemma Under(h: string, base: string, l: string)
    ensures h == Advertised(l, base) <==> EndsWith(h, "." + base) && h[..|h| - |base| - 1] == l
    ensures EndsWith(h, "." + base) ==> |base| < |h|
  {
    var suffix := "." + base;
    assert Advertised(l, base) == l + suffix;
    if EndsWith(h, suffix) { assert h == h[..|h| - |suffix|] + suffix; }
    if h == l + suffix { assert h[..|l|] == l && h[|l|..] == suffix; }
  }

  /** Any spelling of the label's host: any letter case, perhaps the root's dot. */
  predicate Spells(h: string, l: string, base: string) {
    Lower(h) == Advertised(l, base) || Lower(h) == Advertised(l, base) + "."
  }

  lemma AdvertisedIsName(l: string, base: string)
    requires ValidLabel(l) && BaseDomain(base)
    ensures DnsName(Advertised(l, base)) && DnsName(Advertised(l, base) + ".")
    ensures base != "" && base[|base| - 1] != '.'
  {
    var host := Advertised(l, base);
    SplitFirst(l, '.', base);
    assert host == l + "." + base && Split(host, '.') == [l] + Split(base, '.');
    forall i | 0 <= i < |Split(host, '.')| ensures ValidLabel(Split(host, '.')[i]) {
      if i > 0 { assert Split(host, '.')[i] == Split(base, '.')[i - 1]; }
    }
    LastPart(base);
    assert host[|host| - 1] == base[|base| - 1];
    assert (host + ".")[..|host|] == host;
  }

  /** A string whose parts are labels does not end in a dot. */
  lemma {:induction false} LastPart(s: string)
    requires s != ""
    ensures var parts := Split(s, '.');
            parts[|parts| - 1] != "" ==> s[|s| - 1] != '.'
    ensures s[|s| - 1] == '.' ==> Split(s, '.')[|Split(s, '.')| - 1] == ""
  {
    if |s| > 1 {
      LastPart(s[1..]);
    }
  }

  lemma SpellingIsHost(h: string, l: string, base: string, v6: string -> bool)
    requires ValidLabel(l) && BaseDomain(base) && Spells(h, l, base)
    ensures UriHost(h, v6) && h != ""
  {
    hide DnsName, BaseDomain;
    AdvertisedIsName(l, base);
    DnsChars(Lower(h));
    forall i | 0 <= i < |h| ensures '!' <= h[i] <= '~' { assert NameChar(Lower(h)[i]); }
    LowerIs(h, ':');
    NameIsHost(h, v6);
  }

  lemma RootGone(l: string, base: string)
    requires base != "" && base[|base| - 1] != '.'
    ensures var host := Advertised(l, base); WithoutRoot(host) == host && WithoutRoot(host + ".") == host
  {
    var host := Advertised(l, base);
    assert host[|host| - 1] == base[|base| - 1];
    assert (host + ".")[..|host|] == host;
  }

  lemma SpellingRoutes(h: string, l: string, base: string)
    requires ValidLabel(l) && BaseDomain(base) && Spells(h, l, base)
    ensures LabelFromHost(Some(Lower(h)), base) == Some(l)
  {
    hide BaseDomain, DnsName, ValidLabel;
    AdvertisedIsName(l, base);
    RootGone(l, base);
    LowerTwice(h);
    LabelIff(Lower(h), base, l);
  }

  /** The advertised host, in any letter case, with any legal port, with or without the root's
      dot and amid any white space, is a valid Host value and routes back to the label. */
  lemma ValueRoutesBack(value: string, h: string, p: string, a: string, b: string, l: string, base: string, v6: string -> bool)
    requires ValidLabel(l) && BaseDomain(base) && Spells(h, l, base)
    requires PortPart(p) && value == a + (h + p) + b && Blanks(a) && Blanks(b)
    ensures ValidateHost(value, v6) == Fine(Lower(h))
    ensures LabelFromHost(Some(Lower(h)), base) == Some(l)
  {
    hide ValidateHost, LabelFromHost, Spells, BaseDomain, ValidLabel, UriHost, PortPart;
    SpellingIsHost(h, l, base, v6);
    assert HostValue(value, h, p, v6);
    HostIff(value, Lower(h), v6);
    SpellingRoutes(h, l, base);
  }

  /** What the relay makes of a request's head. */
  function Route(head: string, base: string, v6: string -> bool): Parsed<Option<string>> {
    var host :- ParseHead(head, true, v6);
    Fine(LabelFromHost(host, base))
  }

  /** In any otherwise well-formed head with that one Host line, the request reaches the label. */
  lemma HeadRoutesBack(lines: seq<string>, fields: seq<string>, m: string, t: string, version: string, i: nat,
                       h: string, p: string, a: string, b: string, l: string, base: string, v6: string -> bool)
    requires lines != [] && AllPlain(lines) && RequestLine(lines[0], m, t, version)
    requires fields <= lines[1..] && (|fields| + 1 < |lines| ==> lines[|fields| + 1] == "") && FieldLines(fields)
    requires i < |fields| && IsHostLine(fields[i]) && forall j | 0 <= j < |fields| && j != i :: !IsHostLine(fields[j])
    requires ParseField(fields[i]).value.1 == a + (h + p) + b && Blanks(a) && Blanks(b) && PortPart(p)
    requires ValidLabel(l) && BaseDomain(base) && Spells(h, l, base)
    ensures Route(Join(lines, CRLF), base, v6) == Fine(Some(l))
  {
    hide ValidateHost, LabelFromHost, Spells, BaseDomain, ValidLabel, PortPart, RequestLine, ParseField, IsHostLine, ParseHead;
    ValueRoutesBack(a + (h + p) + b, h, p, a, b, l, base, v6);
    var host := Some(Lower(h));
    assert HostRule(fields, version, true, host, v6);
    HeadComplete(Join(lines, CRLF), true, host, v6, lines, fields, m, t, version);
  }

  /** No host, however spelt, is two labels' host. */
  lemma NeverShared(h: string, l1: string, l2: string, base: string)
    requires ValidLabel(l1) && ValidLabel(l2) && BaseDomain(base) && Spells(h, l1, base) && Spells(h, l2, base)
    ensures l1 == l2
  {
    hide Spells, BaseDomain, ValidLabel, LabelFromHost;
    SpellingRoutes(h, l1, base);
    SpellingRoutes(h, l2, base);
  }

  /** A request that reaches a label has that label's host, but for dots at its end. */
  lemma RoutedOnlyToOwn(head: string, base: string, v6: string -> bool, l: string)
    requires base != "" && Route(head, base, v6) == Fine(Some(l))
    ensures ParseHead(head, true, v6).Fine? && ParseHead(head, true, v6).value.Some?
    ensures ValidLabel(l) && WithoutRoot(ParseHead(head, true, v6).value.value) == Advertised(l, base)
  {
    hide ParseHead, ValidLabel, Advertised;
    var host := ParseHead(head, true, v6).value;
    LabelIff(host.value, base, l);
    HeadHostIsLower(head, v6);
  }

  lemma HeadHostIsLower(head: string, v6: string -> bool)
    requires ParseHead(head, true, v6).Fine? && ParseHead(head, true, v6).value.Some?
    ensures var h := ParseHead(head, true, v6).value.value; Lower(h) == h
  {
    hide Clean, SplitLines, ParseRequestLine, HostsIn, BlockEnd, StripPort, DnsName, Trim;
    var block := SplitLines(head)[1..];
    var value := HostsIn(block, BlockEnd(block)).value[0];
    LowerTwice(StripPort(Trim(value), v6).value);
  }
}
