/** The request-head parser: which heads it accepts, and the Host it returns. A head is a
    sequence of bytes, written as characters of those codes. `v6` says which strings are IPv6
    addresses. */
module RequestHead {
  import opened Wire
  import opened Names
  import opened Text

  datatype BadRequest =
    | BareCrOrLf | BadRequestLine | BadAsteriskTarget | NonOriginFormTarget
    | ObsFold | MalformedField | WsBeforeColon | MissingHost | DuplicateHost
    | EmptyHost | BadHostChar | BadHost | BadPort

  datatype Parsed<+T> = Fine(value: T) | Bad(why: BadRequest)
  {
    predicate IsFailure() { Bad? }
    function PropagateFailure<U>(): Parsed<U>
      requires Bad?
    {
      Bad(why)
    }
    function Extract(): T
      requires Fine?
    {
      value
    }
  }

  const CRLF := "\r\n"

  // -- line endings

  /** `head.replace(b"\r\n", b"")` */
  function Stripped(h: string): string {
    if h == "" then ""
    else if CRLF <= h then Stripped(h[2..])
    else [h[0]] + Stripped(h[1..])
  }

  predicate Clean(h: string) { '\r' !in Stripped(h) && '\n' !in Stripped(h) }

  /** A CR has its LF and an LF its CR. */
  predicate PairedAt(h: string, i: nat)
    requires i < |h|
  {
    && (h[i] == '\r' ==> i + 1 < |h| && h[i + 1] == '\n')
    && (h[i] == '\n' ==> i > 0 && h[i - 1] == '\r')
  }

  predicate Paired(h: string) { forall i | 0 <= i < |h| :: PairedAt(h, i) }

  /** Taking away a prefix that is paired in itself. */
  lemma PairedRest(h: string, k: nat)
    requires 0 < k <= |h| && h[k - 1] != '\r' && forall i | 0 <= i < k :: PairedAt(h, i)
    ensures Paired(h) <==> Paired(h[k..])
  {
    var s := h[k..];
    forall i | 0 <= i < |s| ensures PairedAt(s, i) <==> PairedAt(h, i + k) {
      assert s[i] == h[i + k];
      if i + 1 < |s| { assert s[i + 1] == h[i + 1 + k]; }
    }
    if Paired(s) {
      forall i | 0 <= i < |h| ensures PairedAt(h, i) {
        if i >= k { assert PairedAt(s, i - k); }
      }
    }
  }

  /** Deleting the line ends and looking for what is left decides exactly that. */
  lemma {:induction false} CleanIffPaired(h: string)
    ensures Clean(h) <==> Paired(h)
  {
    if h != "" {
      if CRLF <= h {
        CleanIffPaired(h[2..]);
        assert h[0] == '\r' && h[1] == '\n';
        PairedRest(h, 2);
      } else if h[0] == '\r' || h[0] == '\n' {
        assert !PairedAt(h, 0) && Stripped(h)[0] == h[0];
      } else {
        CleanIffPaired(h[1..]);
        PairedRest(h, 1);
        StrippedTail(h);
      }
    }
  }

  lemma StrippedTail(h: string)
    requires h != "" && !(CRLF <= h)
    ensures Clean(h) <==> Clean(h[1..]) && Plain([h[0]])
  {
    var s := Stripped(h[1..]);
    forall c: char ensures c in Stripped(h) <==> c in s || c == h[0] { assert Stripped(h) == [h[0]] + s; }
  }

  /** `head.split(b"\r\n")` */
  function SplitLines(h: string): (lines: seq<string>)
    ensures lines != []
  {
    if h == "" then [""]
    else if CRLF <= h then [""] + SplitLines(h[2..])
    else var rest := SplitLines(h[1..]); [[h[0]] + rest[0]] + rest[1..]
  }

  predicate Plain(s: string) { '\r' !in s && '\n' !in s }

  predicate AllPlain(lines: seq<string>) { forall i | 0 <= i < |lines| :: Plain(lines[i]) }

  /** Splitting loses nothing, and on a clean head leaves no line end inside a line. */
  lemma {:induction false} SplitLinesJoins(h: string)
    ensures Join(SplitLines(h), CRLF) == h
    ensures Clean(h) ==> AllPlain(SplitLines(h))
  {
    if h != "" {
      if CRLF <= h {
        SplitLinesJoins(h[2..]);
        var rest := SplitLines(h[2..]);
        assert SplitLines(h)[1..] == rest;
        assert h == "" + CRLF + h[2..];
      } else {
        SplitLinesJoins(h[1..]);
        var rest := SplitLines(h[1..]);
        JoinGrow(h[0], rest, CRLF);
        assert h == [h[0]] + h[1..];
        if Clean(h) {
          assert Clean(h[1..]) && Plain([h[0]]) by { StrippedTail(h); }
          assert Plain([h[0]] + rest[0]);
        }
      }
    }
  }

  lemma LinesPush(c: char, s: string)
    requires c != '\r'
    ensures SplitLines([c] + s) == [[c] + SplitLines(s)[0]] + SplitLines(s)[1..]
  {
    assert ([c] + s)[1..] == s && ([c] + s)[0] == c && CRLF[0] == '\r';
  }

  lemma LinesEnd(rest: string)
    ensures SplitLines("" + CRLF + rest) == [""] + SplitLines(rest) && SplitLines("") == [""]
  {
    assert ("" + CRLF + rest)[2..] == rest;
  }

  lemma {:induction false} SplitFirstLine(p: string, rest: string)
    requires Plain(p)
    ensures SplitLines(p + CRLF + rest) == [p] + SplitLines(rest)
    ensures SplitLines(p) == [p]
  {
    hide SplitLines;
    if p == "" {
      LinesEnd(rest);
    } else {
      var c, q := p[0], p[1..];
      assert p == [c] + q;
      SplitFirstLine(q, rest);
      LinesPush(c, q);
      LinesPush(c, q + CRLF + rest);
      assert p + CRLF + rest == [c] + (q + CRLF + rest);
      assert ([q] + SplitLines(rest))[1..] == SplitLines(rest);
    }
  }

  lemma StrippedPush(c: char, s: string)
    requires c != '\r'
    ensures Stripped([c] + s) == [c] + Stripped(s)
  {
    assert ([c] + s)[1..] == s && ([c] + s)[0] == c && CRLF[0] == '\r';
  }

  lemma StrippedLineEnd(rest: string)
    ensures Stripped("" + CRLF + rest) == Stripped(rest) && Stripped("") == ""
  {
    assert ("" + CRLF + rest)[2..] == rest;
  }

  lemma {:induction false} StrippedFirstLine(p: string, rest: string)
    requires Plain(p)
    ensures Stripped(p + CRLF + rest) == p + Stripped(rest)
    ensures Stripped(p) == p
  {
    hide Stripped;
    if p == "" {
      StrippedLineEnd(rest);
      assert "" + Stripped(rest) == Stripped(rest);
    } else {
      var c, q := p[0], p[1..];
      assert p == [c] + q;
      StrippedFirstLine(q, rest);
      StrippedPush(c, q);
      StrippedPush(c, q + CRLF + rest);
      assert p + CRLF + rest == [c] + (q + CRLF + rest);
      assert [c] + (q + Stripped(rest)) == p + Stripped(rest);
    }
  }

  /** Lines joined are a clean head, and splitting it finds them again. */
  lemma {:induction false} JoinSplitLines(lines: seq<string>)
    requires lines != [] && AllPlain(lines)
    ensures SplitLines(Join(lines, CRLF)) == lines && Clean(Join(lines, CRLF))
  {
    assert Plain(lines[0]);
    if |lines| == 1 {
      SplitFirstLine(lines[0], "");
      StrippedFirstLine(lines[0], "");
    } else {
      JoinSplitLines(lines[1..]);
      StrippedFirstLine(lines[0], Join(lines[1..], CRLF));
      SplitFirstLine(lines[0], Join(lines[1..], CRLF));
    }
  }

  // -- the request line

  predicate TokenChar(c: char) {
    || 'A' <= c <= 'Z' || 'a' <= c <= 'z' || '0' <= c <= '9'
    || c in "!#$%&'*+-.^_`|~"
  }

  predicate Token(s: string) { s != "" && forall i | 0 <= i < |s| :: TokenChar(s[i]) }

  predicate Version(v: string) { v == "HTTP/1.0" || v == "HTTP/1.1" }

  /** Returns the version. */
  function ParseRequestLine(line: string): Parsed<string> {
    var parts := Split(line, ' ');
    if |parts| != 3 || !Token(parts[0]) || parts[1] == "" || !Version(parts[2]) then Bad(BadRequestLine)
    else if parts[1] == "*" || parts[1][0] == '/' then Fine(parts[2])
    else if parts[1][0] == '*' then Bad(BadAsteriskTarget)
    else Bad(NonOriginFormTarget)
  }

  /** METHOD SP request-target SP HTTP-version, the target in origin-form or asterisk-form. */
  predicate RequestLine(line: string, method': string, target: string, version: string) {
    && line == method' + " " + target + " " + version
    && Token(method') && Version(version)
    && Without(target, ' ')
    && (target == "*" || (target != "" && target[0] == '/'))
  }

  lemma TokenHasNo(s: string, c: char)
    requires Token(s) && !TokenChar(c)
    ensures Without(s, c)
  {
  }

  lemma RequestLineSplits(line: string, m: string, t: string, version: string)
    requires RequestLine(line, m, t, version)
    ensures Split(line, ' ') == [m, t, version]
  {
    hide Token;
    TokenIsNoBlank(m);
    assert Without(version, ' ');
    assert line == m + " " + (t + " " + version);
    SplitFirst(m, ' ', t + " " + version);
    SplitFirst(t, ' ', version);
    SplitFirst(version, ' ', "");
  }

  lemma TokenIsNoBlank(s: string)
    requires Token(s)
    ensures Without(s, ' ')
  {
    TokenHasNo(s, ' ');
  }

  lemma RequestLineIff(line: string, version: string)
    ensures ParseRequestLine(line) == Fine(version) <==> exists m, t :: RequestLine(line, m, t, version)
  {
    hide Token, Version, Split;
    var parts := Split(line, ' ');
    JoinSplit(line, ' ');
    if ParseRequestLine(line) == Fine(version) {
      JoinThree(parts, " ");
      assert RequestLine(line, parts[0], parts[1], version);
    }
    forall m, t | RequestLine(line, m, t, version) ensures ParseRequestLine(line) == Fine(version) {
      RequestLineSplits(line, m, t, version);
    }
  }

  // -- field lines

  /** A field line's name and value, or what is wrong with it. */
  function ParseField(line: string): Parsed<(string, string)>
    requires line != ""
  {
    if Blank(line[0]) then Bad(ObsFold)
    else
      var i := IndexOf(line, ':');
      if i == |line| then Bad(MalformedField)
      else if !Token(line[..i]) || Trim(line[..i]) != line[..i] then Bad(WsBeforeColon)
      else Fine((line[..i], line[i + 1..]))
  }

  predicate FieldLine(line: string, name: string, value: string) { line == name + ":" + value && Token(name) }

  lemma TokenTight(s: string)
    requires Token(s)
    ensures Trim(s) == s && !Blank(s[0])
  {
    assert TokenChar(s[0]) && TokenChar(s[|s| - 1]);
    TrimOf("", s, "");
    assert "" + s + "" == s;
  }

  lemma FieldIff(line: string, name: string, value: string)
    requires line != ""
    ensures ParseField(line) == Fine((name, value)) <==> FieldLine(line, name, value)
  {
    if FieldLine(line, name, value) {
      TokenTight(name);
      TokenHasNo(name, ':');
      IndexIs(name, ':', value);
      assert line[..|name|] == name && line[|name| + 1..] == value;
    }
    if ParseField(line) == Fine((name, value)) {
      assert line == name + ":" + value;
    }
  }

  predicate IsHost(name: string) { Lower(name) == "host" }

  /** The Host values among the first `n` field lines. */
  function HostsIn(lines: seq<string>, n: nat): Parsed<seq<string>>
    requires n <= |lines| && forall i | 0 <= i < n :: lines[i] != ""
  {
    if n == 0 then Fine([])
    else
      var hosts :- HostsIn(lines, n - 1);
      var field :- ParseField(lines[n - 1]);
      Fine(if IsHost(field.0) then hosts + [field.1] else hosts)
  }

  /** Where the field block ends. */
  function BlockEnd(lines: seq<string>): (n: nat)
    ensures n <= |lines| && (forall i | 0 <= i < n :: lines[i] != "") && (n < |lines| ==> lines[n] == "")
  {
    if lines == [] || lines[0] == "" then 0
    else
      assert forall i | 0 < i < 1 + BlockEnd(lines[1..]) :: lines[i] == lines[1..][i - 1];
      1 + BlockEnd(lines[1..])
  }

  /** `_parse_request_head` */
  function ParseHead(head: string, requireHost: bool, v6: string -> bool): Parsed<Option<string>> {
    if !Clean(head) then Bad(BareCrOrLf)
    else
      var lines := SplitLines(head);
      var version :- ParseRequestLine(lines[0]);
      var hosts :- HostsIn(lines[1..], BlockEnd(lines[1..]));
      if hosts == [] then (if requireHost || version == "HTTP/1.1" then Bad(MissingHost) else Fine(None))
      else if |hosts| > 1 then Bad(DuplicateHost)
      else
        var host :- ValidateHost(hosts[0], v6);
        Fine(Some(host))
  }

  /** The same with the loop it has. */
  method ParseRequestHead(head: string, requireHost: bool, v6: string -> bool) returns (r: Parsed<Option<string>>)
    ensures r == ParseHead(head, requireHost, v6)
  {
    hide Clean, SplitLines, ParseRequestLine, ParseField, ValidateHost, IsHost, BlockEnd;
    if !Clean(head) { return Bad(BareCrOrLf); }
    var lines := SplitLines(head);
    var version := ParseRequestLine(lines[0]);
    if version.Bad? { return Bad(version.why); }
    var rawHosts: seq<string> := [];
    ghost var block := lines[1..];
    ghost var end := BlockEnd(block);
    var i := 1;
    while i < |lines| && lines[i] != ""
      invariant 1 <= i <= |lines| && i - 1 <= end
      invariant HostsIn(block, i - 1) == Fine(rawHosts)
    {
      HostsStop(block, i, end);
      var field := ParseField(lines[i]);
      if field.Bad? { return Bad(field.why); }
      if IsHost(field.value.0) { rawHosts := rawHosts + [field.value.1]; }
      i := i + 1;
    }
    assert i - 1 == end by { assert i < |lines| ==> block[i - 1] == ""; }
    if |rawHosts| == 0 {
      return if requireHost || version.value == "HTTP/1.1" then Bad(MissingHost) else Fine(None);
    }
    if |rawHosts| > 1 { return Bad(DuplicateHost); }
    var host := ValidateHost(rawHosts[0], v6);
    return if host.Bad? then Bad(host.why) else Fine(Some(host.value));
  }

  lemma {:induction false} HostsStop(lines: seq<string>, n: nat, m: nat)
    requires n <= m <= |lines| && forall i | 0 <= i < m :: lines[i] != ""
    ensures HostsIn(lines, n).Bad? ==> HostsIn(lines, m) == HostsIn(lines, n)
    decreases m
  {
    if n < m { HostsStop(lines, n, m - 1); }
  }

  // -- the Host value

  predicate DigitChar(c: char) { '0' <= c <= '9' }
  predicate Digits(s: string) { s != "" && forall i | 0 <= i < |s| :: DigitChar(s[i]) }

  function Number(s: string): nat
    requires forall i | 0 <= i < |s| :: DigitChar(s[i])
  {
    if s == "" then 0
    else
      assert DigitChar(s[|s| - 1]);
      10 * Number(s[..|s| - 1]) + (s[|s| - 1] as int - '0' as int)
  }

  /** `_check_port` */
  predicate Port(s: string) { Digits(s) && |s| <= 5 && Number(s) <= 65535 }

  predicate Visible(s: string) { forall i | 0 <= i < |s| :: '!' <= s[i] <= '~' }

  /** `_strip_port` */
  function StripPort(h: string, v6: string -> bool): Parsed<string>
    requires h != ""
  {
    if h[0] == '[' then
      var end := IndexOf(h, ']');
      if end == |h| then Bad(BadHost)
      else if !v6(h[1..end]) then Bad(BadHost)
      else if end + 1 == |h| then Fine(h)
      else if h[end + 1] != ':' then Bad(BadHost)
      else if Port(h[end + 2..]) then Fine(h[..end + 1])
      else Bad(BadPort)
    else
      var i := AfterLast(h, ':');
      if i == 0 then Fine(h)
      else if i == 1 || !Without(h[..i - 1], ':') then Bad(BadHost)
      else if Port(h[i..]) then Fine(h[..i - 1])
      else Bad(BadPort)
  }

  /** Valid labels between dots, and perhaps the root's dot. */
  predicate DnsName(host: string) {
    host != "" &&
    var rootless := if host[|host| - 1] == '.' then host[..|host| - 1] else host;
    rootless != "" && forall i | 0 <= i < |Split(rootless, '.')| :: ValidLabel(Split(rootless, '.')[i])
  }

  /** `_validate_host` */
  function ValidateHost(value: string, v6: string -> bool): Parsed<string> {
    var v := Trim(value);
    if v == "" then Bad(EmptyHost)
    else if !Visible(v) then Bad(BadHostChar)
    else
      var stripped :- StripPort(v, v6);
      var host := Lower(stripped);
      if host == "" || '@' in host then Bad(BadHost)
      else if host[0] == '[' then Fine(host)
      else if ':' in host || !DnsName(host) then Bad(BadHost)
      else Fine(host)
  }

  /** uri-host: a DNS name in any case, or a bracketed IPv6 address. */
  ghost predicate UriHost(h: string, v6: string -> bool) {
    || (Visible(h) && ':' !in h && DnsName(Lower(h)))
    || exists a: string :: h == "[" + a + "]" && Without(a, ']') && '@' !in a && Visible(a) && v6(a)
  }

  predicate PortPart(p: string) { p == "" || (p[0] == ':' && Port(p[1..])) }

  /** OWS uri-host [ ":" port ] OWS */
  ghost predicate HostValue(value: string, h: string, p: string, v6: string -> bool) {
    && UriHost(h, v6) && PortPart(p)
    && exists a, b :: value == a + (h + p) + b && Blanks(a) && Blanks(b)
  }

  lemma LowerIs(s: string, c: char)
    requires c < 'A' || 'Z' < c < 'a' || 'z' < c
    ensures c in Lower(s) <==> c in s
    ensures s != "" ==> (Lower(s)[0] == c <==> s[0] == c)
  {
    if c in s {
      var i :| 0 <= i < |s| && s[i] == c;
      assert Lower(s)[i] == c;
    }
    if c in Lower(s) {
      var i :| 0 <= i < |s| && Lower(s)[i] == c;
      assert s[i] == c;
    }
  }

  predicate NameChar(c: char) { LowerAlnum(c) || c == '-' || c == '.' }

  /** A DNS name is made of label characters and dots, and starts with a letter or digit. */
  lemma DnsChars(host: string)
    requires DnsName(host)
    ensures host != "" && LowerAlnum(host[0]) && forall i | 0 <= i < |host| :: NameChar(host[i])
    ensures '@' !in host && ':' !in host && host[0] != '['
  {
    var rootless := if host[|host| - 1] == '.' then host[..|host| - 1] else host;
    var parts := Split(rootless, '.');
    forall i | 0 <= i < |host| ensures NameChar(host[i]) {
      if i < |rootless| && rootless[i] != '.' {
        SplitCovers(rootless, '.', i);
        var k :| 0 <= k < |parts| && rootless[i] in parts[k];
        assert ValidLabel(parts[k]);
      }
    }
    assert ValidLabel(parts[0]) && rootless[0] == parts[0][0];
  }

  lemma PortHasNoColon(p: string)
    requires Port(p)
    ensures Without(p, ':') && Visible(p)
  {
  }

  /** A DNS name and perhaps a port. */
  lemma NameAccepted(h: string, p: string, v6: string -> bool)
    requires Visible(h) && ':' !in h && DnsName(Lower(h)) && PortPart(p)
    ensures h != "" && StripPort(h + p, v6) == Fine(h)
    ensures '@' !in Lower(h) && ':' !in Lower(h)
  {
    hide DnsName, Port, Digits;
    DnsChars(Lower(h));
    LowerIs(h, '[');
    LowerIs(h, '@');
    LowerIs(h, ':');
    var s := h + p;
    assert s[0] == h[0] != '[';
    if p == "" {
      assert s == h;
      NoLast(h, ':');
    } else {
      assert s == h + ":" + p[1..];
      PortHasNoColon(p[1..]);
      LastIs(h, ':', p[1..]);
      assert s[..|h|] == h && s[|h| + 1..] == p[1..];
    }
  }

  /** A bracketed address and perhaps a port. */
  lemma AddressAccepted(a: string, p: string, v6: string -> bool)
    requires Without(a, ']') && v6(a) && PortPart(p)
    ensures StripPort("[" + a + "]" + p, v6) == Fine("[" + a + "]")
  {
    hide Port;
    var s := "[" + a + "]" + p;
    IndexIs("[" + a, ']', p);
    assert s[1..] == a + ("]" + p);
    assert s[1..|a| + 1] == a;
    assert s[..|a| + 2] == "[" + a + "]";
    assert s[|a| + 2..] == p;
    assert s[0] == '[';
    if p != "" {
      assert s[|a| + 2] == p[0] && s[|a| + 3..] == p[1..];
    } else {
      assert s == "[" + a + "]";
    }
  }

  lemma VisibleBoth(h: string, p: string)
    requires Visible(h) && PortPart(p)
    ensures Visible(h + p)
  {
    if p != "" { PortHasNoColon(p[1..]); assert p == ":" + p[1..]; }
  }

  /** The parser on a value of the grammar, its white space gone. */
  lemma HostAccepted(h: string, p: string, v6: string -> bool)
    requires UriHost(h, v6) && PortPart(p)
    ensures h != "" && Visible(h + p) && StripPort(h + p, v6) == Fine(h)
    ensures var host := Lower(h); '@' !in host && (host[0] == '[' || (':' !in host && DnsName(host)))
  {
    hide StripPort, PortPart, DnsName;
    if Visible(h) && ':' !in h && DnsName(Lower(h)) {
      NameAccepted(h, p, v6);
    } else {
      var a: string :| h == "[" + a + "]" && Without(a, ']') && '@' !in a && Visible(a) && v6(a);
      AddressAccepted(a, p, v6);
      LowerIs(h, '@');
      LowerIs(h, '[');
    }
    VisibleBoth(h, p);
  }

  lemma NoLast(s: string, c: char)
    requires Without(s, c)
    ensures AfterLast(s, c) == 0
  {
  }

  lemma StrippedShape(v: string, v6: string -> bool)
    requires v != "" && StripPort(v, v6).Fine?
    ensures var h := StripPort(v, v6).value; h <= v && PortPart(v[|h|..])
    ensures v[0] == '[' ==> var h := StripPort(v, v6).value;
              exists a: string :: h == "[" + a + "]" && Without(a, ']') && v6(a)
  {
    hide Port;
    if v[0] == '[' {
      var h, end := StripPort(v, v6).value, IndexOf(v, ']');
      var a := v[1..end];
      assert h == "[" + a + "]";
      assert Without(a, ']') by { assert forall i | 0 <= i < |a| :: a[i] == v[..end][i + 1]; }
    }
  }

  /** What the parser takes for host and port is of the grammar. */
  lemma HostParsed(v: string, v6: string -> bool)
    requires v != "" && Visible(v) && StripPort(v, v6).Fine?
    requires var host := Lower(StripPort(v, v6).value);
             host != "" && '@' !in host && (host[0] == '[' || (':' !in host && DnsName(host)))
    ensures var h := StripPort(v, v6).value;
            UriHost(h, v6) && exists p :: PortPart(p) && v == h + p
  {
    hide StripPort, PortPart, DnsName, UriHost;
    var h := StripPort(v, v6).value;
    StrippedShape(v, v6);
    LowerIs(h, '[');
    LowerIs(h, '@');
    LowerIs(h, ':');
    assert v == h + v[|h|..];
    assert Visible(h);
    if h[0] == '[' {
      var a: string :| h == "[" + a + "]" && Without(a, ']') && v6(a);
      AddressIsHost(a, v6);
    } else {
      NameIsHost(h, v6);
    }
  }

  lemma AddressIsHost(a: string, v6: string -> bool)
    requires Without(a, ']') && v6(a) && '@' !in "[" + a + "]" && Visible("[" + a + "]")
    ensures UriHost("[" + a + "]", v6)
  {
    var h := "[" + a + "]";
    assert forall i | 0 <= i < |a| :: a[i] == h[i + 1];
    assert '@' !in a && Visible(a);
  }

  lemma NameIsHost(h: string, v6: string -> bool)
    requires Visible(h) && ':' !in h && DnsName(Lower(h))
    ensures UriHost(h, v6)
  {
  }

  /** The Host value is accepted exactly when it is OWS uri-host [ ":" port ] OWS, and what is
      returned is the uri-host in lower case. */
  lemma HostIff(value: string, out: string, v6: string -> bool)
    ensures ValidateHost(value, v6) == Fine(out) <==> exists h, p :: HostValue(value, h, p, v6) && out == Lower(h)
  {
    hide StripPort, UriHost, PortPart, DnsName;
    if ValidateHost(value, v6) == Fine(out) {
      var v := Trim(value);
      HostParsed(v, v6);
      TrimIs(value);
      var h := StripPort(v, v6).value;
      var p :| PortPart(p) && v == h + p;
      assert HostValue(value, h, p, v6);
    }
    forall h, p | HostValue(value, h, p, v6) ensures ValidateHost(value, v6) == Fine(Lower(h)) {
      HostAccepted(h, p, v6);
      var a, b :| value == a + (h + p) + b && Blanks(a) && Blanks(b);
      TrimOf(a, h + p, b);
    }
  }

  /** Normalization changes nothing the second time, IPv6 being blind to case. */
  lemma HostIdempotent(value: string, v6: string -> bool)
    requires ValidateHost(value, v6).Fine? && forall s :: v6(s) ==> v6(Lower(s))
    ensures ValidateHost(ValidateHost(value, v6).value, v6) == ValidateHost(value, v6)
  {
    hide StripPort, DnsName;
    var out := ValidateHost(value, v6).value;
    HostIff(value, out, v6);
    var h, p :| HostValue(value, h, p, v6) && out == Lower(h);
    LowerUriHost(h, v6);
    assert out == "" + (out + "") + "" && Blanks("");
    assert HostValue(out, out, "", v6);
    LowerTwice(h);
    HostIff(out, out, v6);
  }

  lemma LowerTwice(s: string)
    ensures Lower(Lower(s)) == Lower(s)
  {
  }

  lemma LowerUriHost(h: string, v6: string -> bool)
    requires UriHost(h, v6) && forall s :: v6(s) ==> v6(Lower(s))
    ensures UriHost(Lower(h), v6)
  {
    LowerTwice(h);
    LowerIs(h, ':');
    if Visible(h) && ':' !in h && DnsName(Lower(h)) {
      assert Visible(Lower(h));
    } else {
      var a: string :| h == "[" + a + "]" && Without(a, ']') && '@' !in a && Visible(a) && v6(a);
      LowerIs(a, ']');
      LowerIs(a, '@');
      assert Lower(h) == "[" + Lower(a) + "]" && Visible(Lower(a));
    }
  }

  // -- the whole head

  predicate IsHostLine(line: string) { line != "" && ParseField(line).Fine? && IsHost(ParseField(line).value.0) }

  /** No Host line where HTTP/1.0 may go without, or exactly one and a valid one. */
  ghost predicate HostRule(fields: seq<string>, version: string, requireHost: bool, host: Option<string>, v6: string -> bool) {
    match host
    case None => !requireHost && version == "HTTP/1.0" && forall i | 0 <= i < |fields| :: !IsHostLine(fields[i])
    case Some(h) =>
      exists i | 0 <= i < |fields| ::
        && IsHostLine(fields[i]) && ValidateHost(ParseField(fields[i]).value.1, v6) == Fine(h)
        && forall j | 0 <= j < |fields| && j != i :: !IsHostLine(fields[j])
  }

  predicate FieldLines(fields: seq<string>) {
    forall i | 0 <= i < |fields| :: fields[i] != "" && ParseField(fields[i]).Fine?
  }

  /** The grammar: a request line, field lines, then the blank line with whatever follows it, or
      the end. No line has a CR or an LF in it. */
  ghost predicate Head(head: string, requireHost: bool, host: Option<string>, v6: string -> bool, lines: seq<string>,
                       fields: seq<string>, m: string, t: string, version: string)
  {
    && lines != [] && AllPlain(lines) && head == Join(lines, CRLF)
    && RequestLine(lines[0], m, t, version)
    && fields <= lines[1..] && (|fields| + 1 < |lines| ==> lines[|fields| + 1] == "")
    && FieldLines(fields)
    && HostRule(fields, version, requireHost, host, v6)
  }

  lemma {:induction false} HostsFine(lines: seq<string>, n: nat)
    requires n <= |lines| && forall i | 0 <= i < n :: lines[i] != ""
    ensures HostsIn(lines, n).Fine? <==> FieldLines(lines[..n])
  {
    hide ParseField;
    if n > 0 {
      HostsFine(lines, n - 1);
      assert lines[..n] == lines[..n - 1] + [lines[n - 1]];
      if FieldLines(lines[..n]) { assert ParseField(lines[..n][n - 1]).Fine?; }
      assert lines[..n][..n - 1] == lines[..n - 1];
      if HostsIn(lines, n).Fine? {
        forall i | 0 <= i < n ensures lines[..n][i] != "" && ParseField(lines[..n][i]).Fine? {
          if i < n - 1 { assert lines[..n - 1][i] == lines[i]; }
        }
      } else if HostsIn(lines, n - 1).Fine? {
        assert !ParseField(lines[..n][n - 1]).Fine?;
      } else {
        FewerFields(lines[..n]);
      }
    }
  }

  lemma FewerFields(fields: seq<string>)
    requires fields != []
    ensures FieldLines(fields) ==> FieldLines(fields[..|fields| - 1])
  {
  }

  /** The Host values found are those of the Host lines. */
  lemma {:induction false} HostsAre(lines: seq<string>, n: nat)
    requires n <= |lines| && (forall i | 0 <= i < n :: lines[i] != "") && HostsIn(lines, n).Fine?
    ensures HostsIn(lines, n).value == [] <==> forall i | 0 <= i < n :: !IsHostLine(lines[i])
    ensures |HostsIn(lines, n).value| == 1 ==>
              exists i | 0 <= i < n :: IsHostLine(lines[i]) && HostsIn(lines, n).value[0] == ParseField(lines[i]).value.1
                                    && forall j | 0 <= j < n && j != i :: !IsHostLine(lines[j])
    ensures |HostsIn(lines, n).value| > 1 ==>
              exists i, j | 0 <= i < j < n :: IsHostLine(lines[i]) && IsHostLine(lines[j])
  {
    hide ParseField, IsHost;
    if n > 0 {
      HostsAre(lines, n - 1);
      var before := HostsIn(lines, n - 1).value;
      if IsHostLine(lines[n - 1]) && |before| >= 1 {
        assert exists i | 0 <= i < n - 1 :: IsHostLine(lines[i]);
      }
    }
  }

  lemma {:induction false} BlockEndIs(lines: seq<string>, n: nat)
    requires n <= |lines| && (forall i | 0 <= i < n :: lines[i] != "") && (n < |lines| ==> lines[n] == "")
    ensures BlockEnd(lines) == n
  {
    if n > 0 {
      forall i | 0 <= i < n - 1 ensures lines[1..][i] != "" { assert lines[i + 1] != ""; }
      BlockEndIs(lines[1..], n - 1);
    }
  }

  lemma HostsRule(lines: seq<string>, n: nat, version: string, requireHost: bool, host: Option<string>, v6: string -> bool)
    requires n <= |lines| && (forall i | 0 <= i < n :: lines[i] != "") && HostsIn(lines, n).Fine? && Version(version)
    requires var hosts := HostsIn(lines, n).value;
             if host.None? then hosts == [] && !requireHost && version != "HTTP/1.1"
             else |hosts| == 1 && ValidateHost(hosts[0], v6) == Fine(host.value)
    ensures FieldLines(lines[..n]) && HostRule(lines[..n], version, requireHost, host, v6)
  {
    hide ParseField, ValidateHost, IsHostLine, HostsIn;
    HostsFine(lines, n);
    HostsAre(lines, n);
    var fields := lines[..n];
    if host.Some? {
      var i :| 0 <= i < n && IsHostLine(lines[i]) && HostsIn(lines, n).value[0] == ParseField(lines[i]).value.1
               && forall j | 0 <= j < n && j != i :: !IsHostLine(lines[j]);
      assert fields[i] == lines[i];
    }
  }

  /** The parser accepts exactly the heads of the grammar, and returns their Host. */
  lemma HeadSound(head: string, requireHost: bool, v6: string -> bool)
    requires ParseHead(head, requireHost, v6).Fine?
    ensures exists lines, fields, m, t, version ::
              Head(head, requireHost, ParseHead(head, requireHost, v6).value, v6, lines, fields, m, t, version)
  {
    hide ParseField, ParseRequestLine, ValidateHost, RequestLine, Clean, IsHostLine, SplitLines, Join, HostsIn, BlockEnd,
      FieldLines, HostRule;
    var lines := SplitLines(head);
    var block := lines[1..];
    var n := BlockEnd(block);
    var fields := block[..n];
    var version := ParseRequestLine(lines[0]).value;
    var host := ParseHead(head, requireHost, v6).value;
    SplitLinesJoins(head);
    RequestLineIff(lines[0], version);
    var m, t :| RequestLine(lines[0], m, t, version);
    HostsFine(block, n);
    HostsAre(block, n);
    VersionOf(lines[0]);
    HostsRule(block, n, version, requireHost, host, v6);
    assert Head(head, requireHost, host, v6, lines, fields, m, t, version);
  }

  lemma VersionOf(line: string)
    requires ParseRequestLine(line).Fine?
    ensures Version(ParseRequestLine(line).value)
  {
  }

  lemma HeadComplete(head: string, requireHost: bool, host: Option<string>, v6: string -> bool, lines: seq<string>,
                     fields: seq<string>, m: string, t: string, version: string)
    requires Head(head, requireHost, host, v6, lines, fields, m, t, version)
    ensures ParseHead(head, requireHost, v6) == Fine(host)
  {
    hide ParseField, ParseRequestLine, ValidateHost, RequestLine, Clean, IsHostLine;
    var block, n := lines[1..], |fields|;
    JoinSplitLines(lines);
    RequestLineIff(lines[0], version);
    forall i | 0 <= i < n ensures block[i] == fields[i] && block[i] != "" {}
    BlockEndIs(block, n);
    assert block[..n] == fields;
    HostsFine(block, n);
    HostsAre(block, n);
    if host.Some? {
      var i :| 0 <= i < |fields|
        && IsHostLine(fields[i]) && ValidateHost(ParseField(fields[i]).value.1, v6) == Fine(host.value)
        && forall j | 0 <= j < |fields| && j != i :: !IsHostLine(fields[j]);
      assert IsHostLine(block[i]);
    }
  }

  lemma HeadIff(head: string, requireHost: bool, host: Option<string>, v6: string -> bool)
    ensures ParseHead(head, requireHost, v6) == Fine(host) <==>
            exists lines, fields, m, t, version :: Head(head, requireHost, host, v6, lines, fields, m, t, version)
  {
    hide ParseHead, Head;
    if ParseHead(head, requireHost, v6) == Fine(host) { HeadSound(head, requireHost, v6); }
    forall lines, fields, m, t, version | Head(head, requireHost, host, v6, lines, fields, m, t, version)
      ensures ParseHead(head, requireHost, v6) == Fine(host)
    {
      HeadComplete(head, requireHost, host, v6, lines, fields, m, t, version);
    }
  }
}
