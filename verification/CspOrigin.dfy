/** The origins a deployment may add to the content security policy: what the
    validator accepts, and what accepted origins do to the policy they join. */
module CspOrigin {
  import opened Common

  // ---------------------------------------------------------------------------
  // Splitting and joining
  // ---------------------------------------------------------------------------

  /** The stretches between occurrences of `c`; one more than there are. */
  function Split(s: string, c: char): (parts: seq<string>)
    ensures parts != []
  {
    if s == [] then [[]]
    else
      var rest := Split(s[1..], c);
      if s[0] == c then [[]] + rest else [[s[0]] + rest[0]] + rest[1..]
  }

  function Join(parts: seq<string>, c: char): string {
    if parts == [] then []
    else if |parts| == 1 then parts[0]
    else parts[0] + [c] + Join(parts[1..], c)
  }

  /** Where `c` occurs last. */
  function LastIndex(s: string, c: char): (i: Option<nat>)
    ensures i.Some? ==> i.value < |s| && s[i.value] == c && c !in s[i.value + 1..]
    ensures i.None? ==> c !in s
  {
    if s == [] then None
    else if s[|s| - 1] == c then Some(|s| - 1)
    else LastIndex(s[..|s| - 1], c)
  }

  lemma {:induction false} SplitWhole(s: string, c: char)
    requires c !in s
    ensures Split(s, c) == [s]
  {
    if s == [] {
    } else {
      SplitWhole(s[1..], c);
      assert [s[0]] + s[1..] == s;
    }
  }

  /** The parts of two texts put together: the last of the one and the first of the
      other become one. */
  function Glue(left: seq<string>, right: seq<string>): seq<string>
    requires left != [] && right != []
  {
    left[..|left| - 1] + [left[|left| - 1] + right[0]] + right[1..]
  }

  lemma GlueCons(first: string, left: seq<string>, right: seq<string>)
    requires left != [] && right != []
    ensures Glue([first] + left, right) == [first] + Glue(left, right)
  {
    var more := [first] + left;
    assert more[..|more| - 1] == [first] + left[..|left| - 1];
  }

  lemma GlueExtends(c: char, left: seq<string>, right: seq<string>)
    requires left != [] && right != []
    ensures var whole := Glue(left, right);
            Glue([[c] + left[0]] + left[1..], right) == [[c] + whole[0]] + whole[1..]
  {
    var more, whole := [[c] + left[0]] + left[1..], Glue(left, right);
    if |left| == 1 {
      assert [c] + left[0] + right[0] == [c] + (left[0] + right[0]);
    } else {
      assert more[..|more| - 1] == [[c] + left[0]] + left[1..|left| - 1];
      assert whole[1..] == left[1..|left| - 1] + [left[|left| - 1] + right[0]] + right[1..];
    }
  }

  lemma {:induction false} SplitConcat(a: string, b: string, c: char)
    ensures Split(a + b, c) == Glue(Split(a, c), Split(b, c))
  {
    var right := Split(b, c);
    if a == [] {
      assert a + b == b;
      assert [] + right[0] == right[0];
    } else {
      SplitConcat(a[1..], b, c);
      assert (a + b)[1..] == a[1..] + b;
      if a[0] == c {
        GlueCons([], Split(a[1..], c), right);
      } else {
        GlueExtends(a[0], Split(a[1..], c), right);
      }
    }
  }

  lemma {:induction false} SplitAtSeparator(a: string, b: string, c: char)
    ensures Split(a + [c] + b, c) == Split(a, c) + Split(b, c)
  {
    var left, right := Split(a, c), Split(b, c);
    SplitConcat(a, [c], c);
    assert Split([], c) == [[]];
    assert Split([c], c) == [[], []];
    assert left[|left| - 1] + [] == left[|left| - 1];
    assert Split(a + [c], c) == left + [[]];
    SplitConcat(a + [c], b, c);
    assert [] + right[0] == right[0];
  }

  lemma {:induction false} SplitJoin(parts: seq<string>, c: char)
    requires parts != [] && forall p :: p in parts ==> c !in p
    ensures Split(Join(parts, c), c) == parts
  {
    SplitWhole(parts[0], c);
    if |parts| > 1 {
      SplitJoin(parts[1..], c);
      SplitAtSeparator(parts[0], Join(parts[1..], c), c);
    }
  }

  /** Joining is a cons on the first part. */
  lemma JoinExtends(x: char, parts: seq<string>, c: char)
    requires parts != []
    ensures Join([[x] + parts[0]] + parts[1..], c) == [x] + Join(parts, c)
  {
    var more := [[x] + parts[0]] + parts[1..];
    assert more[1..] == parts[1..];
  }

  lemma {:induction false} JoinSplit(s: string, c: char)
    ensures Join(Split(s, c), c) == s
    ensures forall p :: p in Split(s, c) ==> c !in p
  {
    if s == [] {
    } else {
      var rest := Split(s[1..], c);
      JoinSplit(s[1..], c);
      if s[0] == c {
        assert ([[]] + rest)[1..] == rest;
      } else {
        JoinExtends(s[0], rest, c);
      }
    }
  }

  // ---------------------------------------------------------------------------
  // Port numbers
  // ---------------------------------------------------------------------------

  predicate IsDigit(c: char) {
    '0' <= c <= '9'
  }

  predicate AllDigits(s: string) {
    forall i :: 0 <= i < |s| ==> IsDigit(s[i])
  }

  function DigitOf(c: char): nat
    requires IsDigit(c)
  {
    c as int - '0' as int
  }

  function Value(s: string): nat
    requires AllDigits(s)
  {
    if s == [] then 0 else 10 * Value(s[..|s| - 1]) + DigitOf(s[|s| - 1])
  }

  /** Reading an unsigned 16-bit number: a sign is taken, then decimal digits. */
  function ParseU16(s: string): Option<nat> {
    var digits := if |s| > 1 && s[0] == '+' then s[1..] else s;
    if digits != [] && AllDigits(digits) && Value(digits) <= 0xFFFF then Some(Value(digits)) else None
  }

  function Digit(d: nat): (c: char)
    requires d < 10
    ensures IsDigit(c) && DigitOf(c) == d
  {
    '0' + d as char
  }

  function Decimal(n: nat): (s: string)
    ensures s != [] && AllDigits(s)
  {
    if n < 10 then [Digit(n)] else Decimal(n / 10) + [Digit(n % 10)]
  }

  function Zeros(n: nat): (s: string)
    ensures |s| == n && AllDigits(s) && forall i :: 0 <= i < n ==> s[i] == '0'
  {
    seq(n, _ => '0')
  }

  lemma {:induction false} DecimalReads(zeros: nat, n: nat)
    ensures AllDigits(Zeros(zeros) + Decimal(n)) && Value(Zeros(zeros) + Decimal(n)) == n
    ensures n > 0 ==> Decimal(n)[0] != '0'
    decreases n, zeros
  {
    var s := Zeros(zeros) + Decimal(n);
    if n >= 10 {
      DecimalReads(zeros, n / 10);
      assert s[..|s| - 1] == Zeros(zeros) + Decimal(n / 10);
    } else {
      assert s[..|s| - 1] == Zeros(zeros);
      ZerosRead(Zeros(zeros));
    }
  }

  lemma {:induction false} ZerosRead(s: string)
    requires AllDigits(s)
    ensures Value(s) == 0 <==> s == Zeros(|s|)
  {
    if s == [] {
    } else {
      ZerosRead(s[..|s| - 1]);
      assert s == s[..|s| - 1] + [s[|s| - 1]];
      if s == Zeros(|s|) {
        assert s[..|s| - 1] == Zeros(|s| - 1);
      }
    }
  }

  /** Digits are zeros before the decimal form of their value. */
  lemma {:induction false} DigitsAreDecimal(s: string) returns (zeros: nat)
    requires AllDigits(s) && s != [] && Value(s) > 0
    ensures s == Zeros(zeros) + Decimal(Value(s))
  {
    var front, last := s[..|s| - 1], s[|s| - 1];
    assert s == front + [last];
    assert last == Digit(DigitOf(last));
    if Value(front) == 0 {
      ZerosRead(front);
      zeros := |front|;
    } else {
      zeros := DigitsAreDecimal(front);
      assert Value(s) / 10 == Value(front) && Value(s) % 10 == DigitOf(last);
      assert Decimal(Value(s)) == Decimal(Value(front)) + [last];
    }
  }

  // ---------------------------------------------------------------------------
  // The validator
  // ---------------------------------------------------------------------------

  predicate IsAlphanumeric(c: char) {
    'a' <= c <= 'z' || 'A' <= c <= 'Z' || IsDigit(c)
  }

  predicate LabelOk(l: string) {
    && 0 < |l| <= 63
    && l[0] != '-' && l[|l| - 1] != '-'
    && forall c :: c in l ==> IsAlphanumeric(c) || c == '-'
  }

  predicate PortOk(port: string) {
    ParseU16(port).Some? && ParseU16(port).value > 0 && port[0] != '0'
  }

  predicate HostOk(host: string) {
    var labels := if "*." <= host then host[2..] else host;
    && labels != "" && |labels| <= 253
    && forall l :: l in Split(labels, '.') ==> LabelOk(l)
  }

  predicate AuthorityOk(rest: string) {
    var colon := LastIndex(rest, ':');
    if colon.Some? then PortOk(rest[colon.value + 1..]) && HostOk(rest[..colon.value]) else HostOk(rest)
  }

  function StripScheme(source: string): Option<string> {
    if "https://" <= source then Some(source[8..])
    else if "http://" <= source then Some(source[7..])
    else None
  }

  predicate Accepts(source: string) {
    StripScheme(source).Some? && AuthorityOk(StripScheme(source).value)
  }

  // ---------------------------------------------------------------------------
  // The grammar it recognises
  // ---------------------------------------------------------------------------

  /** A port as it is written: perhaps signed, and then perhaps zero-padded. */
  datatype Port = Port(plus: bool, zeros: nat, number: nat)

  datatype Origin = Origin(secure: bool, wildcard: bool, labels: seq<string>, port: Option<Port>)

  predicate PortWellFormed(p: Port) {
    1 <= p.number <= 0xFFFF && (p.zeros > 0 ==> p.plus)
  }

  predicate WellFormed(o: Origin) {
    && o.labels != [] && |Join(o.labels, '.')| <= 253
    && (forall l :: l in o.labels ==> LabelOk(l))
    && (o.port.Some? ==> PortWellFormed(o.port.value))
  }

  function RenderPort(p: Port): string {
    (if p.plus then "+" else "") + (Zeros(p.zeros) + Decimal(p.number))
  }

  function RenderHost(wildcard: bool, labels: seq<string>): string {
    (if wildcard then "*." else "") + Join(labels, '.')
  }

  function RenderScheme(secure: bool): string {
    if secure then "https://" else "http://"
  }

  function Authority(host: string, port: Option<string>): string {
    if port.Some? then host + ":" + port.value else host
  }

  function WrittenPort(port: Option<Port>): Option<string> {
    if port.Some? then Some(RenderPort(port.value)) else None
  }

  function RenderAuthority(o: Origin): string {
    Authority(RenderHost(o.wildcard, o.labels), WrittenPort(o.port))
  }

  function Render(o: Origin): string {
    RenderScheme(o.secure) + RenderAuthority(o)
  }

  lemma PortIsAccepted(p: Port)
    requires PortWellFormed(p)
    ensures PortOk(RenderPort(p)) && ':' !in RenderPort(p)
    ensures ParseU16(RenderPort(p)) == Some(p.number)
  {
    DecimalReads(p.zeros, p.number);
    var digits := Zeros(p.zeros) + Decimal(p.number);
    if p.plus {
      assert RenderPort(p)[1..] == digits;
    } else {
      assert "" + digits == digits;
      assert RenderPort(p) == digits == Decimal(p.number);
      assert IsDigit(digits[0]);
    }
  }

  lemma AcceptedIsPort(s: string) returns (p: Port)
    requires PortOk(s)
    ensures PortWellFormed(p) && RenderPort(p) == s
  {
    var plus := |s| > 1 && s[0] == '+';
    var digits := if plus then s[1..] else s;
    var zeros := DigitsAreDecimal(digits);
    p := Port(plus, zeros, Value(digits));
    assert zeros > 0 ==> digits[0] == '0';
  }

  /** The characters of labels and dots. */
  predicate IsHostChar(c: char) {
    IsAlphanumeric(c) || c == '-' || c == '.'
  }

  lemma {:induction false} LabelsJoinToHostChars(labels: seq<string>)
    requires labels != [] && forall l :: l in labels ==> LabelOk(l)
    ensures var host := Join(labels, '.');
            host != "" && IsAlphanumeric(host[0]) && forall c :: c in host ==> IsHostChar(c)
  {
    assert LabelOk(labels[0]) && labels[0][0] in labels[0];
    if |labels| > 1 {
      LabelsJoinToHostChars(labels[1..]);
    }
  }

  lemma HostIsAccepted(wildcard: bool, labels: seq<string>)
    requires labels != [] && |Join(labels, '.')| <= 253 && forall l :: l in labels ==> LabelOk(l)
    ensures var host := RenderHost(wildcard, labels);
            && HostOk(host) && ':' !in host
            && ("*." <= host <==> wildcard)
  {
    LabelsJoinToHostChars(labels);
    var text, host := Join(labels, '.'), RenderHost(wildcard, labels);
    SplitJoin(labels, '.');
    if wildcard {
      assert host[2..] == text;
    } else {
      assert host == text && host[0] != '*';
    }
  }

  lemma AcceptedIsHost(host: string) returns (labels: seq<string>)
    requires HostOk(host)
    ensures labels != [] && |Join(labels, '.')| <= 253 && forall l :: l in labels ==> LabelOk(l)
    ensures host == RenderHost("*." <= host, labels)
  {
    var text := if "*." <= host then host[2..] else host;
    labels := Split(text, '.');
    JoinSplit(text, '.');
  }

  lemma {:induction false} LastIndexOfTail(host: string, port: string)
    requires ':' !in port
    ensures LastIndex(host + ":" + port, ':') == Some(|host|)
    decreases |port|
  {
    var s := host + ":" + port;
    if port == [] {
      assert s[|host|] == ':';
    } else {
      var front := port[..|port| - 1];
      assert s[|s| - 1] == port[|port| - 1] != ':';
      assert s[..|s| - 1] == host + ":" + front;
      assert forall k :: 0 <= k < |front| ==> front[k] == port[k];
      LastIndexOfTail(host, front);
    }
  }

  lemma SchemeStrips(secure: bool, rest: string)
    ensures StripScheme(RenderScheme(secure) + rest) == Some(rest)
    ensures "https://" <= RenderScheme(secure) + rest <==> secure
  {
    var s := RenderScheme(secure) + rest;
    assert s[4] == if secure then 's' else ':';
    assert s[|RenderScheme(secure)|..] == rest;
  }

  /** The last colon ends the host. */
  lemma AuthoritySplits(host: string, port: Option<string>)
    requires ':' !in host && (port.Some? ==> ':' !in port.value)
    ensures var rest := Authority(host, port);
            var colon := LastIndex(rest, ':');
            && colon == (if port.Some? then Some(|host|) else None)
            && host == (if colon.Some? then rest[..colon.value] else rest)
            && port == if colon.Some? then Some(rest[colon.value + 1..]) else None
  {
    if port.Some? {
      LastIndexOfTail(host, port.value);
    }
  }

  lemma AuthorityJoins(rest: string) returns (host: string, port: Option<string>)
    ensures Authority(host, port) == rest
    ensures AuthorityOk(rest) <==> HostOk(host) && (port.Some? ==> PortOk(port.value))
  {
    var colon := LastIndex(rest, ':');
    if colon.Some? {
      host, port := rest[..colon.value], Some(rest[colon.value + 1..]);
    } else {
      host, port := rest, None;
    }
  }

  lemma AuthorityIsAccepted(o: Origin)
    requires WellFormed(o)
    ensures AuthorityOk(RenderAuthority(o))
    ensures var host, port := RenderHost(o.wildcard, o.labels), WrittenPort(o.port);
            ':' !in host && (port.Some? ==> ':' !in port.value)
  {
    HostIsAccepted(o.wildcard, o.labels);
    if o.port.Some? {
      PortIsAccepted(o.port.value);
    }
    AuthoritySplits(RenderHost(o.wildcard, o.labels), WrittenPort(o.port));
  }

  lemma AcceptedIsAuthority(rest: string, secure: bool) returns (o: Origin)
    requires AuthorityOk(rest)
    ensures WellFormed(o) && o.secure == secure && RenderAuthority(o) == rest
  {
    var host, port := AuthorityJoins(rest);
    var labels := AcceptedIsHost(host);
    o := Origin(secure, "*." <= host, labels, None);
    if port.Some? {
      var p := AcceptedIsPort(port.value);
      o := o.(port := Some(p));
    }
  }

  lemma RenderedIsAccepted(o: Origin)
    requires WellFormed(o)
    ensures Accepts(Render(o))
  {
    SchemeStrips(o.secure, RenderAuthority(o));
    AuthorityIsAccepted(o);
  }

  lemma AcceptedIsRendered(source: string) returns (o: Origin)
    requires Accepts(source)
    ensures WellFormed(o) && Render(o) == source
  {
    var secure := "https://" <= source;
    var rest := StripScheme(source).value;
    assert source == RenderScheme(secure) + rest;
    o := AcceptedIsAuthority(rest, secure);
  }

  /** The validator accepts exactly the written forms of origins. */
  lemma AcceptsIffOrigin(source: string)
    ensures Accepts(source) <==> exists o :: WellFormed(o) && Render(o) == source
  {
    if Accepts(source) {
      var o := AcceptedIsRendered(source);
    }
    forall o | WellFormed(o) && Render(o) == source ensures Accepts(source) {
      RenderedIsAccepted(o);
    }
  }

  lemma PortIsUnique(p: Port, q: Port)
    requires PortWellFormed(p) && PortWellFormed(q) && RenderPort(p) == RenderPort(q)
    ensures p == q
  {
    PortIsAccepted(p);
    PortIsAccepted(q);
    DecimalReads(p.zeros, p.number);
    DecimalReads(q.zeros, q.number);
    assert IsDigit((Zeros(p.zeros) + Decimal(p.number))[0]);
    assert IsDigit((Zeros(q.zeros) + Decimal(q.number))[0]);
    assert p.plus == q.plus;
  }

  lemma HostIsUnique(o: Origin, p: Origin)
    requires WellFormed(o) && WellFormed(p)
    requires RenderHost(o.wildcard, o.labels) == RenderHost(p.wildcard, p.labels)
    ensures o.wildcard == p.wildcard && o.labels == p.labels
  {
    HostIsAccepted(o.wildcard, o.labels);
    HostIsAccepted(p.wildcard, p.labels);
    var host := RenderHost(o.wildcard, o.labels);
    assert Join(o.labels, '.') == host[if o.wildcard then 2 else 0..];
    assert Join(p.labels, '.') == host[if p.wildcard then 2 else 0..];
    SplitJoin(o.labels, '.');
    SplitJoin(p.labels, '.');
  }

  lemma AuthorityIsUnique(o: Origin, p: Origin)
    requires WellFormed(o) && WellFormed(p) && RenderAuthority(o) == RenderAuthority(p)
    ensures o.wildcard == p.wildcard && o.labels == p.labels && o.port == p.port
  {
    AuthorityIsAccepted(o);
    AuthorityIsAccepted(p);
    AuthoritySplits(RenderHost(o.wildcard, o.labels), WrittenPort(o.port));
    AuthoritySplits(RenderHost(p.wildcard, p.labels), WrittenPort(p.port));
    HostIsUnique(o, p);
    if o.port.Some? {
      PortIsUnique(o.port.value, p.port.value);
    }
  }

  /** And reads in each exactly one scheme, wildcard, list of labels and port. */
  lemma OriginIsUnique(o: Origin, p: Origin)
    requires WellFormed(o) && WellFormed(p) && Render(o) == Render(p)
    ensures o == p
  {
    SchemeStrips(o.secure, RenderAuthority(o));
    SchemeStrips(p.secure, RenderAuthority(p));
    AuthorityIsUnique(o, p);
  }

  // ---------------------------------------------------------------------------
  // Against the documented form
  // ---------------------------------------------------------------------------

  /** The documented form: after the colon come digits, and nothing else. */
  ghost predicate Documented(source: string) {
    exists o :: WellFormed(o) && Render(o) == source && (o.port.Some? ==> !o.port.value.plus)
  }

  /** A signed port is accepted although the documented form has none. */
  lemma SignedPortIsAccepted()
    ensures Accepts("http://a:+080") && !Documented("http://a:+080")
  {
    var o := Origin(false, false, ["a"], Some(Port(true, 1, 80)));
    assert Join(["a"], '.') == "a";
    assert Decimal(8) == "8" && Decimal(80) == "80" && Zeros(1) == "0";
    assert Render(o) == "http://a:+080";
    assert LabelOk("a");
    RenderedIsAccepted(o);
    forall p | WellFormed(p) && Render(p) == "http://a:+080" ensures p.port.Some? && p.port.value.plus {
      OriginIsUnique(o, p);
    }
  }

  /** That is the only difference: what is accepted has the documented form if and
      only if no plus sign occurs in it. */
  lemma DocumentedIffUnsigned(source: string)
    ensures Documented(source) <==> Accepts(source) && '+' !in source
  {
    if Accepts(source) {
      var o := AcceptedIsRendered(source);
      PlusIsTheSign(o);
    }
    forall o | WellFormed(o) && Render(o) == source && (o.port.Some? ==> !o.port.value.plus)
      ensures Accepts(source) && '+' !in source
    {
      RenderedIsAccepted(o);
      PlusIsTheSign(o);
    }
  }

  lemma PlusIsTheSign(o: Origin)
    requires WellFormed(o)
    ensures '+' in Render(o) <==> o.port.Some? && o.port.value.plus
    ensures forall c :: c in Render(o) ==> IsOriginChar(c)
  {
    HostChars(o.wildcard, o.labels);
    assert forall c :: c in RenderScheme(o.secure) ==> IsOriginChar(c) && c != '+';
    if o.port.Some? {
      PortChars(o.port.value);
    }
  }

  lemma HostChars(wildcard: bool, labels: seq<string>)
    requires labels != [] && forall l :: l in labels ==> LabelOk(l)
    ensures forall c :: c in RenderHost(wildcard, labels) ==> IsHostChar(c) || c == '*'
  {
    LabelsJoinToHostChars(labels);
  }

  lemma PortChars(p: Port)
    ensures '+' in RenderPort(p) <==> p.plus
    ensures forall c :: c in RenderPort(p) ==> IsDigit(c) || c == '+'
  {
    var digits := Zeros(p.zeros) + Decimal(p.number);
    DecimalReads(p.zeros, p.number);
    if p.plus {
      assert RenderPort(p)[0] == '+';
    } else {
      assert RenderPort(p) == digits;
    }
  }

  // ---------------------------------------------------------------------------
  // In the policy
  // ---------------------------------------------------------------------------

  predicate IsOriginChar(c: char) {
    IsHostChar(c) || c == '*' || c == ':' || c == '/' || c == '+'
  }

  /** Accepted origins as they are appended to a directive. */
  function JoinHosts(hosts: seq<string>): string {
    if hosts == [] then "" else " " + Join(hosts, ' ')
  }

  lemma AcceptedChars(source: string)
    requires Accepts(source)
    ensures forall c :: c in source ==> IsOriginChar(c)
  {
    var o := AcceptedIsRendered(source);
    PlusIsTheSign(o);
  }

  lemma {:induction false} JoinChars(hosts: seq<string>)
    requires forall h :: h in hosts ==> Accepts(h)
    ensures forall c :: c in Join(hosts, ' ') ==> IsOriginChar(c) || c == ' '
  {
    if hosts == [] {
    } else {
      AcceptedChars(hosts[0]);
      JoinChars(hosts[1..]);
    }
  }

  /** A directive given accepted origins has its own sources, then exactly those
      origins: none is split, merged or lost. */
  lemma DirectiveGainsHosts(directive: string, hosts: seq<string>)
    requires forall h :: h in hosts ==> Accepts(h)
    ensures Split(directive + JoinHosts(hosts), ' ') == Split(directive, ' ') + hosts
  {
    if hosts == [] {
      assert directive + "" == directive;
    } else {
      forall h | h in hosts ensures ' ' !in h {
        AcceptedChars(h);
      }
      SplitJoin(hosts, ' ');
      SplitAtSeparator(directive, Join(hosts, ' '), ' ');
      assert directive + JoinHosts(hosts) == directive + " " + Join(hosts, ' ');
    }
  }

  /** And the policy around it keeps its directives: only the one they are put in
      changes. */
  lemma PolicyKeepsDirectives(before: string, hosts: seq<string>, after: string)
    requires forall h :: h in hosts ==> Accepts(h)
    ensures var left, right := Split(before, ';'), Split(after, ';');
            Split(before + JoinHosts(hosts) + after, ';') ==
              left[..|left| - 1] + [left[|left| - 1] + JoinHosts(hosts) + right[0]] + right[1..]
  {
    var added := JoinHosts(hosts);
    JoinChars(hosts);
    SplitWhole(added, ';');
    SplitConcat(before, added, ';');
    SplitConcat(before + added, after, ';');
  }
}
