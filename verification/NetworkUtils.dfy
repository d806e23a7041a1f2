/** The hand-written address validators of src/network/utils/NetworkUtils.cpp accept exactly the
grammar.  `std::isdigit` and `std::isxdigit` are those of the "C" locale. */
module NetworkUtils {
  import opened Model
  import opened Decimal
  import opened Text
  import opened IpGrammar

  // ----- Tokens

  method ParseDecimalOctet(token: string) returns (ok: bool, value: nat)
    ensures ok <==> DecOctet(token)
    ensures ok ==> (forall c | c in token :: IsDigit(c)) && value == Value(token) <= 255
  {
    ok, value := false, 0;
    if token == "" || |token| > 3 {
      return;
    }
    if |token| > 1 && token[0] == '0' {
      return;
    }
    var parsed := 0;
    assert token[..0] == "";
    for i := 0 to |token|
      invariant forall c | c in token[..i] :: IsDigit(c)
      invariant parsed == Value(token[..i])
    {
      assert token[..i + 1][..i] == token[..i];
      assert token[..i + 1] == token[..i] + [token[i]];
      if !IsDigit(token[i]) {
        NotAnOctet(token, i);
        return;
      }
      parsed := parsed * 10 + (token[i] as int - '0' as int);
    }
    assert token[..|token|] == token;
    OctetByValue(token);
    if parsed > 255 {
      return;
    }
    ok, value := true, parsed;
  }

  lemma {:induction false} NotAnOctet(token: string, i: nat)
    requires i < |token| && !IsDigit(token[i])
    ensures !DecOctet(token)
  {
  }

  /** dec-octet is the decimals from 0 to 255 without leading zeros. */
  lemma {:induction false} OctetByValue(token: string)
    requires 1 <= |token| <= 3 && (forall c | c in token :: IsDigit(c))
    requires |token| > 1 ==> token[0] != '0'
    ensures DecOctet(token) <==> Value(token) <= 255
  {
    var n := |token|;
    forall i | 0 <= i < n ensures IsDigit(token[i]) {
      assert token[i] in token;
    }
    ValueUnfold(token);
    if n > 1 {
      ValueUnfold(token[..n - 1]);
      if n > 2 {
        ValueUnfold(token[..n - 1][..n - 2]);
      }
    }
  }

  lemma {:induction false} ValueUnfold(s: string)
    requires s != "" && forall c | c in s :: IsDigit(c)
    ensures (forall c | c in s[..|s| - 1] :: IsDigit(c))
    ensures Value(s) == Value(s[..|s| - 1]) * 10 + (s[|s| - 1] as int - '0' as int)
    ensures |s| == 1 ==> Value(s) == s[0] as int - '0' as int
  {
    if |s| == 1 {
      assert s[..|s| - 1] == "";
    }
  }

  method ParseHextet(token: string) returns (ok: bool)
    ensures ok <==> H16(token)
  {
    if token == "" || |token| > 4 {
      return false;
    }
    for i := 0 to |token|
      invariant forall j | 0 <= j < i :: IsHexDigit(token[j])
    {
      if !IsHexDigit(token[i]) {
        assert token[i] in token;
        return false;
      }
    }
    return true;
  }

  // ----- IPv4

  lemma {:induction false} OctetsAreClean(p: string)
    requires DecOctet(p)
    ensures '.' !in p && ':' !in p && p != "" && forall c | c in p :: IsDigit(c)
  {
  }

  lemma {:induction false} FourParts(a: string, b: string, c: string, d: string)
    ensures Joined([a, b, c, d], '.') == a + "." + b + "." + c + "." + d
  {
    var ps := [a, b, c, d];
    assert ps[..3][..2] == [a, b] && ps[..3][..2][..1] == [a] && ps[..3][..2][..1][..0] == [];
    assert Terminated([a], '.') == "" + a + ".";
    assert Terminated([a, b], '.') == Terminated([a], '.') + b + "." by { assert [a, b][..1] == [a]; }
    assert Terminated([a, b, c], '.') == Terminated([a, b], '.') + c + "." by { assert [a, b, c][..2] == [a, b]; }
    assert ps[..3] == [a, b, c];
  }

  lemma {:induction false} IPv4ByParts(s: string)
    ensures IPv4Address(s) <==> |Split(s, '.')| == 4 && forall p | p in Split(s, '.') :: DecOctet(p)
  {
    hide DecOctet;
    var parts := Split(s, '.');
    SplitJoins(s, '.');
    if |parts| == 4 && forall p | p in parts :: DecOctet(p) {
      assert parts == [parts[0], parts[1], parts[2], parts[3]];
      FourParts(parts[0], parts[1], parts[2], parts[3]);
      assert parts[0] in parts && parts[1] in parts && parts[2] in parts && parts[3] in parts;
    }
    if IPv4Address(s) {
      var a, b, c, d :| DecOctet(a) && DecOctet(b) && DecOctet(c) && DecOctet(d) &&
        s == a + "." + b + "." + c + "." + d;
      FourParts(a, b, c, d);
      OctetsAreClean(a);
      OctetsAreClean(b);
      OctetsAreClean(c);
      OctetsAreClean(d);
      SplitOfJoined([a, b, c, d], '.');
    }
  }

  method IsValidIpv4(address: string) returns (valid: bool)
    ensures valid <==> IPv4Address(address)
  {
    hide DecOctet, IPv4Address;
    IPv4ByParts(address);
    var parts := SplitLoop(address, '.');
    if |parts| != 4 {
      return false;
    }
    for i := 0 to |parts|
      invariant forall j | 0 <= j < i :: DecOctet(parts[j])
    {
      var ok, _ := ParseDecimalOctet(parts[i]);
      if !ok {
        assert parts[i] in parts;
        return false;
      }
    }
    return true;
  }

  // ----- IPv6: where "::" can be

  predicate Double(s: string, i: nat) {
    i + 1 < |s| && s[i] == ':' && s[i + 1] == ':'
  }

  ghost predicate AtMostOneDouble(s: string) {
    forall i: nat, j: nat | Double(s, i) && Double(s, j) :: i == j
  }

  predicate GroupChars(s: string) {
    forall i | 0 <= i < |s| :: IsHexDigit(s[i]) || s[i] == ':'
  }

  lemma {:induction false} GroupShape(p: string)
    requires H16(p)
    ensures p != "" && forall i | 0 <= i < |p| :: IsHexDigit(p[i]) && p[i] != ':' && p[i] != '.'
  {
    assert forall i | 0 <= i < |p| :: p[i] in p;
  }

  lemma {:induction false} TerminatedShape(ps: seq<string>)
    requires Groups(ps)
    ensures var t := Terminated(ps, ':');
      GroupChars(t) && (forall i: nat :: !Double(t, i)) && (ps != [] ==> t != "" && t[0] != ':' && t[|t| - 1] == ':')
  {
    hide H16;
    if ps != [] {
      var front, last := ps[..|ps| - 1], ps[|ps| - 1];
      assert last in ps && forall p | p in front :: p in ps;
      TerminatedShape(front);
      GroupShape(last);
      NoDoubleAcross(Terminated(front, ':'), last);
      NoDoubleAcross(Terminated(front, ':') + last, ":");
    }
  }

  /** Appending at a place where not both neighbours are colons makes no "::". */
  lemma {:induction false} NoDoubleAcross(a: string, b: string)
    requires (forall i: nat :: !Double(a, i)) && (forall i: nat :: !Double(b, i))
    requires a != "" && b != "" ==> a[|a| - 1] != ':' || b[0] != ':'
    ensures forall i: nat :: !Double(a + b, i)
  {
    forall i: nat ensures !Double(a + b, i) {
      if i + 1 < |a| {
        assert !Double(a, i);
      } else if |a| <= i {
        assert !Double(b, i - |a|);
      }
    }
  }

  lemma {:induction false} JoinedShape(ps: seq<string>)
    requires Groups(ps)
    ensures var j := Joined(ps, ':');
      GroupChars(j) && (forall i: nat :: !Double(j, i)) && (ps == [] <==> j == "") &&
        (ps != [] ==> j[0] != ':' && j[|j| - 1] != ':')
  {
    hide H16, Terminated;
    if ps != [] {
      var front, last := ps[..|ps| - 1], ps[|ps| - 1];
      assert last in ps && forall p | p in front :: p in ps;
      TerminatedShape(front);
      if front == [] {
        NothingTerminated();
      }
      GroupShape(last);
      NoDoubleAcross(Terminated(front, ':'), last);
    }
  }

  lemma {:induction false} NothingTerminated()
    ensures Terminated([], ':') == ""
  {
  }

  /** In an elided address the only "::" is the elision. */
  lemma {:induction false} OnlyElision(left: string, right: string)
    requires (forall i: nat :: !Double(left, i)) && (left != "" ==> left[|left| - 1] != ':')
    requires (forall i: nat :: !Double(right, i)) && (right != "" ==> right[0] != ':')
    ensures forall i: nat :: Double(left + "::" + right, i) <==> i == |left|
  {
    var s := left + "::" + right;
    forall i: nat ensures Double(s, i) <==> i == |left| {
      if i + 1 < |left| {
        assert !Double(left, i);
      } else if i > |left| + 1 {
        assert !Double(right, i - |left| - 2);
      }
    }
  }

  ghost function PartsOf(s: string): seq<string> {
    if s == "" then [] else Split(s, ':')
  }

  lemma {:induction false} PartsOfJoined(ps: seq<string>)
    requires Groups(ps)
    ensures PartsOf(Joined(ps, ':')) == ps
  {
    JoinedShape(ps);
    if ps != [] {
      forall p | p in ps ensures ':' !in p {
        GroupShape(p);
      }
      SplitOfJoined(ps, ':');
    }
  }

  lemma {:induction false} JoinedOfParts(s: string)
    ensures Joined(PartsOf(s), ':') == s
  {
    SplitJoins(s, ':');
  }

  lemma {:induction false} PlainShape(s: string)
    requires Plain(s)
    ensures GroupChars(s) && AtMostOneDouble(s) && s != ""
  {
    hide H16, Groups;
    if ps :| Full(s, ps) {
      JoinedShape(ps);
    } else {
      var left, right :| Short(s, left, right);
      JoinedShape(left);
      JoinedShape(right);
      OnlyElision(Joined(left, ':'), Joined(right, ':'));
    }
  }

  lemma {:induction false} ElisionIsDouble(s: string, left: seq<string>, right: seq<string>)
    requires Short(s, left, right)
    ensures Double(s, |Joined(left, ':')|)
  {
  }

  /** Without "::" a plain address is eight groups. */
  lemma {:induction false} PlainUncompressed(s: string)
    requires forall i: nat :: !Double(s, i)
    ensures Plain(s) <==> |Split(s, ':')| == 8 && Groups(Split(s, ':'))
  {
    hide H16, Groups;
    if Plain(s) {
      if left, right :| Short(s, left, right) {
        ElisionIsDouble(s, left, right);
      } else {
        var ps :| Full(s, ps);
        PartsOfJoined(ps);
        JoinedShape(ps);
      }
    }
    if |Split(s, ':')| == 8 && Groups(Split(s, ':')) {
      SplitJoins(s, ':');
      assert Full(s, Split(s, ':'));
    }
  }

  /** With its first "::" at `at`, a plain address has no other one, and at most seven groups. */
  lemma {:induction false} PlainCompressed(s: string, at: nat)
    requires Double(s, at) && forall i: nat | i < at :: !Double(s, i)
    ensures Plain(s) <==>
      && (forall i: nat | i > at :: !Double(s, i))
      && Groups(PartsOf(s[..at])) && Groups(PartsOf(s[at + 2..]))
      && |PartsOf(s[..at])| + |PartsOf(s[at + 2..])| < 8
  {
    hide H16, Groups, PartsOf;
    var l, r := s[..at], s[at + 2..];
    assert s == l + "::" + r;
    if Plain(s) {
      PlainShape(s);
      if ps :| Full(s, ps) {
        JoinedShape(ps);
        assert false;
      } else {
        var left, right :| Short(s, left, right);
        assert Double(s, |Joined(left, ':')|);
        assert l == Joined(left, ':') && r == Joined(right, ':');
        PartsOfJoined(left);
        PartsOfJoined(right);
      }
    }
    if Groups(PartsOf(l)) && Groups(PartsOf(r)) && |PartsOf(l)| + |PartsOf(r)| < 8 {
      JoinedOfParts(l);
      JoinedOfParts(r);
      assert Short(s, PartsOf(l), PartsOf(r));
    }
  }

  // ----- IPv6: the dotted tail

  lemma {:induction false} QuadShape(v: string)
    requires IPv4Address(v)
    ensures v != "" && '.' in v && forall i | 0 <= i < |v| :: IsDigit(v[i]) || v[i] == '.'
  {
    hide DecOctet;
    var a, b, c, d :| DecOctet(a) && DecOctet(b) && DecOctet(c) && DecOctet(d) && v == a + "." + b + "." + c + "." + d;
    OctetsAreClean(a);
    OctetsAreClean(b);
    OctetsAreClean(c);
    OctetsAreClean(d);
    assert v[|a|] == '.';
    assert (forall i | 0 <= i < |a| :: a[i] in a) && (forall i | 0 <= i < |b| :: b[i] in b);
    assert (forall i | 0 <= i < |c| :: c[i] in c) && (forall i | 0 <= i < |d| :: d[i] in d);
  }

  lemma {:induction false} HeadShape(q: string)
    requires Head(q)
    ensures q != "" && q[|q| - 1] == ':' && Plain(q + "0:0")
  {
    hide H16, Groups;
    assert H16("0") by { ZeroIsAGroup(); }
    HeadAndGroups(q, "0", "0");
    assert q + "0" + ":" + "0" == q + "0:0";
    if ps :| FullHead(q, ps) {
      TerminatedShape(ps);
    } else {
      var left, right :| ShortHead(q, left, right);
      TerminatedShape(right);
    }
  }

  lemma {:induction false} ZeroIsAGroup()
    ensures H16("0")
  {
  }

  /** Replacing the last two groups "0:0" of a plain address by nothing leaves a head. */
  lemma {:induction false} HeadFromPlain(p: string)
    requires p != "" && p[|p| - 1] == ':' && Plain(p + "0:0")
    ensures Head(p)
  {
    hide H16, Terminated, Joined;
    var s := p + "0:0";
    assert s == (p + "0") + ":" + "0";
    if ps :| Full(s, ps) {
      CutGroups("", ps, p);
      assert FullHead(p, ps[..6]);
    } else {
      var left, right :| Short(s, left, right);
      ElisionBeforeGroups(Joined(left, ':'), right, p);
      CutGroups(Joined(left, ':') + "::", right, p);
      assert ShortHead(p, left, right[..|right| - 2]);
    }
  }

  lemma {:induction false} CutGroups(prefix: string, ps: seq<string>, p: string)
    requires |ps| >= 2 && Groups(ps) && p != "" && p[|p| - 1] == ':'
    requires prefix + Joined(ps, ':') == p + "0:0"
    requires |ps| > 2 || (prefix != "" && prefix[|prefix| - 1] == ':')
    ensures p == prefix + Terminated(ps[..|ps| - 2], ':') && Groups(ps[..|ps| - 2])
  {
    hide H16, Joined;
    var n := |ps|;
    var front, a, b := ps[..n - 2], ps[n - 2], ps[n - 1];
    LastTwo(ps);
    TerminatedShape(front);
    assert a in ps && b in ps;
    GroupShape(a);
    GroupShape(b);
    var h := prefix + Terminated(front, ':');
    assert h != "" && h[|h| - 1] == ':' by {
      if front == [] {
        assert h == prefix;
      }
    }
    assert p + "0:0" == h + a + ":" + b by {
      assert prefix + (Terminated(front, ':') + (a + ":" + b)) == h + a + ":" + b;
    }
    CutPair(p, h, a, b);
  }

  lemma {:induction false} CutPair(p: string, h: string, a: string, b: string)
    requires p != "" && p[|p| - 1] == ':' && h != "" && h[|h| - 1] == ':'
    requires ':' !in a && ':' !in b && p + "0:0" == h + a + ":" + b
    ensures p == h
  {
    assert (p + "0") + [':'] + "0" == p + "0:0" && (h + a) + [':'] + b == h + a + ":" + b;
    CutLast(':', p + "0", "0", h + a, b);
    var p', h' := p[..|p| - 1], h[..|h| - 1];
    assert p == p' + [':'] && h == h' + [':'];
    CutLast(':', p', "0", h', a);
  }

  lemma {:induction false} ElisionBeforeGroups(left: string, right: seq<string>, p: string)
    requires Groups(right) && p != "" && p[|p| - 1] == ':'
    requires left + "::" + Joined(right, ':') == p + "0:0"
    ensures |right| >= 2
  {
    hide H16, Groups, Joined;
    NoJoin();
    assert (left + "::" + "")[|left| + 1] == ':' && |left + "::" + ""| == |left| + 2;
    assert (p + "0:0")[|p| + 2] == '0' && |p + "0:0"| == |p| + 3;
    if |right| == 1 {
      OneGroup(right);
      OneGroupTail(left, right[0], p);
    }
  }

  lemma {:induction false} NoJoin()
    ensures Joined([], ':') == ""
  {
  }

  lemma {:induction false} OneGroup(right: seq<string>)
    requires Groups(right) && |right| == 1
    ensures H16(right[0]) && Joined(right, ':') == right[0]
  {
    hide H16;
    var x := right[0];
    assert x in right && right[..0] == [];
    assert Terminated([], ':') == "";
  }

  /** One group behind an elision is not the two groups of the rewritten tail. */
  lemma {:induction false} OneGroupTail(left: string, x: string, p: string)
    requires H16(x)
    ensures left + "::" + x != p + "0:0"
  {
    GroupShape(x);
    hide H16;
    assert (left + ":")[|left|] == ':' && (p + "0")[|p|] == '0';
    if left + "::" + x == p + "0:0" {
      assert (left + ":") + [':'] + x == left + "::" + x;
      assert (p + "0") + [':'] + "0" == p + "0:0";
      CutLast(':', left + ":", x, p + "0", "0");
    }
  }

  lemma {:induction false} DottedShape(s: string, q: string, v: string)
    requires Head(q) && IPv4Address(v) && s == q + v
    ensures AtMostOneDouble(s) && s != "" && '.' in s
    ensures forall i | 0 <= i < |s| :: IsHexDigit(s[i]) || s[i] == ':' || s[i] == '.'
    ensures GroupChars(q) && q != "" && q[|q| - 1] == ':' && Plain(q + "0:0")
  {
    hide Head, IPv4Address, Plain;
    HeadShape(q);
    QuadShape(v);
    var w := q + "0:0";
    PlainShape(w);
    forall i | 0 <= i < |q| ensures IsHexDigit(q[i]) || q[i] == ':' {
      assert w[i] == q[i];
    }
    forall i: nat, j: nat | Double(s, i) && Double(s, j) ensures i == j {
      assert s[i + 1] == ':' && s[j + 1] == ':';
      assert Double(w, i) && Double(w, j);
    }
    assert s[|q|..] == v;
    assert forall c | c in v :: c in s;
  }

  /** What every address satisfies, and what the first checks of `isValidIpv6` ask for. */
  lemma {:induction false} AddressShape(s: string)
    requires IPv6Address(s)
    ensures AtMostOneDouble(s) && s != "" && forall i | 0 <= i < |s| :: IsHexDigit(s[i]) || s[i] == ':' || s[i] == '.'
  {
    hide IPv6Address, Head, IPv4Address, Plain;
    GrammarByGroups(s);
    if Plain(s) {
      PlainShape(s);
    } else {
      var q, v :| Head(q) && IPv4Address(v) && s == q + v;
      DottedShape(s, q, v);
    }
  }

  lemma {:induction false} UndottedAddress(s: string)
    requires '.' !in s
    ensures IPv6Address(s) <==> Plain(s)
  {
    hide IPv6Address, Head, IPv4Address, Plain;
    GrammarByGroups(s);
    if Dotted(s) {
      var q, v :| Head(q) && IPv4Address(v) && s == q + v;
      DottedShape(s, q, v);
    }
  }

  /** A dotted tail stands for two groups: rewriting it to "0:0" decides the address. */
  lemma {:induction false} DottedAddress(s: string, dot: nat)
    requires dot < |s| && s[dot] == '.' && '.' !in s[..dot]
    ensures IPv6Address(s) <==>
      match FindLast(s, ':') {
        case None => false
        case Some(colon) => colon < dot && IPv4Address(s[colon + 1..]) && Plain(s[..colon + 1] + "0:0")
      }
  {
    hide IPv6Address, Head, IPv4Address, Plain, FindLast, Dotted;
    GrammarByGroups(s);
    NotPlain(s, dot);
    if Dotted(s) {
      DottedCut(s, dot);
    }
    if FindLast(s, ':').Some? {
      var colon := FindLast(s, ':').value;
      var p, v := s[..colon + 1], s[colon + 1..];
      if IPv4Address(v) && Plain(p + "0:0") {
        HeadFromPlain(p);
        assert s == p + v;
        AssembleDotted(p, v);
      }
    }
  }

  lemma {:induction false} NotPlain(s: string, dot: nat)
    requires dot < |s| && s[dot] == '.'
    ensures !Plain(s)
  {
    hide Plain;
    if Plain(s) {
      PlainShape(s);
    }
  }

  lemma {:induction false} AssembleDotted(p: string, v: string)
    requires Head(p) && IPv4Address(v)
    ensures Dotted(p + v)
  {
    hide Head, IPv4Address;
  }

  /** The last colon of a dotted address is where its tail begins. */
  lemma {:induction false} DottedCut(s: string, dot: nat)
    requires Dotted(s) && dot < |s| && s[dot] == '.' && '.' !in s[..dot]
    ensures FindLast(s, ':').Some?
    ensures var colon := FindLast(s, ':').value;
      colon < dot && IPv4Address(s[colon + 1..]) && Plain(s[..colon + 1] + "0:0")
  {
    hide Head, IPv4Address, Plain, FindLast;
    var q, v :| Head(q) && IPv4Address(v) && s == q + v;
    DottedShape(s, q, v);
    QuadShape(v);
    LastColon(s, q, v);
    assert s[..|q|] == q && s[|q|..] == v;
    assert forall i | 0 <= i < |q| :: s[i] == q[i] && s[i] != '.';
  }

  lemma {:induction false} ColonAfter(s: string, at: nat, i: nat)
    ensures i < at < |s| && s[at] == ':' ==> ':' in s[i + 1..]
  {
    if i < at < |s| {
      assert s[i + 1..][at - i - 1] == s[at];
    }
  }

  lemma {:induction false} LastColon(s: string, q: string, v: string)
    requires s == q + v && q != "" && q[|q| - 1] == ':' && forall i | 0 <= i < |v| :: v[i] != ':'
    ensures FindLast(s, ':') == Some(|q| - 1)
  {
    hide FindLast;
    var at := |q| - 1;
    assert s[at] == ':' && s[at] in s;
    ColonAfter(s, at, FindLast(s, ':').value);
    assert forall i | at < i < |s| :: s[i] == v[i - |q|];
  }

  // ----- IPv6: the validator

  lemma {:induction false} OccursIsDouble(s: string, i: nat)
    ensures OccursAt(s, "::", i) <==> Double(s, i)
    ensures OccursAt(s, ":::", i) <==> Double(s, i) && Double(s, i + 1)
  {
    if i + 2 <= |s| {
      assert s[i..i + 2] == [s[i], s[i + 1]];
      if i + 3 <= |s| {
        assert s[i..i + 3] == [s[i], s[i + 1], s[i + 2]];
      }
    }
  }

  method ValidateParts(parts: seq<string>) returns (valid: bool)
    ensures valid <==> Groups(parts)
  {
    hide H16;
    for i := 0 to |parts|
      invariant forall j | 0 <= j < i :: H16(parts[j])
    {
      var ok := ParseHextet(parts[i]);
      if !ok {
        assert parts[i] in parts;
        return false;
      }
    }
    return true;
  }

  /** The second half of `isValidIpv6`: split at the "::", if any, and count the groups. */
  method IsPlainIpv6(working: string) returns (valid: bool)
    ensures valid <==> Plain(working)
  {
    hide Plain, Groups, Split, Find, FindFrom;
    forall i: nat ensures OccursAt(working, "::", i) <==> Double(working, i) {
      OccursIsDouble(working, i);
    }
    hide OccursAt, Double;
    var compression := FindFrom(working, "::", 0);
    if compression.Some? && FindFrom(working, "::", compression.value + 1).Some? {
      PlainCompressed(working, compression.value);
      return false;
    }
    var left, right: seq<string> := [], [];
    NoGroups();
    if compression.Some? {
      PlainCompressed(working, compression.value);
      InRange(working, compression.value);
      var leftPart := working[..compression.value];
      var rightPart := working[compression.value + 2..];
      if leftPart != "" {
        left := SplitLoop(leftPart, ':');
      }
      if rightPart != "" {
        right := SplitLoop(rightPart, ':');
      }
    } else {
      PlainUncompressed(working);
      left := SplitLoop(working, ':');
    }
    var leftOk := ValidateParts(left);
    var rightOk := ValidateParts(right);
    if !leftOk || !rightOk {
      return false;
    }
    var hextetCount := |left| + |right|;
    if compression.Some? {
      return hextetCount < 8;
    }
    return hextetCount == 8;
  }

  lemma {:induction false} InRange(s: string, i: nat)
    requires Double(s, i)
    ensures i + 2 <= |s|
  {
  }

  lemma {:induction false} TripleColon(s: string, i: nat)
    requires OccursAt(s, ":::", i)
    ensures !IPv6Address(s)
  {
    hide IPv6Address;
    OccursIsDouble(s, i);
    assert Double(s, i) && Double(s, i + 1);
    assert !AtMostOneDouble(s);
    if IPv6Address(s) {
      AddressShape(s);
    }
  }

  /** `isValidIpv6` accepts exactly IPv6address. */
  method IsValidIpv6(address: string) returns (valid: bool)
    ensures valid <==> IPv6Address(address)
  {
    hide IPv6Address, Plain, IPv4Address, FindFrom, FindLast, FindChar;
    if IPv6Address(address) {
      AddressShape(address);
    }
    hide OccursAt, Double;
    var triple := FindFrom(address, ":::", 0);
    if triple.Some? {
      TripleColon(address, triple.value);
    }
    if address == "" || triple.Some? {
      return false;
    }
    for i := 0 to |address| {
      if !(IsHexDigit(address[i]) || address[i] == ':' || address[i] == '.') {
        return false;
      }
    }
    var working := address;
    var lastColon := FindLast(working, ':');
    var firstDot := FindChar(working, '.');
    if firstDot.Some? {
      DottedAddress(address, firstDot.value);
      if lastColon.None? || lastColon.value > firstDot.value {
        return false;
      }
      var tailOk := IsValidIpv4(working[lastColon.value + 1..]);
      if !tailOk {
        return false;
      }
      working := working[..lastColon.value + 1] + "0:0";
    } else {
      UndottedAddress(address);
    }
    valid := IsPlainIpv6(working);
  }

  /** No string is both kinds of address, so the order of the tests does not matter. */
  lemma {:induction false} FamiliesAreDisjoint(s: string)
    ensures !(IPv4Address(s) && IPv6Address(s))
  {
    hide IPv6Address, IPv4Address, Plain, Dotted;
    if IPv4Address(s) && IPv6Address(s) {
      QuadShape(s);
      var dot := FindChar(s, '.');
      assert forall c | c in s :: c != ':';
      DottedAddress(s, dot.value);
    }
  }

  datatype AddressFamily = IPv4 | IPv6 | UNKNOWN_FAMILY

  method DetectAddressFamily(address: string) returns (family: AddressFamily)
    ensures family == IPv4 <==> IPv4Address(address)
    ensures family == IPv6 <==> IPv6Address(address)
  {
    hide IPv6Address, IPv4Address;
    FamiliesAreDisjoint(address);
    var v4 := IsValidIpv4(address);
    if v4 {
      return IPv4;
    }
    var v6 := IsValidIpv6(address);
    if v6 {
      return IPv6;
    }
    return UNKNOWN_FAMILY;
  }

  ghost predicate IpAddress(s: string) {
    IPv4Address(s) || IPv6Address(s)
  }

  method IsValidIpAddress(address: string) returns (valid: bool)
    ensures valid <==> IpAddress(address)
  {
    hide IPv6Address, IPv4Address;
    valid := IsValidIpv4(address);
    if !valid {
      valid := IsValidIpv6(address);
    }
  }

  predicate IsUnspecified(address: string) {
    address in {"", "0.0.0.0", "::", "0:0:0:0:0:0:0:0"}
  }

  /** An address counts as a remote endpoint when it is valid and not one of the unspecified spellings. */
  method HasRemoteEndpoint(address: string) returns (has: bool)
    ensures has <==> IpAddress(address) && address !in {"0.0.0.0", "::", "0:0:0:0:0:0:0:0"}
  {
    hide IPv6Address, IPv4Address, Plain, Dotted;
    if IsUnspecified(address) {
      NoEmptyAddress();
      return false;
    }
    has := IsValidIpAddress(address);
  }

  lemma {:induction false} NoEmptyAddress()
    ensures !IpAddress("")
  {
    hide IPv6Address, IPv4Address;
    if IPv4Address("") {
      QuadShape("");
    }
    if IPv6Address("") {
      AddressShape("");
    }
  }
}
