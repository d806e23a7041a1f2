/** IPv4address and IPv6address of section 3.2.2 of RFC 3986, written as its ABNF, and their
description by separated lists. */
module IpGrammar {
  import Decimal
  import opened Text

  predicate IsHexDigit(c: char) {
    Decimal.IsDigit(c) || 'a' <= c <= 'f' || 'A' <= c <= 'F'
  }

  /** dec-octet = DIGIT / %x31-39 DIGIT / "1" 2DIGIT / "2" %x30-34 DIGIT / "25" %x30-35 */
  predicate DecOctet(s: string) {
    || (|s| == 1 && Decimal.IsDigit(s[0]))
    || (|s| == 2 && '1' <= s[0] <= '9' && Decimal.IsDigit(s[1]))
    || (|s| == 3 && s[0] == '1' && Decimal.IsDigit(s[1]) && Decimal.IsDigit(s[2]))
    || (|s| == 3 && s[0] == '2' && '0' <= s[1] <= '4' && Decimal.IsDigit(s[2]))
    || (|s| == 3 && s[0] == '2' && s[1] == '5' && '0' <= s[2] <= '5')
  }

  /** IPv4address = dec-octet "." dec-octet "." dec-octet "." dec-octet */
  ghost predicate IPv4Address(s: string) {
    exists a, b, c, d :: DecOctet(a) && DecOctet(b) && DecOctet(c) && DecOctet(d) &&
      s == a + "." + b + "." + c + "." + d
  }

  /** h16 = 1*4HEXDIG */
  predicate H16(s: string) {
    1 <= |s| <= 4 && forall c | c in s :: IsHexDigit(c)
  }

  /** ls32 = ( h16 ":" h16 ) / IPv4address */
  ghost predicate Ls32(s: string) {
    || (exists a, b :: H16(a) && H16(b) && s == a + ":" + b)
    || IPv4Address(s)
  }

  /** n( h16 ":" ) */
  ghost predicate Units(n: nat, s: string) {
    if n == 0 then s == ""
    else exists r, a :: Units(n - 1, r) && H16(a) && s == r + a + ":"
  }

  /** [ *n( h16 ":" ) h16 ] */
  ghost predicate UpTo(n: nat, s: string) {
    || s == ""
    || exists m: nat, r, a :: m <= n && Units(m, r) && H16(a) && s == r + a
  }

  /** [ *n( h16 ":" ) h16 ] "::" m( h16 ":" ) rest, with at most n + 1 groups before the "::". */
  ghost predicate Elided(s: string, n: int, m: nat, rest: string -> bool) {
    exists l, u, t :: (if n < 0 then l == "" else UpTo(n, l)) && Units(m, u) && rest(t) && s == l + "::" + u + t
  }

  ghost predicate IPv6Address(s: string) {
    || (exists u, t :: Units(6, u) && Ls32(t) && s == u + t)  //                            6( h16 ":" ) ls32
    || Elided(s, -1, 5, Ls32)                                 //                       "::" 5( h16 ":" ) ls32
    || Elided(s, 0, 4, Ls32)                                  // [               h16 ] "::" 4( h16 ":" ) ls32
    || Elided(s, 1, 3, Ls32)                                  // [ *1( h16 ":" ) h16 ] "::" 3( h16 ":" ) ls32
    || Elided(s, 2, 2, Ls32)                                  // [ *2( h16 ":" ) h16 ] "::" 2( h16 ":" ) ls32
    || Elided(s, 3, 1, Ls32)                                  // [ *3( h16 ":" ) h16 ] "::"    h16 ":"   ls32
    || Elided(s, 4, 0, Ls32)                                  // [ *4( h16 ":" ) h16 ] "::"              ls32
    || Elided(s, 5, 0, H16)                                   // [ *5( h16 ":" ) h16 ] "::"              h16
    || Elided(s, 6, 0, (t: string) => t == "")                // [ *6( h16 ":" ) h16 ] "::"
  }

  // ----- Lists of groups

  ghost predicate Groups(ps: seq<string>) {
    forall p | p in ps :: H16(p)
  }

  lemma {:induction false} UnitsToGroups(n: nat, s: string) returns (ps: seq<string>)
    requires Units(n, s)
    ensures |ps| == n && Groups(ps) && s == Terminated(ps, ':')
  {
    hide H16;
    ps := [];
    if n > 0 {
      var r, a :| Units(n - 1, r) && H16(a) && s == r + a + ":";
      var qs := UnitsToGroups(n - 1, r);
      ps := qs + [a];
      assert ps[..n - 1] == qs;
    }
  }

  lemma {:induction false} GroupsToUnits(ps: seq<string>)
    requires Groups(ps)
    ensures Units(|ps|, Terminated(ps, ':'))
  {
    hide H16;
    if ps != [] {
      var front, last := ps[..|ps| - 1], ps[|ps| - 1];
      assert last in ps && forall p | p in front :: p in ps;
      GroupsToUnits(front);
      assert Terminated(ps, ':') == Terminated(front, ':') + last + ":";
    }
  }

  lemma {:induction false} UpToToGroups(n: nat, s: string) returns (ps: seq<string>)
    requires UpTo(n, s)
    ensures |ps| <= n + 1 && Groups(ps) && s == Joined(ps, ':')
  {
    hide H16, Units;
    ps := [];
    if s != "" {
      var m: nat, r, a :| m <= n && Units(m, r) && H16(a) && s == r + a;
      var qs := UnitsToGroups(m, r);
      ps := qs + [a];
      assert ps[..m] == qs;
    }
  }

  lemma {:induction false} GroupsToUpTo(ps: seq<string>, n: nat)
    requires Groups(ps) && |ps| <= n + 1
    ensures UpTo(n, Joined(ps, ':'))
  {
    hide H16, Units;
    if ps != [] {
      var front, last := ps[..|ps| - 1], ps[|ps| - 1];
      assert last in ps && forall p | p in front :: p in ps;
      GroupsToUnits(front);
      assert |front| <= n && Units(|front|, Terminated(front, ':')) && Joined(ps, ':') == Terminated(front, ':') + last;
    }
  }

  // ----- The grammar by lists of groups

  /** Eight groups. */
  ghost predicate Full(s: string, ps: seq<string>) {
    |ps| == 8 && Groups(ps) && s == Joined(ps, ':')
  }

  /** At most seven groups around one "::". */
  ghost predicate Short(s: string, left: seq<string>, right: seq<string>) {
    |left| + |right| <= 7 && Groups(left) && Groups(right) && s == Joined(left, ':') + "::" + Joined(right, ':')
  }

  /** The address has no dotted tail. */
  ghost predicate Plain(s: string) {
    || (exists ps :: Full(s, ps))
    || (exists left, right :: Short(s, left, right))
  }

  /** `q` ends in ":" and continues to an address by two more groups. */
  ghost predicate FullHead(q: string, ps: seq<string>) {
    |ps| == 6 && Groups(ps) && q == Terminated(ps, ':')
  }

  ghost predicate ShortHead(q: string, left: seq<string>, right: seq<string>) {
    |left| + |right| <= 5 && Groups(left) && Groups(right) && q == Joined(left, ':') + "::" + Terminated(right, ':')
  }

  ghost predicate Head(q: string) {
    || (exists ps :: FullHead(q, ps))
    || (exists left, right :: ShortHead(q, left, right))
  }

  /** A head followed by a dotted quad. */
  ghost predicate Dotted(s: string) {
    exists q, v :: Head(q) && IPv4Address(v) && s == q + v
  }

  lemma {:induction false} JoinedAppend(ps: seq<string>, p: string)
    ensures Joined(ps + [p], ':') == Terminated(ps, ':') + p
    ensures Terminated(ps + [p], ':') == Terminated(ps, ':') + p + ":"
  {
    var qs := ps + [p];
    assert qs[..|qs| - 1] == ps;
  }

  lemma {:induction false} GroupsAppend(ps: seq<string>, p: string)
    requires Groups(ps) && H16(p)
    ensures Groups(ps + [p])
  {
  }

  /** A head and two groups make a plain address. */
  lemma {:induction false} HeadAndGroups(q: string, a: string, b: string)
    requires Head(q) && H16(a) && H16(b)
    ensures Plain(q + a + ":" + b)
  {
    if ps :| FullHead(q, ps) {
      JoinedAppend(ps, a);
      JoinedAppend(ps + [a], b);
      GroupsAppend(ps, a);
      GroupsAppend(ps + [a], b);
      assert Full(q + a + ":" + b, ps + [a] + [b]);
    } else {
      var left, right :| ShortHead(q, left, right);
      JoinedAppend(right, a);
      JoinedAppend(right + [a], b);
      GroupsAppend(right, a);
      GroupsAppend(right + [a], b);
      assert q + a + ":" + b == Joined(left, ':') + "::" + (Terminated(right, ':') + a + ":" + b);
      assert Short(q + a + ":" + b, left, right + [a] + [b]);
    }
  }

  /** A head and an ls32 make an address. */
  lemma {:induction false} HeadAndTail(q: string, t: string)
    requires Head(q) && Ls32(t)
    ensures Plain(q + t) || Dotted(q + t)
  {
    hide Head, Plain, H16, IPv4Address;
    if !IPv4Address(t) {
      var a, b :| H16(a) && H16(b) && t == a + ":" + b;
      HeadAndGroups(q, a, b);
      assert q + (a + ":" + b) == q + a + ":" + b;
    }
  }

  /** An "::" alternative that ends in ls32. */
  lemma {:induction false} ElidedLs32(s: string, n: int, m: nat)
    requires -1 <= n && n + 1 + m <= 5
    requires Elided(s, n, m, Ls32)
    ensures Plain(s) || Dotted(s)
  {
    hide H16, Units, UpTo, Ls32, Plain, Dotted, IPv4Address, Groups;
    var l, u, t :| (if n < 0 then l == "" else UpTo(n, l)) && Units(m, u) && Ls32(t) && s == l + "::" + u + t;
    var left: seq<string> := [];
    NoGroups();
    if n >= 0 {
      left := UpToToGroups(n, l);
    }
    var right := UnitsToGroups(m, u);
    assert ShortHead(l + "::" + u, left, right);
    HeadAndTail(l + "::" + u, t);
  }

  lemma {:induction false} NoGroups()
    ensures Groups([])
  {
  }

  lemma {:induction false} FullAddress(u: string, t: string)
    requires Units(6, u) && Ls32(t)
    ensures Plain(u + t) || Dotted(u + t)
  {
    hide H16, Units, Ls32, Plain, Dotted, Groups;
    var ps := UnitsToGroups(6, u);
    assert FullHead(u, ps);
    HeadAndTail(u, t);
  }

  lemma {:induction false} ElidedLast(l: string, t: string)
    requires (UpTo(5, l) && H16(t)) || (UpTo(6, l) && t == "")
    ensures Plain(l + "::" + t)
  {
    hide UpTo, Groups;
    NoGroups();
    if t == "" {
      var left := UpToToGroups(6, l);
      assert Short(l + "::" + t, left, []);
    } else {
      var left := UpToToGroups(5, l);
      JoinedAppend([], t);
      GroupsAppend([], t);
      assert [] + [t] == [t];
      assert Short(l + "::" + t, left, [t]);
    }
  }

  lemma {:induction false} GrammarIsListed(s: string)
    requires IPv6Address(s)
    ensures Plain(s) || Dotted(s)
  {
    hide H16, UpTo, Ls32, Plain, Dotted;
    if u, t :| Units(6, u) && Ls32(t) && s == u + t {
      FullAddress(u, t);
    } else if Elided(s, 5, 0, H16) {
      var l, u, t :| UpTo(5, l) && Units(0, u) && H16(t) && s == l + "::" + u + t;
      assert s == l + "::" + t;
      ElidedLast(l, t);
    } else if Elided(s, 6, 0, (t: string) => t == "") {
      var l, u, t :| UpTo(6, l) && Units(0, u) && t == "" && s == l + "::" + u + t;
      assert s == l + "::" + "";
      ElidedLast(l, "");
    } else if Elided(s, -1, 5, Ls32) {
      ElidedLs32(s, -1, 5);
    } else if Elided(s, 0, 4, Ls32) {
      ElidedLs32(s, 0, 4);
    } else if Elided(s, 1, 3, Ls32) {
      ElidedLs32(s, 1, 3);
    } else if Elided(s, 2, 2, Ls32) {
      ElidedLs32(s, 2, 2);
    } else if Elided(s, 3, 1, Ls32) {
      ElidedLs32(s, 3, 1);
    } else {
      ElidedLs32(s, 4, 0);
    }
  }

  // ----- And back

  lemma {:induction false} LastTwo(ps: seq<string>)
    requires |ps| >= 2 && Groups(ps)
    ensures var n := |ps|;
      Groups(ps[..n - 2]) && Ls32(ps[n - 2] + ":" + ps[n - 1]) &&
        Joined(ps, ':') == Terminated(ps[..n - 2], ':') + (ps[n - 2] + ":" + ps[n - 1])
  {
    hide H16, Terminated, Joined;
    var n := |ps|;
    var front, a, b := ps[..n - 2], ps[n - 2], ps[n - 1];
    assert a in ps && b in ps && forall p | p in front :: p in ps;
    assert ps == front + [a] + [b];
    JoinedAppend(front, a);
    JoinedAppend(front + [a], b);
    assert Terminated(front, ':') + a + ":" + b == Terminated(front, ':') + (a + ":" + b);
  }

  lemma {:induction false} ElidedBack(left: seq<string>, right: seq<string>, t: string)
    requires |left| + |right| <= 5 && Groups(left) && Groups(right) && Ls32(t)
    ensures IPv6Address(Joined(left, ':') + "::" + Terminated(right, ':') + t)
  {
    hide H16, Ls32, Groups, UpTo, Units;
    var s := Joined(left, ':') + "::" + Terminated(right, ':') + t;
    var m := |right|;
    GroupsToUnits(right);
    if m < 5 {
      GroupsToUpTo(left, 4 - m);
    } else {
      assert Joined(left, ':') == "";
    }
    ElidedBy(s, Joined(left, ':'), Terminated(right, ':'), t, 4 - m, m);
    hide Elided;
    assert m == 5 || m == 4 || m == 3 || m == 2 || m == 1 || m == 0;
  }

  lemma {:induction false} ElidedBy(s: string, l: string, u: string, t: string, n: int, m: nat)
    requires (if n < 0 then l == "" else UpTo(n, l)) && Units(m, u) && Ls32(t) && s == l + "::" + u + t
    ensures Elided(s, n, m, Ls32)
  {
    hide H16, Ls32, UpTo, Units;
  }

  lemma {:induction false} FullBack(ps: seq<string>, t: string)
    requires |ps| == 6 && Groups(ps) && Ls32(t)
    ensures IPv6Address(Terminated(ps, ':') + t)
  {
    hide H16, Ls32, Groups, Units, Elided;
    GroupsToUnits(ps);
  }

  lemma {:induction false} ShortBack(left: seq<string>, right: seq<string>)
    requires |left| + |right| <= 7 && Groups(left) && Groups(right)
    ensures IPv6Address(Joined(left, ':') + "::" + Joined(right, ':'))
  {
    hide H16, Ls32, UpTo, IPv4Address;
    var l, n := Joined(left, ':'), |right|;
    var s := l + "::" + Joined(right, ':');
    if n == 0 {
      GroupsToUpTo(left, 6);
      var rest: string -> bool := (t: string) => t == "";
      assert UpTo(6, l) && Units(0, "") && rest("") && s == l + "::" + "" + "";
      assert Elided(s, 6, 0, (t: string) => t == "");
    } else if n == 1 {
      GroupsToUpTo(left, 5);
      assert right[0] in right && right == [right[0]];
      assert Joined(right, ':') == right[0];
      assert UpTo(5, l) && Units(0, "") && H16(right[0]) && s == l + "::" + "" + right[0];
      assert Elided(s, 5, 0, H16);
    } else {
      LastTwo(right);
      var t := right[n - 2] + ":" + right[n - 1];
      ElidedBack(left, right[..n - 2], t);
      assert s == l + "::" + Terminated(right[..n - 2], ':') + t;
    }
  }

  lemma {:induction false} ListedIsGrammar(s: string)
    requires Plain(s) || Dotted(s)
    ensures IPv6Address(s)
  {
    hide H16, Ls32, UpTo, Units, Elided, Groups, IPv6Address, IPv4Address;
    if ps :| Full(s, ps) {
      LastTwo(ps);
      FullBack(ps[..6], ps[6] + ":" + ps[7]);
    } else if left, right :| Short(s, left, right) {
      ShortBack(left, right);
    } else {
      var q, v :| Head(q) && IPv4Address(v) && s == q + v;
      DottedIsLs32(v);
      if ps :| FullHead(q, ps) {
        FullBack(ps, v);
      } else {
        var left, right :| ShortHead(q, left, right);
        ElidedBack(left, right, v);
      }
    }
  }

  lemma {:induction false} DottedIsLs32(v: string)
    requires IPv4Address(v)
    ensures Ls32(v)
  {
  }

  /** The grammar's nine alternatives say: eight groups, or at most seven around one "::", where the
  last two may be a dotted quad. */
  lemma {:induction false} GrammarByGroups(s: string)
    ensures IPv6Address(s) <==> Plain(s) || Dotted(s)
  {
    hide IPv6Address, Plain, Dotted;
    if IPv6Address(s) {
      GrammarIsListed(s);
    }
    if Plain(s) || Dotted(s) {
      ListedIsGrammar(s);
    }
  }
}
