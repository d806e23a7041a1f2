/** The connection identity key shared by ConnectionTracker, UploadTracker, DownloadTracker,
TransferRateTracker and ConnectionAttributor. */
module IdentityKey {
  import opened Model
  import opened Decimal
  import opened Text

  function Key(c: Connection): string {
    Digits(c.protocol.Code()) + "|" + (
      Digits(c.processId) + "|" + (
        c.localAddress + "|" + (
          Digits(c.localPort) + "|" + (
            c.remoteAddress + "|" + Digits(c.remotePort)))))
  }

  /** Protocol, PID and 4-tuple agree. */
  predicate SameIdentity(a: Connection, b: Connection) {
    && a.protocol == b.protocol
    && a.processId == b.processId
    && a.localAddress == b.localAddress
    && a.localPort == b.localPort
    && a.remoteAddress == b.remoteAddress
    && a.remotePort == b.remotePort
  }

  /** The addresses under the key. */
  function Tail(c: Connection): string {
    c.localAddress + "|" + (Digits(c.localPort) + "|" + (c.remoteAddress + "|" + Digits(c.remotePort)))
  }

  /** Whatever the addresses contain, a key determines the protocol and the owning PID. */
  lemma {:induction false} KeyDeterminesOwner(a: Connection, b: Connection)
    requires Key(a) == Key(b)
    ensures a.protocol == b.protocol && a.processId == b.processId && Tail(a) == Tail(b)
  {
    CutFirst('|', Digits(a.protocol.Code()), Digits(a.processId) + "|" + Tail(a),
      Digits(b.protocol.Code()), Digits(b.processId) + "|" + Tail(b));
    DigitsInjective(a.protocol.Code(), b.protocol.Code());
    CutFirst('|', Digits(a.processId), Tail(a), Digits(b.processId), Tail(b));
    DigitsInjective(a.processId, b.processId);
  }

  /** Identity keys are injective as soon as the local addresses, or the remote addresses, are
  free of the separator. */
  lemma {:induction false} KeyInjective(a: Connection, b: Connection)
    requires ('|' !in a.localAddress && '|' !in b.localAddress) || ('|' !in a.remoteAddress && '|' !in b.remoteAddress)
    ensures Key(a) == Key(b) <==> SameIdentity(a, b)
  {
    if Key(a) == Key(b) {
      KeyDeterminesOwner(a, b);
      var (la, pa, ra, qa) := (a.localAddress, Digits(a.localPort), a.remoteAddress, Digits(a.remotePort));
      var (lb, pb, rb, qb) := (b.localAddress, Digits(b.localPort), b.remoteAddress, Digits(b.remotePort));
      assert Tail(a) == la + "|" + pa + "|" + ra + "|" + qa;
      assert Tail(b) == lb + "|" + pb + "|" + rb + "|" + qb;
      CutLast('|', la + "|" + pa + "|" + ra, qa, lb + "|" + pb + "|" + rb, qb);
      if '|' !in la && '|' !in lb {
        assert la + "|" + pa + "|" + ra == la + "|" + (pa + "|" + ra);
        assert lb + "|" + pb + "|" + rb == lb + "|" + (pb + "|" + rb);
        CutFirst('|', la, pa + "|" + ra, lb, pb + "|" + rb);
        CutFirst('|', pa, ra, pb, rb);
      } else {
        CutLast('|', la + "|" + pa, ra, lb + "|" + pb, rb);
        CutLast('|', la, pa, lb, pb);
      }
      DigitsInjective(a.localPort, b.localPort);
      DigitsInjective(a.remotePort, b.remotePort);
    }
  }

  /** With the separator in both kinds of address, two different connections can share a key. */
  lemma {:induction false} KeyCollision(a: Connection, b: Connection)
    requires a == Connection(1, "x", 2, "y|3|z", 4, TCP, ESTABLISHED, EPOCH)
    requires b == Connection(1, "x|2|y", 3, "z", 4, TCP, ESTABLISHED, EPOCH)
    ensures Key(a) == Key(b) && !SameIdentity(a, b)
  {
    assert Digits(2) == "2" && Digits(3) == "3";
    assert Tail(a) == "x|2|y|3|z|" + Digits(4) == Tail(b);
  }

  // ----- Which connections share their key

  predicate IsPort(s: string) {
    exists n | 0 <= n < 0x1_0000 :: s == Digits(n)
  }

  /** What the separators cut the addresses of a key into. */
  function Pieces(c: Connection): seq<string> {
    Split(Tail(c), '|')
  }

  /** The place of the local port among the pieces. */
  function PortPlace(c: Connection): nat {
    |Split(c.localAddress, '|')|
  }

  /** A piece that could be a local port between two addresses. */
  predicate PortLike(c: Connection, i: nat) {
    1 <= i && i + 2 < |Pieces(c)| && IsPort(Pieces(c)[i])
  }

  lemma {:induction false} JoinedConcat(a: seq<string>, b: seq<string>)
    requires a != [] && b != []
    ensures Joined(a + b, '|') == Joined(a, '|') + "|" + Joined(b, '|')
    ensures Terminated(a + b, '|') == Joined(a, '|') + "|" + Terminated(b, '|')
    decreases |b|
  {
    hide Joined;
    var front, last := b[..|b| - 1], b[|b| - 1];
    assert b == front + [last] && a + b == a + front + [last];
    JoinedLast(a + front, last);
    JoinedLast(front, last);
    if front == [] {
      assert a + front == a;
      TerminatedJoined(a, '|');
    } else {
      JoinedConcat(a, front);
    }
  }

  lemma {:induction false} JoinedLast(front: seq<string>, last: string)
    ensures Joined(front + [last], '|') == Terminated(front, '|') + last
    ensures Terminated(front + [last], '|') == Terminated(front, '|') + last + "|"
  {
    assert (front + [last])[..|front|] == front;
  }

  lemma {:induction false} JoinedOne(s: string)
    ensures Joined([s], '|') == s
  {
    assert Terminated([], '|') == "" && [s][..0] == [];
  }

  function Layout(left: seq<string>, port: string, right: seq<string>, remotePort: string): seq<string> {
    left + ([port] + (right + [remotePort]))
  }

  /** A tail is its pieces: those of the local address, the port, those of the remote address, the port. */
  lemma {:induction false} TailIsLayout(c: Connection, left: seq<string>, right: seq<string>)
    requires left != [] && right != []
    requires c.localAddress == Joined(left, '|') && c.remoteAddress == Joined(right, '|')
    ensures Tail(c) == Joined(Layout(left, Digits(c.localPort), right, Digits(c.remotePort)), '|')
  {
    hide Joined, Terminated;
    var port, remotePort := Digits(c.localPort), Digits(c.remotePort);
    JoinedConcat(left, [port] + (right + [remotePort]));
    JoinedConcat([port], right + [remotePort]);
    JoinedConcat(right, [remotePort]);
    JoinedOne(port);
    JoinedOne(remotePort);
  }

  lemma {:induction false} PiecesAreLayout(c: Connection)
    ensures Pieces(c) == Layout(Split(c.localAddress, '|'), Digits(c.localPort), Split(c.remoteAddress, '|'),
      Digits(c.remotePort))
    ensures 1 <= PortPlace(c) && PortPlace(c) + 2 < |Pieces(c)| && Pieces(c)[PortPlace(c)] == Digits(c.localPort)
  {
    hide Joined, Split, Tail;
    var left, right := Split(c.localAddress, '|'), Split(c.remoteAddress, '|');
    SplitJoins(c.localAddress, '|');
    SplitJoins(c.remoteAddress, '|');
    TailIsLayout(c, left, right);
    var parts := Layout(left, Digits(c.localPort), right, Digits(c.remotePort));
    assert '|' !in Digits(c.localPort) && '|' !in Digits(c.remotePort);
    assert Text.Clean(parts, '|');
    SplitOfJoined(parts, '|');
  }

  /** The connection that reads the piece at `i` as its local port. */
  lemma {:induction false} ReadPortAt(a: Connection, i: nat) returns (b: Connection)
    requires PortLike(a, i)
    ensures Key(b) == Key(a) && PortPlace(b) == i
  {
    hide Joined, Split, Tail, Terminated;
    var parts := Pieces(a);
    var n: nat :| n < 0x1_0000 && parts[i] == Digits(n);
    var left, right, last := parts[..i], parts[i + 1..|parts| - 1], parts[|parts| - 1];
    b := a.(localAddress := Joined(left, '|'), localPort := n, remoteAddress := Joined(right, '|'));
    PiecesAreLayout(a);
    SplitJoins(Tail(a), '|');
    assert last == Digits(a.remotePort);
    assert parts == Layout(left, Digits(n), right, last);
    TailIsLayout(b, left, right);
    assert Text.Clean(left, '|') by {
      forall p | p in left ensures p in parts && '|' !in p {
      }
    }
    SplitOfJoined(left, '|');
    KeyOfTail(a);
    KeyOfTail(b);
  }

  lemma {:induction false} KeyOfTail(c: Connection)
    ensures Key(c) == Digits(c.protocol.Code()) + "|" + (Digits(c.processId) + "|" + Tail(c))
  {
  }

  /** A connection shares its key with a different one exactly when some piece of its addresses, other
  than its local port, reads as a port and leaves pieces for two addresses around it. */
  lemma {:induction false} SharesItsKey(a: Connection)
    ensures (exists b :: Key(b) == Key(a) && !SameIdentity(a, b)) <==> exists i :: PortLike(a, i) && i != PortPlace(a)
  {
    hide Key, Tail, Split, Joined, IsPort;
    if b :| Key(b) == Key(a) && !SameIdentity(a, b) {
      KeyDeterminesOwner(a, b);
      PiecesAreLayout(a);
      PiecesAreLayout(b);
      PortsAreLike(b);
      if PortPlace(b) == PortPlace(a) {
        SamePlace(a, b);
      }
      assert PortLike(a, PortPlace(b));
    }
    if i :| PortLike(a, i) && i != PortPlace(a) {
      var b := ReadPortAt(a, i);
      assert !SameIdentity(a, b);
    }
  }

  lemma {:induction false} PortsAreLike(c: Connection)
    ensures IsPort(Digits(c.localPort))
  {
  }

  lemma {:induction false} SamePlace(a: Connection, b: Connection)
    requires Tail(a) == Tail(b) && a.protocol == b.protocol && a.processId == b.processId &&
      PortPlace(a) == PortPlace(b)
    ensures SameIdentity(a, b)
  {
    hide Tail, Split, Joined;
    var k, parts := PortPlace(a), Pieces(a);
    PiecesAreLayout(a);
    PiecesAreLayout(b);
    var n := |parts| - 1;
    assert Split(a.localAddress, '|') == parts[..k] == Split(b.localAddress, '|');
    assert Split(a.remoteAddress, '|') == parts[k + 1..n] == Split(b.remoteAddress, '|');
    assert Digits(a.remotePort) == parts[n] == Digits(b.remotePort);
    SplitJoins(a.localAddress, '|');
    SplitJoins(b.localAddress, '|');
    SplitJoins(a.remoteAddress, '|');
    SplitJoins(b.remoteAddress, '|');
    DigitsInjective(a.localPort, b.localPort);
    DigitsInjective(a.remotePort, b.remotePort);
  }
}
