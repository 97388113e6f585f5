/**
  The names that TcpClient::newConnection gives its connections (TcpClient.cc:139-143): the client's name
  and up to 31 characters of ":ip:port#id", all that its 32-byte buffer has room for.
 */
module ConnectionNames {
  import opened Connection

  const BUFFER_SIZE := 32

  function Digit(d: nat): char
    requires d < 10
  {
    "0123456789"[d]
  }

  /** `%d` and `%u` of a natural number. */
  function Decimal(n: nat): (s: string)
    ensures 1 <= |s| && '#' !in s && '.' !in s && ':' !in s
  {
    if n < 10 then [Digit(n)] else Decimal(n / 10) + [Digit(n % 10)]
  }

  type Byte = n: nat | n < 256
  type Port = n: nat | n < 65536

  datatype Peer = Peer(a: Byte, b: Byte, c: Byte, d: Byte, port: Port)

  const LONGEST_PEER := Peer(255, 255, 255, 255, 65535)

  /** `InetAddress::toIpPort` (InetAddress.cc:21-31). */
  function IpPort(p: Peer): string {
    Decimal(p.a) + "." + (Decimal(p.b) + "." + (Decimal(p.c) + "." + (Decimal(p.d) + ":" + Decimal(p.port))))
  }

  function Take(s: string, n: nat): string {
    if |s| <= n then s else s[..n]
  }

  /** What `snprintf(buf, sizeof buf, ":%s#%d", ...)` leaves in the buffer. */
  function Suffix(p: Peer, id: nat): string {
    Take(":" + IpPort(p) + "#" + Decimal(id), BUFFER_SIZE - 1)
  }

  function ConnName(name: string, p: Peer, id: nat): string {
    name + Suffix(p, id)
  }

  function Pow10(k: nat): nat { if k == 0 then 1 else 10 * Pow10(k - 1) }

  /** What a text of decimal digits stands for. */
  function Value(s: string): int {
    if s == "" then 0 else 10 * Value(s[..|s| - 1]) + (s[|s| - 1] as int - '0' as int)
  }

  /** Reading a printed number gives it back; it is printed in digits, without leading zeros. */
  lemma {:induction false} DecimalReads(n: nat)
    ensures Value(Decimal(n)) == n
    ensures forall i :: 0 <= i < |Decimal(n)| ==> '0' <= Decimal(n)[i] <= '9'
    ensures 0 < n ==> Decimal(n)[0] != '0'
  {
    var s := Decimal(n);
    if n >= 10 {
      DecimalReads(n / 10);
      assert s[..|s| - 1] == Decimal(n / 10);
    } else {
      assert s[..0] == "" && Value("") == 0;
    }
  }

  lemma DecimalInjective(m: nat, n: nat)
    requires Decimal(m) == Decimal(n)
    ensures m == n
  {
    DecimalReads(m);
    DecimalReads(n);
  }

  lemma {:induction false} DecimalLength(n: nat, k: nat)
    requires 1 <= k
    ensures |Decimal(n)| <= k <==> n < Pow10(k)
  {
    if k == 1 {
      assert Pow10(1) == 10;
    } else if n >= 10 {
      DecimalLength(n / 10, k - 1);
    } else {
      PowersGrow(k);
    }
  }

  lemma {:induction false} PowersGrow(k: nat)
    requires 1 <= k
    ensures 10 <= Pow10(k)
  {
    if k > 1 {
      PowersGrow(k - 1);
    }
  }

  /** A peer's text has no '#' and never more than 21 characters, so 8 characters remain for the id. */
  lemma PeerFits(p: Peer)
    ensures '#' !in IpPort(p) && |IpPort(p)| <= 21
  {
    assert Pow10(3) == 1000 && Pow10(5) == 100000;
    DecimalLength(p.a, 3);
    DecimalLength(p.b, 3);
    DecimalLength(p.c, 3);
    DecimalLength(p.d, 3);
    DecimalLength(p.port, 5);
  }

  lemma LongestPeerIs21()
    ensures |IpPort(LONGEST_PEER)| == 21
  {}

  /** The characters that remain for the id. */
  function Room(p: Peer): nat {
    if |IpPort(p)| <= 29 then 29 - |IpPort(p)| else 0
  }

  /** The buffer holds the peer's text, the '#', and as much of the id as fits. */
  lemma SuffixParts(p: Peer, id: nat)
    ensures Suffix(p, id) == ":" + IpPort(p) + "#" + Take(Decimal(id), Room(p)) && 8 <= Room(p)
  {
    PeerFits(p);
    var head := ":" + IpPort(p) + "#";
    if |head| + |Decimal(id)| > 31 {
      assert (head + Decimal(id))[..31] == head + Decimal(id)[..31 - |head|];
    }
  }

  /** A text splits in one way only at the first occurrence of a character. */
  lemma SplitAt(c: char, a: string, x: string, b: string, y: string)
    requires c !in a && c !in b && a + [c] + x == b + [c] + y
    ensures a == b && x == y
  {
    var s, t := a + [c] + x, b + [c] + y;
    assert s[|a|] == c && t[|b|] == c;
    assert forall k :: 0 <= k < |a| ==> s[k] == a[k] && a[k] != c;
    assert forall k :: 0 <= k < |b| ==> t[k] == b[k] && b[k] != c;
    assert a == s[..|a|] && b == t[..|b|] && x == s[|a| + 1..] && y == t[|b| + 1..];
  }

  function Before(c: char, s: string): string {
    if s == "" || s[0] == c then "" else [s[0]] + Before(c, s[1..])
  }

  function After(c: char, s: string): string {
    if s == "" then "" else if s[0] == c then s[1..] else After(c, s[1..])
  }

  lemma {:induction false} FirstSplits(c: char, a: string, x: string)
    requires c !in a
    ensures Before(c, a + [c] + x) == a && After(c, a + [c] + x) == x
  {
    if a == "" {
      assert (a + [c] + x)[1..] == x;
    } else {
      FirstSplits(c, a[1..], x);
      assert (a + [c] + x)[1..] == a[1..] + [c] + x;
    }
  }

  /** The four numbers and the port of an address in dotted notation, from left to right. */
  function Fields(s: string): seq<int> {
    var t := After('.', s);
    var u := After('.', t);
    var v := After('.', u);
    [Value(Before('.', s)), Value(Before('.', t)), Value(Before('.', u)), Value(Before(':', v)), Value(After(':', v))]
  }

  /** The text of an address is its four bytes and its port, in their order. */
  lemma IpPortReads(p: Peer)
    ensures Fields(IpPort(p)) == [p.a, p.b, p.c, p.d, p.port]
  {
    hide Decimal, Value, Before, After;
    var v := Decimal(p.d) + ":" + Decimal(p.port);
    var u := Decimal(p.c) + "." + v;
    var t := Decimal(p.b) + "." + u;
    FirstSplits('.', Decimal(p.a), t);
    FirstSplits('.', Decimal(p.b), u);
    FirstSplits('.', Decimal(p.c), v);
    FirstSplits(':', Decimal(p.d), Decimal(p.port));
    DecimalReads(p.a);
    DecimalReads(p.b);
    DecimalReads(p.c);
    DecimalReads(p.d);
    DecimalReads(p.port);
  }

  /** The text of an address names that address only. */
  lemma IpPortInjective(p: Peer, q: Peer)
    requires IpPort(p) == IpPort(q)
    ensures p == q
  {
    IpPortReads(p);
    IpPortReads(q);
    hide IpPort, Fields;
    var fs, gs := [p.a, p.b, p.c, p.d, p.port], [q.a, q.b, q.c, q.d, q.port];
    assert fs[0] == gs[0] && fs[1] == gs[1] && fs[2] == gs[2] && fs[3] == gs[3] && fs[4] == gs[4];
  }

  /** For example. */
  lemma NameOfOne()
    ensures ConnName("client", Peer(192, 168, 1, 10, 8080), 7) == "client:192.168.1.10:8080#7"
  {}

  /** Exactly when two connections of one client get the same name. */
  lemma NamesEqualIff(name: string, p: Peer, i: nat, q: Peer, j: nat)
    ensures ConnName(name, p, i) == ConnName(name, q, j)
            <==> p == q && Take(Decimal(i), Room(p)) == Take(Decimal(j), Room(p))
  {
    SuffixParts(p, i);
    SuffixParts(q, j);
    if ConnName(name, p, i) == ConnName(name, q, j) {
      var s, t := ConnName(name, p, i), ConnName(name, q, j);
      assert s[|name|..] == Suffix(p, i) && t[|name|..] == Suffix(q, j);
      PeerFits(p);
      PeerFits(q);
      SplitAt('#', ":" + IpPort(p), Take(Decimal(i), Room(p)), ":" + IpPort(q), Take(Decimal(j), Room(q)));
      assert IpPort(p) == (":" + IpPort(p))[1..] && IpPort(q) == (":" + IpPort(q))[1..];
      IpPortInjective(p, q);
    }
  }

  /**
    Exactly when two ids can lead to one name: for every pair of ids, there are peers that give both
    connections the same name if and only if the first eight digits of the ids agree.
   */
  lemma NamesCollideIff(name: string, i: nat, j: nat)
    ensures (exists p, q :: ConnName(name, p, i) == ConnName(name, q, j))
            <==> Take(Decimal(i), 8) == Take(Decimal(j), 8)
  {
    if Take(Decimal(i), 8) == Take(Decimal(j), 8) {
      LongestPeerIs21();
      NamesEqualIff(name, LONGEST_PEER, i, LONGEST_PEER, j);
      assert ConnName(name, LONGEST_PEER, i) == ConnName(name, LONGEST_PEER, j);
    }
    forall p, q | ConnName(name, p, i) == ConnName(name, q, j)
      ensures Take(Decimal(i), 8) == Take(Decimal(j), 8)
    {
      NamesEqualIff(name, p, i, q, j);
      SuffixParts(p, i);
      TakeLess(Decimal(i), Decimal(j), Room(p), 8);
    }
  }

  lemma TakeLess(s: string, t: string, m: nat, n: nat)
    requires n <= m && Take(s, m) == Take(t, m)
    ensures Take(s, n) == Take(t, n)
  {}

  /** Below 10^8, different ids give different names, whoever the peers are. */
  lemma NamesAreDistinct(name: string, p: Peer, i: nat, q: Peer, j: nat)
    requires i != j && i < 100_000_000 && j < 100_000_000
    ensures ConnName(name, p, i) != ConnName(name, q, j)
  {
    assert Pow10(4) == 10000 && Pow10(8) == 100_000_000;
    DecimalLength(i, 8);
    DecimalLength(j, 8);
    if ConnName(name, p, i) == ConnName(name, q, j) {
      NamesCollideIff(name, i, j);
      DecimalInjective(i, j);
    }
  }

  /** Dropping digits from the end: the first `k` digits of a longer number are a number themselves. */
  lemma {:induction false} LeadingDigits(id: nat, k: nat) returns (earlier: nat)
    requires 1 <= k && Pow10(k) <= id
    ensures 1 <= earlier < Pow10(k) && Take(Decimal(id), k) == Decimal(earlier)
  {
    var s := Decimal(id);
    PowersGrow(k);
    DecimalLength(id, k);
    DecimalLength(id / 10, k);
    assert s[..|s| - 1] == Decimal(id / 10);
    if id / 10 < Pow10(k) {
      earlier := id / 10;
    } else {
      earlier := LeadingDigits(id / 10, k);
      assert Take(s, k) == Take(s[..|s| - 1], k);
    }
  }

  /**
    Exactly when a connection to one peer repeats the name of an earlier one to that peer: as soon as
    its id has more digits than there is room for.
   */
  lemma NameRepeatsIff(name: string, p: Peer, id: nat)
    ensures (exists earlier: nat :: 1 <= earlier < id && ConnName(name, p, earlier) == ConnName(name, p, id))
            <==> Pow10(Room(p)) <= id
  {
    SuffixParts(p, id);
    if Pow10(Room(p)) <= id {
      var earlier := LeadingDigits(id, Room(p));
      DecimalLength(earlier, Room(p));
      NamesEqualIff(name, p, earlier, p, id);
    } else {
      DecimalLength(id, Room(p));
      forall earlier: nat | 1 <= earlier < id ensures ConnName(name, p, earlier) != ConnName(name, p, id) {
        DecimalLength(earlier, Room(p));
        NamesEqualIff(name, p, earlier, p, id);
        if Decimal(earlier) == Decimal(id) {
          DecimalInjective(earlier, id);
        }
      }
    }
  }

  /** The bound is tight: from 10^8 on, every connection to a peer with a long text repeats a name. */
  lemma EveryLaterIdCollides(name: string, id: nat)
    requires 100_000_000 <= id
    ensures exists earlier: nat ::
              1 <= earlier < id && ConnName(name, LONGEST_PEER, earlier) == ConnName(name, LONGEST_PEER, id)
  {
    LongestPeerIs21();
    assert Pow10(4) == 10000 && Pow10(8) == 100_000_000;
    NameRepeatsIff(name, LONGEST_PEER, id);
  }

  /** Ids are given out one by one. */
  ghost predicate Numbered(w: World) {
    && w.nextConnId == |w.established| + 1
    && forall i :: 0 <= i < |w.established| ==> w.established[i].id == i + 1
  }

  lemma NumberedStep(w: World, ev: Event)
    requires Numbered(w)
    ensures Numbered(Step(w, ev))
  {}

  lemma {:induction false} NumberedRun(w: World, evs: seq<Event>)
    requires Numbered(w)
    ensures Numbered(Run(w, evs))
    decreases |evs|
  {
    if evs != [] {
      NumberedStep(w, evs[0]);
      NumberedRun(Step(w, evs[0]), evs[1..]);
    }
  }

  /** The first 10^8 - 1 connections of a run have different names, whatever the run and the peers. */
  lemma RunNamesAreDistinct(evs: seq<Event>, name: string, peers: seq<Peer>, i: nat, j: nat)
    requires var w := Run(INITIAL, evs); i < j < |w.established| == |peers| && w.established[j].id < 100_000_000
    ensures var w := Run(INITIAL, evs);
            ConnName(name, peers[i], w.established[i].id) != ConnName(name, peers[j], w.established[j].id)
  {
    NumberedRun(INITIAL, evs);
    NamesAreDistinct(name, peers[i], i + 1, peers[j], j + 1);
  }
}
