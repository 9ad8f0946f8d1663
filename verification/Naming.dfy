/**
 The keys of the connection map: TcpServer::newConnection appends what snprintf leaves of ":%s#%d" in a
 32-byte buffer to the server name.
 */
module Naming {

  const BUFFER_SIZE: nat := 32

  function Digit(d: nat): char
    requires d < 10
  {
    "0123456789"[d]
  }

  /** "%d" of a number that is not negative. */
  function Dec(n: nat): (s: string)
    ensures |s| >= 1
  {
    if n < 10 then [Digit(n)] else Dec(n / 10) + [Digit(n % 10)]
  }

  /** snprintf keeps one byte for the terminating zero. */
  function Snprintf(s: string): string
  {
    if |s| < BUFFER_SIZE then s else s[..BUFFER_SIZE - 1]
  }

  /** An IPv4 address and port as sockets::toIpPort writes them. */
  function IpPort(a: nat, b: nat, c: nat, d: nat, port: nat): string
  {
    Dec(a) + "." + Dec(b) + "." + Dec(c) + "." + Dec(d) + ":" + Dec(port)
  }

  function ConnName(server: string, hostport: string, id: nat): string
  {
    server + Snprintf(":" + hostport + "#" + Dec(id))
  }

  /** The number of digits of the id that fit into the buffer. */
  function Room(hostport: string): int
  {
    BUFFER_SIZE - 3 - |hostport|
  }

  function Pow10(k: nat): nat
  {
    if k == 0 then 1 else 10 * Pow10(k - 1)
  }

  /** The first id that no longer fits into the buffer. */
  function IdLimit(hostport: string): nat
  {
    if Room(hostport) >= 1 then Pow10(Room(hostport)) else 1
  }

  /** The number that a string of decimal digits denotes. */
  function Value(s: string): int
  {
    if s == [] then 0 else 10 * Value(s[..|s| - 1]) + (s[|s| - 1] as int - '0' as int)
  }

  predicate IsDecimal(s: string)
  {
    && s != []
    && (forall i :: 0 <= i < |s| ==> '0' <= s[i] <= '9')
    && (|s| > 1 ==> s[0] != '0')
  }

  /** "%d" writes decimal digits without leading zeros, and they denote the number. */
  lemma {:induction false} DecDenotes(n: nat)
    ensures IsDecimal(Dec(n)) && Value(Dec(n)) == n
    ensures Dec(n)[0] == '0' ==> n == 0
  {
    if n >= 10 {
      DecDenotes(n / 10);
      assert Dec(n)[..|Dec(n)| - 1] == Dec(n / 10);
    }
  }

  /** The name holds server, address and id in full, or their first 31 characters after the server name. */
  lemma NameShape(server: string, hostport: string, id: nat)
    ensures var full := server + ":" + hostport + "#" + Dec(id);
      && |full| == |server| + 2 + |hostport| + |Dec(id)|
      && ConnName(server, hostport, id) == if |hostport| + |Dec(id)| <= 29 then full else full[..|server| + 31]
  {
    var rest := ":" + hostport + "#" + Dec(id);
    assert server + ":" + hostport + "#" + Dec(id) == server + rest;
  }

  lemma {:induction false} DecLength(n: nat, k: nat)
    requires k >= 1
    ensures |Dec(n)| <= k <==> n < Pow10(k)
  {
    if n >= 10 && k > 1 { DecLength(n / 10, k - 1); }
    if n < 10 && k > 1 { PowPositive(k - 1); }
  }

  lemma {:induction false} PowPositive(k: nat)
    ensures Pow10(k) >= 1
  {
    if k > 0 { PowPositive(k - 1); }
  }

  lemma {:induction false} DecInjective(m: nat, n: nat)
    requires Dec(m) == Dec(n)
    ensures m == n
  {
    if m >= 10 && n >= 10 {
      var a, b := Dec(m), Dec(n);
      assert a[..|a| - 1] == Dec(m / 10) && b[..|b| - 1] == Dec(n / 10);
      assert a[|a| - 1] == Digit(m % 10) && b[|b| - 1] == Digit(n % 10);
      DecInjective(m / 10, n / 10);
    } else {
      assert Dec(m)[0] == Dec(n)[0];
    }
  }

  /** A power of ten is the previous one with a zero appended. */
  lemma {:induction false} DecOfPower(k: nat)
    ensures Dec(Pow10(k + 1)) == Dec(Pow10(k)) + [Digit(0)] && |Dec(Pow10(k))| == k + 1
  {
    PowPositive(k);
    if k > 0 { DecOfPower(k - 1); }
  }

  lemma IpPortLength(a: nat, b: nat, c: nat, d: nat, port: nat)
    requires a < 256 && b < 256 && c < 256 && d < 256 && port < 65536
    ensures |IpPort(a, b, c, d, port)| <= 21
  {
    assert Pow10(3) == 1000 && Pow10(5) == 100000;
    DecLength(a, 3);
    DecLength(b, 3);
    DecLength(c, 3);
    DecLength(d, 3);
    DecLength(port, 5);
  }

  lemma NamesEqual(server: string, hostport: string, m: nat, n: nat)
    requires Room(hostport) >= 1
    ensures var room := Room(hostport);
      ConnName(server, hostport, m) == ConnName(server, hostport, n) <==>
        (if |Dec(m)| <= room then Dec(m) else Dec(m)[..room]) == (if |Dec(n)| <= room then Dec(n) else Dec(n)[..room])
  {
    KeptPart(server, hostport, m);
    KeptPart(server, hostport, n);
    var room, prefix := Room(hostport), server + (":" + hostport + "#");
    var x := if |Dec(m)| <= room then Dec(m) else Dec(m)[..room];
    var y := if |Dec(n)| <= room then Dec(n) else Dec(n)[..room];
    assert (prefix + x)[|prefix|..] == x && (prefix + y)[|prefix|..] == y;
  }

  lemma KeptPart(server: string, hostport: string, n: nat)
    requires Room(hostport) >= 1
    ensures var room := Room(hostport);
      ConnName(server, hostport, n)
      == server + (":" + hostport + "#") + if |Dec(n)| <= room then Dec(n) else Dec(n)[..room]
  {
    var room := Room(hostport);
    var prefix := ":" + hostport + "#";
    assert |prefix| == BUFFER_SIZE - 1 - room;
    if |Dec(n)| > room { assert (prefix + Dec(n))[..BUFFER_SIZE - 1] == prefix + Dec(n)[..room]; }
  }

  lemma DistinctWithinLimit(server: string, hostport: string, m: nat, n: nat)
    requires Room(hostport) >= 1 && m < n < IdLimit(hostport)
    ensures ConnName(server, hostport, m) != ConnName(server, hostport, n)
  {
    NamesEqual(server, hostport, m, n);
    DecLength(m, Room(hostport));
    DecLength(n, Room(hostport));
    if Dec(m) == Dec(n) { DecInjective(m, n); }
  }

  lemma Collide(server: string, hostport: string, m: nat, n: nat)
    requires Room(hostport) >= 1 && |Dec(m)| == Room(hostport) && Dec(n) == Dec(m) + [Digit(0)]
    ensures ConnName(server, hostport, m) == ConnName(server, hostport, n)
  {
    NamesEqual(server, hostport, m, n);
    assert Dec(n)[..Room(hostport)] == Dec(m);
  }

  lemma FirstCollision(server: string, hostport: string)
    requires Room(hostport) >= 1
    ensures var m, n := Pow10(Room(hostport) - 1), Pow10(Room(hostport));
      1 <= m < n && ConnName(server, hostport, m) == ConnName(server, hostport, n)
  {
    var k := Room(hostport) - 1;
    PowPositive(k);
    DecOfPower(k);
    Collide(server, hostport, Pow10(k), Pow10(k + 1));
  }

  /** The names of connections 1 to `last` are pairwise distinct exactly as long as every id still fits
      into the buffer; the first id that does not repeats the name of a tenth of it. */
  lemma NamesDistinct(server: string, hostport: string, last: nat)
    requires Room(hostport) >= 1
    ensures (forall m, n :: 1 <= m < n <= last ==> ConnName(server, hostport, m) != ConnName(server, hostport, n))
      <==> last < IdLimit(hostport)
  {
    if last < IdLimit(hostport) {
      forall m, n | 1 <= m < n <= last ensures ConnName(server, hostport, m) != ConnName(server, hostport, n) {
        DistinctWithinLimit(server, hostport, m, n);
      }
    } else {
      FirstCollision(server, hostport);
    }
  }

  /** For any IPv4 host and port, ids up to 99,999,999 give distinct names. */
  lemma NamesDistinctForIpv4(server: string, a: nat, b: nat, c: nat, d: nat, port: nat, m: nat, n: nat)
    requires a < 256 && b < 256 && c < 256 && d < 256 && port < 65536
    requires 1 <= m < n <= 99_999_999
    ensures ConnName(server, IpPort(a, b, c, d, port), m) != ConnName(server, IpPort(a, b, c, d, port), n)
  {
    var hostport := IpPort(a, b, c, d, port);
    IpPortLength(a, b, c, d, port);
    PowMonotone(8, Room(hostport));
    assert Pow10(8) == 100_000_000;
    NamesDistinct(server, hostport, n);
  }

  lemma {:induction false} PowMonotone(j: nat, k: nat)
    requires j <= k
    ensures Pow10(j) <= Pow10(k)
  {
    if j < k { PowMonotone(j, k - 1); }
  }
}
