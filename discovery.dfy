/**
 * The ASCOM Alpaca discovery responder: a UDP listener that answers every datagram
 * starting with "alpacadiscovery1" with a JSON object naming the HTTP API port.
 */
module Discovery {
  import opened Wrappers
  import opened GoStrings
  import opened Io

  const DefaultListenPort: uint32 := 32227
  const DefaultAlpacaApiPort: uint32 := 11111
  const DiscoveryPrefix: string := "alpacadiscovery1"
  /** Size of the receive buffer; a datagram is read into it and the rest stays zero. */
  const BufferSize: nat := 1024

  datatype DiscoveryServer = DiscoveryServer(apiPort: uint32, listenString: string)

  predicate IsValidPort(p: int) { 1 <= p <= 65535 }

  /** Ports outside 1..65535 fall back to the default. */
  function ClampPort(p: uint32, default: uint32): (r: uint32)
    ensures IsValidPort(p) ==> r == p
    ensures !IsValidPort(p) ==> r == default
  {
    if p > 65535 || p < 1 then default else p
  }

  /** `NewDiscoverySever`: clamps both ports and renders the listen address ":<port>". */
  function NewDiscoveryServer(listenPort: uint32, apiPort: uint32): (s: DiscoveryServer)
    ensures IsValidPort(s.apiPort)
    ensures s.apiPort == ClampPort(apiPort, DefaultAlpacaApiPort)
    ensures |s.listenString| >= 2 && s.listenString[0] == ':'
    ensures Atoi(s.listenString[1..]) == Some(ClampPort(listenPort, DefaultListenPort))
  {
    var port := ClampPort(listenPort, DefaultListenPort);
    AtoiItoa(port);
    var ls := ":" + Itoa(port);
    assert ls[1..] == Itoa(port);
    DiscoveryServer(ClampPort(apiPort, DefaultAlpacaApiPort), ls)
  }

  const ReplyHead: string := "{\n\"AlpacaPort\":"
  const ReplyTail: string := "\n}"

  /** `composeDiscoveryReply`: the JSON object {"AlpacaPort": port}, with the port in decimal. */
  function ComposeDiscoveryReply(s: DiscoveryServer): (r: string)
    ensures ReplyHead <= r
    ensures |r| >= |ReplyHead| + |ReplyTail| + 1
    ensures r[|r| - |ReplyTail|..] == ReplyTail
    ensures Atoi(r[|ReplyHead|..|r| - |ReplyTail|]) == Some(s.apiPort)
  {
    var digits := Itoa(s.apiPort);
    AtoiItoa(s.apiPort);
    var r := ReplyHead + digits + ReplyTail;
    assert r[|ReplyHead|..|r| - |ReplyTail|] == digits;
    assert r[|r| - |ReplyTail|..] == ReplyTail;
    r
  }

  /** A datagram is a version-1 discovery probe when the buffer starts with the discovery prefix. */
  function IsDiscoveryProbe(datagram: string): (r: bool)
    requires |datagram| <= BufferSize
    ensures r <==> HasPrefix(datagram, DiscoveryPrefix)
  {
    var msg := ZeroPadded(datagram, BufferSize);
    assert HasPrefix(msg, DiscoveryPrefix) <==> HasPrefix(datagram, DiscoveryPrefix) by {
      if |datagram| < |DiscoveryPrefix| {
        assert msg[|datagram|] == '\0' && DiscoveryPrefix[|datagram|] != '\0';
      } else {
        assert msg[..|DiscoveryPrefix|] == datagram[..|DiscoveryPrefix|];
      }
    }
    HasPrefix(msg, DiscoveryPrefix)
  }

  /** One `ReadFrom` on the socket: a datagram of at most 1024 bytes from a sender, or an error. */
  datatype Packet = Datagram(from: string, data: string) | ReadFailed

  predicate WellFormed(packets: seq<Packet>)
  {
    forall i :: 0 <= i < |packets| ==> packets[i].Datagram? ==> |packets[i].data| <= BufferSize
  }

  /** The senders that are owed a reply, in the order their probes arrived. */
  function ProbeSenders(packets: seq<Packet>): seq<string>
    requires WellFormed(packets)
  {
    if packets == [] then []
    else
      var last := packets[|packets| - 1];
      var earlier := ProbeSenders(packets[..|packets| - 1]);
      if last.Datagram? && IsDiscoveryProbe(last.data) then earlier + [last.from] else earlier
  }

  /**
   * The listening loop of `Start` over a finite run of reads: read errors are skipped,
   * non-probes are ignored, and every probe is answered with `ComposeDiscoveryReply`.
   * The replies are sent from separate goroutines, so the order in which they leave is
   * not fixed; `answered` lists the addresses in arrival order.
   */
  method Listen(s: DiscoveryServer, packets: seq<Packet>) returns (answered: seq<string>, reply: string)
    requires WellFormed(packets)
    ensures answered == ProbeSenders(packets)
    ensures reply == ComposeDiscoveryReply(s)
  {
    answered := [];
    reply := ComposeDiscoveryReply(s);
    var i := 0;
    while i < |packets|
      invariant 0 <= i <= |packets|
      invariant answered == ProbeSenders(packets[..i])
    {
      var p := packets[i];
      assert packets[..i + 1][..i] == packets[..i];
      if p.Datagram? {
        if IsDiscoveryProbe(p.data) {
          answered := answered + [p.from];
        }
      }
      i := i + 1;
    }
    assert packets[..|packets|] == packets;
  }

  predicate IsProbeAt(packets: seq<Packet>, i: int)
    requires WellFormed(packets)
  {
    0 <= i < |packets| && packets[i].Datagram? && IsDiscoveryProbe(packets[i].data)
  }

  /** An address is answered exactly when some probe came from it. */
  lemma {:induction false} ProbeSendersAreProbes(packets: seq<Packet>, addr: string)
    requires WellFormed(packets)
    ensures addr in ProbeSenders(packets) <==> exists i :: IsProbeAt(packets, i) && packets[i].from == addr
  {
    if packets != [] {
      var n := |packets| - 1;
      var init := packets[..n];
      ProbeSendersAreProbes(init, addr);
      assert forall i :: 0 <= i < n ==> (IsProbeAt(init, i) <==> IsProbeAt(packets, i)) by {
        forall i | 0 <= i < n ensures IsProbeAt(init, i) <==> IsProbeAt(packets, i) {
          assert init[i] == packets[i];
        }
      }
      if addr in ProbeSenders(packets) && addr !in ProbeSenders(init) {
        assert IsProbeAt(packets, n) && packets[n].from == addr;
      }
      if i :| IsProbeAt(packets, i) && packets[i].from == addr {
        if i < n {
          assert IsProbeAt(init, i) && init[i].from == addr;
        }
      }
    }
  }

  lemma FiveDigits(a: char, b: char, c: char, d: char, e: char)
    requires IsDigit(a) && IsDigit(b) && IsDigit(c) && IsDigit(d) && IsDigit(e)
    ensures AllDigits([a, b, c, d, e])
    ensures DigitsValue([a, b, c, d, e]) ==
      (((DigitValue(a) * 10 + DigitValue(b)) * 10 + DigitValue(c)) * 10 + DigitValue(d)) * 10 + DigitValue(e)
  {
    DigitsValueAppend([a], b);
    assert [a] + [b] == [a, b];
    DigitsValueAppend([a, b], c);
    assert [a, b] + [c] == [a, b, c];
    DigitsValueAppend([a, b, c], d);
    assert [a, b, c] + [d] == [a, b, c, d];
    DigitsValueAppend([a, b, c, d], e);
    assert [a, b, c, d] + [e] == [a, b, c, d, e];
  }

  /** The decimal text of the default ports and of ports 33227 and 80. */
  lemma PortDigits()
    ensures IsCanonicalDecimal("32227") && DigitsValue("32227") == 32227
    ensures IsCanonicalDecimal("33227") && DigitsValue("33227") == 33227
    ensures IsCanonicalDecimal("11111") && DigitsValue("11111") == 11111
    ensures IsCanonicalDecimal("80") && DigitsValue("80") == 80
  {
    FiveDigits('3', '2', '2', '2', '7');
    FiveDigits('3', '3', '2', '2', '7');
    FiveDigits('1', '1', '1', '1', '1');
    DigitsValueAppend("8", '0');
    assert "8" + ['0'] == "80";
  }

  lemma ListenStringOf(listenPort: uint32, digits: string)
    requires IsCanonicalDecimal(digits) && DigitsValue(digits) == ClampPort(listenPort, DefaultListenPort)
    ensures NewDiscoveryServer(listenPort, DefaultAlpacaApiPort).listenString == ":" + digits
  {
    NatToDecimalCanonical(digits);
  }

  lemma ListenStringExamples()
    ensures NewDiscoveryServer(32227, 11111).listenString == ":32227"
    ensures NewDiscoveryServer(33227, 11111).listenString == ":33227"
    ensures NewDiscoveryServer(70000, 11111).listenString == ":32227"
    ensures NewDiscoveryServer(0, 11111).listenString == ":32227"
  {
    PortDigits();
    ListenStringOf(32227, "32227");
    ListenStringOf(33227, "33227");
    ListenStringOf(70000, "32227");
    ListenStringOf(0, "32227");
  }

  lemma ReplyExample(listenPort: uint32, apiPort: uint32, digits: string)
    requires IsCanonicalDecimal(digits) && DigitsValue(digits) == ClampPort(apiPort, DefaultAlpacaApiPort)
    ensures ComposeDiscoveryReply(NewDiscoveryServer(listenPort, apiPort)) == ReplyHead + digits + ReplyTail
  {
    NatToDecimalCanonical(digits);
  }

  lemma ReplyExamples()
    ensures ComposeDiscoveryReply(NewDiscoveryServer(32227, 11111)) == "{\n\"AlpacaPort\":11111\n}"
    ensures ComposeDiscoveryReply(NewDiscoveryServer(32227, 80)) == "{\n\"AlpacaPort\":80\n}"
    ensures ComposeDiscoveryReply(NewDiscoveryServer(32227, 70000)) == "{\n\"AlpacaPort\":11111\n}"
    ensures ComposeDiscoveryReply(NewDiscoveryServer(32227, 0)) == "{\n\"AlpacaPort\":11111\n}"
  {
    PortDigits();
    ReplyExample(32227, 11111, "11111");
    ReplyExample(32227, 80, "80");
    ReplyExample(32227, 70000, "11111");
    ReplyExample(32227, 0, "11111");
  }

  lemma ProbeExamples()
    ensures IsDiscoveryProbe("alpacadiscovery1")
    ensures IsDiscoveryProbe("alpacadiscovery1 extra")
    ensures !IsDiscoveryProbe("alpacadiscovery")
  {
  }
}
