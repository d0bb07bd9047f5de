/** A worked snapshot: a loopback adapter, a LAN adapter, a virtual adapter
    without hardware, an adapter that fell back to APIPA, and a WAN adapter. */
module QueryExample {
  import opened DottedQuad
  import opened Classifier
  import opened AddressQuery

  function Mac(): string { "aa:bb:cc:dd:ee:01" }

  function Loopback(): Adapter { Adapter("lo0", [InterfaceEntry("127.0.0.1", "IPv4", Mac(), true)]) }
  function Ethernet(): Adapter { Adapter("eth0", [InterfaceEntry("192.168.1.10", "IPv4", Mac(), false)]) }
  function Virtual(): Adapter { Adapter("virt0", [InterfaceEntry("10.0.0.5", "IPv4", ZeroMac, false)]) }
  function Wireless(): Adapter { Adapter("wifi0", [InterfaceEntry("169.254.1.2", "IPv4", Mac(), false)]) }
  function Uplink(): Adapter { Adapter("wan0", [InterfaceEntry("8.8.8.8", "IPv4", Mac(), false)]) }

  function ExampleSnapshot(): Snapshot {
    [Loopback(), Ethernet(), Virtual(), Wireless(), Uplink()]
  }

  lemma ParsesAs(address: string, q: seq<Octet>)
    requires |q| == 4
    requires address == Decimal(q[0]) + "." + Decimal(q[1]) + "." + Decimal(q[2]) + "." + Decimal(q[3])
    ensures IsDottedQuad(address) && Octets(address) == q
  {
    JoinFour(Decimal(q[0]), Decimal(q[1]), Decimal(q[2]), Decimal(q[3]));
    FormatRoundTrip(q);
  }

  /** What a one-entry adapter adds to the two lists. */
  lemma SingleEntry(e: InterfaceEntry)
    requires WellFormedEntry(e)
    ensures LanOfEntries([e]) == if IsKept(e) && InternalIsLanAddress(e.address) then [e.address] else []
    ensures WanOfEntries([e]) == if IsKept(e) && !InternalIsLanAddress(e.address) then [e.address] else []
  {
    assert [e][..0] == [];
  }

  lemma ClassifySnoc(s: Snapshot, a: Adapter)
    requires WellFormedSnapshot(s) && WellFormedEntries(a.entries)
    ensures WellFormedSnapshot(s + [a])
    ensures LanOf(s + [a]) == LanOf(s) + LanOfEntries(a.entries)
    ensures WanOf(s + [a]) == WanOf(s) + WanOfEntries(a.entries)
  {
    assert forall i | 0 <= i < |s| :: (s + [a])[i] == s[i];
    assert (s + [a])[..|s|] == s;
  }

  lemma LoopbackWellFormed()
    ensures WellFormedEntries(Loopback().entries)
  {
    ParsesAs("127.0.0.1", [127, 0, 0, 1]);
  }

  /** The loopback entry is dropped as internal. */
  lemma LoopbackDropped()
    ensures WellFormedEntries(Loopback().entries)
    ensures LanOfEntries(Loopback().entries) == [] && WanOfEntries(Loopback().entries) == []
  {
    LoopbackWellFormed();
    SingleEntry(Loopback().entries[0]);
  }

  lemma EthernetEntryKept()
    ensures IsKept(Ethernet().entries[0])
  {
    var e := Ethernet().entries[0];
    assert !IsApipa(e.address) by {
      assert e.address[..8][1] != "169.254."[1];
    }
    assert e.mac != ZeroMac by {
      assert e.mac[0] != ZeroMac[0];
    }
  }

  lemma EthernetAddressIsPrivate()
    ensures IsDottedQuad("192.168.1.10") && InternalIsLanAddress("192.168.1.10")
  {
    ParsesAs("192.168.1.10", [192, 168, 1, 10]);
  }

  /** The Ethernet entry is kept and private-range. */
  lemma EthernetIsLan()
    ensures WellFormedEntries(Ethernet().entries)
    ensures LanOfEntries(Ethernet().entries) == ["192.168.1.10"] && WanOfEntries(Ethernet().entries) == []
  {
    EthernetEntryKept();
    EthernetAddressIsPrivate();
    SingleEntry(Ethernet().entries[0]);
  }

  lemma VirtualWellFormed()
    ensures WellFormedEntries(Virtual().entries)
  {
    ParsesAs("10.0.0.5", [10, 0, 0, 5]);
  }

  /** The virtual entry is dropped for its all-zero MAC. */
  lemma VirtualDropped()
    ensures WellFormedEntries(Virtual().entries)
    ensures LanOfEntries(Virtual().entries) == [] && WanOfEntries(Virtual().entries) == []
  {
    VirtualWellFormed();
    SingleEntry(Virtual().entries[0]);
  }

  lemma WirelessWellFormed()
    ensures WellFormedEntries(Wireless().entries)
  {
    ParsesAs("169.254.1.2", [169, 254, 1, 2]);
  }

  /** The wireless entry is dropped for its APIPA address. */
  lemma WirelessDropped()
    ensures WellFormedEntries(Wireless().entries)
    ensures LanOfEntries(Wireless().entries) == [] && WanOfEntries(Wireless().entries) == []
  {
    WirelessWellFormed();
    assert IsApipa("169.254.1.2");
    SingleEntry(Wireless().entries[0]);
  }

  /** The uplink entry is kept and public. */
  lemma UplinkWellFormed()
    ensures WellFormedEntries(Uplink().entries)
    ensures IsDottedQuad("8.8.8.8") && !InternalIsLanAddress("8.8.8.8")
  {
    ParsesAs("8.8.8.8", [8, 8, 8, 8]);
  }

  lemma UplinkIsWan()
    ensures WellFormedEntries(Uplink().entries)
    ensures LanOfEntries(Uplink().entries) == [] && WanOfEntries(Uplink().entries) == ["8.8.8.8"]
  {
    UplinkWellFormed();
    assert Mac()[0] != ZeroMac[0];
    SingleEntry(Uplink().entries[0]);
  }

  /** The classification of the snapshot grows adapter by adapter. */
  lemma AfterLoopback()
    ensures WellFormedSnapshot([Loopback()])
    ensures LanOf([Loopback()]) == [] && WanOf([Loopback()]) == []
  {
    LoopbackDropped();
    var empty: Snapshot := [];
    ClassifySnoc(empty, Loopback());
    assert empty + [Loopback()] == [Loopback()];
  }

  lemma AfterEthernet()
    ensures WellFormedSnapshot([Loopback(), Ethernet()])
    ensures LanOf([Loopback(), Ethernet()]) == ["192.168.1.10"] && WanOf([Loopback(), Ethernet()]) == []
  {
    AfterLoopback();
    EthernetIsLan();
    ClassifySnoc([Loopback()], Ethernet());
    assert [Loopback()] + [Ethernet()] == [Loopback(), Ethernet()];
  }

  lemma AfterVirtual()
    ensures WellFormedSnapshot([Loopback(), Ethernet(), Virtual()])
    ensures LanOf([Loopback(), Ethernet(), Virtual()]) == ["192.168.1.10"]
    ensures WanOf([Loopback(), Ethernet(), Virtual()]) == []
  {
    AfterEthernet();
    VirtualDropped();
    ClassifySnoc([Loopback(), Ethernet()], Virtual());
    assert [Loopback(), Ethernet()] + [Virtual()] == [Loopback(), Ethernet(), Virtual()];
  }

  lemma AfterWireless()
    ensures WellFormedSnapshot([Loopback(), Ethernet(), Virtual(), Wireless()])
    ensures LanOf([Loopback(), Ethernet(), Virtual(), Wireless()]) == ["192.168.1.10"]
    ensures WanOf([Loopback(), Ethernet(), Virtual(), Wireless()]) == []
  {
    AfterVirtual();
    WirelessDropped();
    ClassifySnoc([Loopback(), Ethernet(), Virtual()], Wireless());
    assert [Loopback(), Ethernet(), Virtual()] + [Wireless()] == [Loopback(), Ethernet(), Virtual(), Wireless()];
  }

  /** Only the LAN and the WAN adapter contribute, each to its own list. */
  lemma ExampleClassification()
    ensures WellFormedSnapshot(ExampleSnapshot())
    ensures Classify(ExampleSnapshot()) == QueryResult(["192.168.1.10"], ["8.8.8.8"])
  {
    AfterWireless();
    UplinkIsWan();
    ClassifySnoc([Loopback(), Ethernet(), Virtual(), Wireless()], Uplink());
    assert [Loopback(), Ethernet(), Virtual(), Wireless()] + [Uplink()] == ExampleSnapshot();
  }
}
