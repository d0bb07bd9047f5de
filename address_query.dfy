/**
 `queryAddresses` of ip-helpers: the pass over a snapshot of the host's
 network adapters that keeps the external IPv4 entries with a real MAC and
 no APIPA address and sorts their addresses into LAN and WAN lists, the
 one-slot cache `lastQueryResult` that holds its result until the deferred
 clearing callback runs, and the `Helpers` accessors projected from it.

 The snapshot returned by `os.networkInterfaces()` is a parameter: a
 sequence of adapters in the order `Object.keys` lists them, each with its
 entries in order.
 */
module AddressQuery {
  import opened Wrappers
  import opened DottedQuad
  import opened Classifier

  /** One address entry of an adapter, with the fields the pass reads. */
  datatype InterfaceEntry = InterfaceEntry(address: string, family: string, mac: string, internal: bool)

  /** One named adapter with its entries in reporting order. */
  datatype Adapter = Adapter(name: string, entries: seq<InterfaceEntry>)

  type Snapshot = seq<Adapter>

  /** `QueryResult`: the LAN and WAN addresses in discovery order. */
  datatype QueryResult = QueryResult(lanAddresses: seq<string>, wanAddresses: seq<string>)

  /** The MAC address of a virtual adapter without hardware. */
  const ZeroMac: string := "00:00:00:00:00:00"

  /** The four filters of the pass: an entry survives when it is external,
      IPv4, has a real MAC and no APIPA address. */
  predicate IsKept(e: InterfaceEntry) {
    !e.internal && e.family == "IPv4" && e.mac != ZeroMac && !IsApipa(e.address)
  }

  /** What the host promises: an IPv4 entry carries a well-formed dotted quad. */
  predicate WellFormedEntry(e: InterfaceEntry) {
    e.family == "IPv4" ==> IsDottedQuad(e.address)
  }

  predicate WellFormedEntries(es: seq<InterfaceEntry>) {
    forall j | 0 <= j < |es| :: WellFormedEntry(es[j])
  }

  predicate WellFormedSnapshot(s: Snapshot) {
    forall i | 0 <= i < |s| :: WellFormedEntries(s[i].entries)
  }

  // ---------------------------------------------------------------------
  // The pass, as the nested loops build it: entry by entry within an
  // adapter, adapter by adapter within the snapshot.

  /** The addresses the inner loop appends to `lanAddresses` for these entries. */
  function LanOfEntries(es: seq<InterfaceEntry>): seq<string>
    requires WellFormedEntries(es)
    decreases |es|
  {
    if es == [] then []
    else
      var e := es[|es| - 1];
      LanOfEntries(es[..|es| - 1]) + (if IsKept(e) && InternalIsLanAddress(e.address) then [e.address] else [])
  }

  /** The addresses the inner loop appends to `wanAddresses` for these entries. */
  function WanOfEntries(es: seq<InterfaceEntry>): seq<string>
    requires WellFormedEntries(es)
    decreases |es|
  {
    if es == [] then []
    else
      var e := es[|es| - 1];
      WanOfEntries(es[..|es| - 1]) + (if IsKept(e) && !InternalIsLanAddress(e.address) then [e.address] else [])
  }

  function LanOf(s: Snapshot): seq<string>
    requires WellFormedSnapshot(s)
    decreases |s|
  {
    if s == [] then [] else LanOf(s[..|s| - 1]) + LanOfEntries(s[|s| - 1].entries)
  }

  function WanOf(s: Snapshot): seq<string>
    requires WellFormedSnapshot(s)
    decreases |s|
  {
    if s == [] then [] else WanOf(s[..|s| - 1]) + WanOfEntries(s[|s| - 1].entries)
  }

  /** The result a cache miss computes from the snapshot. */
  function Classify(s: Snapshot): QueryResult
    requires WellFormedSnapshot(s)
  {
    QueryResult(LanOf(s), WanOf(s))
  }

  /** What one entry adds to the LAN and WAN lists. */
  lemma EntryStep(es: seq<InterfaceEntry>, j: nat)
    requires WellFormedEntries(es) && j < |es|
    ensures var e := es[j];
      && LanOfEntries(es[..j + 1]) == LanOfEntries(es[..j]) + (if IsKept(e) && InternalIsLanAddress(e.address) then [e.address] else [])
      && WanOfEntries(es[..j + 1]) == WanOfEntries(es[..j]) + (if IsKept(e) && !InternalIsLanAddress(e.address) then [e.address] else [])
  {
    assert es[..j + 1][..j] == es[..j];
  }

  /** What one adapter adds to the LAN and WAN lists. */
  lemma AdapterStep(s: Snapshot, i: nat)
    requires WellFormedSnapshot(s) && i < |s|
    ensures LanOf(s[..i + 1]) == LanOf(s[..i]) + LanOfEntries(s[i].entries)
    ensures WanOf(s[..i + 1]) == WanOf(s[..i]) + WanOfEntries(s[i].entries)
  {
    assert s[..i + 1][..i] == s[..i];
  }

  /** The body of `queryAddresses` on a cache miss: the nested loops. */
  method ComputeAddresses(s: Snapshot) returns (r: QueryResult)
    requires WellFormedSnapshot(s)
    ensures r == Classify(s)
  {
    var lanAddresses: seq<string> := [];
    var wanAddresses: seq<string> := [];
    for i := 0 to |s|
      invariant lanAddresses == LanOf(s[..i])
      invariant wanAddresses == WanOf(s[..i])
    {
      var interfaces := s[i].entries;
      assert WellFormedEntries(interfaces);
      for j := 0 to |interfaces|
        invariant lanAddresses == LanOf(s[..i]) + LanOfEntries(interfaces[..j])
        invariant wanAddresses == WanOf(s[..i]) + WanOfEntries(interfaces[..j])
      {
        EntryStep(interfaces, j);
        var ni := interfaces[j];
        if ni.internal || ni.family != "IPv4" || ni.mac == ZeroMac || IsApipa(ni.address) {
          continue;
        }
        var address := ni.address;
        if InternalIsLanAddress(address) {
          lanAddresses := lanAddresses + [address];
        } else {
          wanAddresses := wanAddresses + [address];
        }
      }
      assert interfaces[..|interfaces|] == interfaces;
      AdapterStep(s, i);
    }
    assert s[..|s|] == s;
    r := QueryResult(lanAddresses, wanAddresses);
  }

  // ---------------------------------------------------------------------
  // Reference definition: filter the flat enumeration, then partition.

  /** All entries in enumeration order: adapter order, then entry order. */
  function Entries(s: Snapshot): seq<InterfaceEntry>
    decreases |s|
  {
    if s == [] then [] else Entries(s[..|s| - 1]) + s[|s| - 1].entries
  }

  /** The addresses of the entries that pass the four filters, in order. */
  function KeptAddresses(es: seq<InterfaceEntry>): (r: seq<string>)
    ensures |r| <= |es|
    ensures WellFormedEntries(es) ==> forall k | 0 <= k < |r| :: IsDottedQuad(r[k])
    decreases |es|
  {
    if es == [] then []
    else
      var e := es[|es| - 1];
      KeptAddresses(es[..|es| - 1]) + (if IsKept(e) then [e.address] else [])
  }

  /** The order-preserving filter of the private-range addresses. */
  function LanPart(xs: seq<string>): (r: seq<string>)
    requires forall k | 0 <= k < |xs| :: IsDottedQuad(xs[k])
    ensures forall k | 0 <= k < |r| :: IsDottedQuad(r[k]) && InternalIsLanAddress(r[k])
    decreases |xs|
  {
    if xs == [] then []
    else
      var x := xs[|xs| - 1];
      LanPart(xs[..|xs| - 1]) + (if InternalIsLanAddress(x) then [x] else [])
  }

  /** The order-preserving filter of the other addresses. */
  function WanPart(xs: seq<string>): (r: seq<string>)
    requires forall k | 0 <= k < |xs| :: IsDottedQuad(xs[k])
    ensures forall k | 0 <= k < |r| :: IsDottedQuad(r[k]) && !InternalIsLanAddress(r[k])
    decreases |xs|
  {
    if xs == [] then []
    else
      var x := xs[|xs| - 1];
      WanPart(xs[..|xs| - 1]) + (if InternalIsLanAddress(x) then [] else [x])
  }

  // ---------------------------------------------------------------------
  // The loops compute the reference partition.

  lemma {:induction false} EntriesWellFormed(s: Snapshot)
    requires WellFormedSnapshot(s)
    ensures WellFormedEntries(Entries(s))
    decreases |s|
  {
    if s != [] {
      EntriesWellFormed(s[..|s| - 1]);
      var front, last := Entries(s[..|s| - 1]), s[|s| - 1].entries;
      assert Entries(s) == front + last;
      forall j | 0 <= j < |front + last| ensures WellFormedEntry((front + last)[j]) {
        if j >= |front| {
          assert (front + last)[j] == last[j - |front|];
        }
      }
    }
  }

  lemma {:induction false} KeptAddressesAppend(a: seq<InterfaceEntry>, b: seq<InterfaceEntry>)
    ensures KeptAddresses(a + b) == KeptAddresses(a) + KeptAddresses(b)
    decreases |b|
  {
    if b == [] {
      assert a + b == a;
    } else {
      var b' := b[..|b| - 1];
      assert (a + b)[..|a + b| - 1] == a + b';
      KeptAddressesAppend(a, b');
    }
  }

  lemma AllDottedQuadsAppend(xs: seq<string>, ys: seq<string>)
    requires forall k | 0 <= k < |xs| :: IsDottedQuad(xs[k])
    requires forall k | 0 <= k < |ys| :: IsDottedQuad(ys[k])
    ensures forall k | 0 <= k < |xs + ys| :: IsDottedQuad((xs + ys)[k])
  {
    forall k | 0 <= k < |xs + ys| ensures IsDottedQuad((xs + ys)[k]) {
      if k >= |xs| { assert (xs + ys)[k] == ys[k - |xs|]; }
    }
  }

  lemma {:induction false} LanPartAppend(xs: seq<string>, ys: seq<string>)
    requires forall k | 0 <= k < |xs| :: IsDottedQuad(xs[k])
    requires forall k | 0 <= k < |ys| :: IsDottedQuad(ys[k])
    ensures forall k | 0 <= k < |xs + ys| :: IsDottedQuad((xs + ys)[k])
    ensures LanPart(xs + ys) == LanPart(xs) + LanPart(ys)
    decreases |ys|
  {
    AllDottedQuadsAppend(xs, ys);
    if ys == [] {
      assert xs + ys == xs;
    } else {
      var ys' := ys[..|ys| - 1];
      assert (xs + ys)[..|xs + ys| - 1] == xs + ys';
      LanPartAppend(xs, ys');
    }
  }

  lemma {:induction false} WanPartAppend(xs: seq<string>, ys: seq<string>)
    requires forall k | 0 <= k < |xs| :: IsDottedQuad(xs[k])
    requires forall k | 0 <= k < |ys| :: IsDottedQuad(ys[k])
    ensures forall k | 0 <= k < |xs + ys| :: IsDottedQuad((xs + ys)[k])
    ensures WanPart(xs + ys) == WanPart(xs) + WanPart(ys)
    decreases |ys|
  {
    AllDottedQuadsAppend(xs, ys);
    if ys == [] {
      assert xs + ys == xs;
    } else {
      var ys' := ys[..|ys| - 1];
      assert (xs + ys)[..|xs + ys| - 1] == xs + ys';
      WanPartAppend(xs, ys');
    }
  }

  /** Within one adapter, the inner loop is the filter followed by the partition. */
  lemma {:induction false} EntriesPartition(es: seq<InterfaceEntry>)
    requires WellFormedEntries(es)
    ensures LanOfEntries(es) == LanPart(KeptAddresses(es))
    ensures WanOfEntries(es) == WanPart(KeptAddresses(es))
    decreases |es|
  {
    if es != [] {
      var es' := es[..|es| - 1];
      var e := es[|es| - 1];
      EntriesPartition(es');
      assert WellFormedEntry(e);
      var tail := if IsKept(e) then [e.address] else [];
      assert KeptAddresses(es) == KeptAddresses(es') + tail;
      LanPartAppend(KeptAddresses(es'), tail);
      WanPartAppend(KeptAddresses(es'), tail);
      if IsKept(e) {
        assert tail[..0] == [];
      }
    }
  }

  /** The result of a cache miss is the reference partition of the kept addresses. */
  lemma {:induction false} ClassifyIsPartition(s: Snapshot)
    requires WellFormedSnapshot(s)
    ensures WellFormedEntries(Entries(s))
    ensures Classify(s) == QueryResult(LanPart(KeptAddresses(Entries(s))), WanPart(KeptAddresses(Entries(s))))
    decreases |s|
  {
    EntriesWellFormed(s);
    if s != [] {
      var s' := s[..|s| - 1];
      var es := s[|s| - 1].entries;
      ClassifyIsPartition(s');
      EntriesWellFormed(s');
      assert WellFormedEntries(es);
      KeptAddressesAppend(Entries(s'), es);
      EntriesPartition(es);
      LanPartAppend(KeptAddresses(Entries(s')), KeptAddresses(es));
      WanPartAppend(KeptAddresses(Entries(s')), KeptAddresses(es));
    }
  }

  // ---------------------------------------------------------------------
  // Properties of the partition.

  /** `xs` occurs in `ys` in order: some strictly increasing choice of
      positions of `ys` spells `xs`. */
  ghost predicate IsSubsequence(xs: seq<string>, ys: seq<string>) {
    exists idx: seq<int> ::
      |idx| == |xs| &&
      (forall k | 0 <= k < |idx| :: 0 <= idx[k] < |ys| && xs[k] == ys[idx[k]]) &&
      (forall k, l | 0 <= k < l < |idx| :: idx[k] < idx[l])
  }

  /** Together the two parts hold every input address exactly as often as the input does. */
  lemma {:induction false} PartsSplitInput(xs: seq<string>)
    requires forall k | 0 <= k < |xs| :: IsDottedQuad(xs[k])
    ensures |LanPart(xs)| + |WanPart(xs)| == |xs|
    ensures multiset(LanPart(xs)) + multiset(WanPart(xs)) == multiset(xs)
    decreases |xs|
  {
    if xs != [] {
      var xs' := xs[..|xs| - 1];
      PartsSplitInput(xs');
      assert xs == xs' + [xs[|xs| - 1]];
    }
  }

  /** The LAN part keeps the order of its input. */
  lemma {:induction false} LanPartKeepsOrder(xs: seq<string>)
    requires forall k | 0 <= k < |xs| :: IsDottedQuad(xs[k])
    ensures IsSubsequence(LanPart(xs), xs)
    decreases |xs|
  {
    if xs == [] {
      EmptyIsSubsequence(xs);
    } else {
      var x := xs[|xs| - 1];
      var front := LanPart(xs[..|xs| - 1]);
      LanPartKeepsOrder(xs[..|xs| - 1]);
      assert LanPart(xs) == if InternalIsLanAddress(x) then front + [x] else front;
      SubsequenceSnoc(front, xs, InternalIsLanAddress(x));
    }
  }

  /** The WAN part keeps the order of its input. */
  lemma {:induction false} WanPartKeepsOrder(xs: seq<string>)
    requires forall k | 0 <= k < |xs| :: IsDottedQuad(xs[k])
    ensures IsSubsequence(WanPart(xs), xs)
    decreases |xs|
  {
    if xs == [] {
      EmptyIsSubsequence(xs);
    } else {
      var x := xs[|xs| - 1];
      var front := WanPart(xs[..|xs| - 1]);
      WanPartKeepsOrder(xs[..|xs| - 1]);
      assert WanPart(xs) == if InternalIsLanAddress(x) then front else front + [x];
      SubsequenceSnoc(front, xs, !InternalIsLanAddress(x));
    }
  }

  lemma EmptyIsSubsequence(ys: seq<string>)
    ensures IsSubsequence([], ys)
  {
    var idx: seq<int> := [];
    assert |idx| == 0;
  }

  /** Extending a sequence by one element, and the subsequence by the same
      element or by nothing, keeps the embedding. */
  lemma SubsequenceSnoc(xs: seq<string>, ys: seq<string>, take: bool)
    requires |ys| > 0 && IsSubsequence(xs, ys[..|ys| - 1])
    ensures IsSubsequence(if take then xs + [ys[|ys| - 1]] else xs, ys)
  {
    var ys' := ys[..|ys| - 1];
    var idx: seq<int> :| |idx| == |xs| &&
      (forall k | 0 <= k < |idx| :: 0 <= idx[k] < |ys'| && xs[k] == ys'[idx[k]]) &&
      (forall k, l | 0 <= k < l < |idx| :: idx[k] < idx[l]);
    if take {
      var xs2, idx2 := xs + [ys[|ys| - 1]], idx + [|ys'|];
      assert forall k | 0 <= k < |idx2| :: 0 <= idx2[k] < |ys| && xs2[k] == ys[idx2[k]];
      assert forall k, l | 0 <= k < l < |idx2| :: idx2[k] < idx2[l];
    } else {
      assert forall k | 0 <= k < |idx| :: 0 <= idx[k] < |ys| && xs[k] == ys[idx[k]];
    }
  }

  /** Every kept address comes from some entry that passed the four filters. */
  lemma {:induction false} KeptAddressesProvenance(es: seq<InterfaceEntry>)
    ensures forall x | x in KeptAddresses(es) :: exists j :: 0 <= j < |es| && IsKept(es[j]) && es[j].address == x
    decreases |es|
  {
    if es != [] {
      var es' := es[..|es| - 1];
      KeptAddressesProvenance(es');
      forall x | x in KeptAddresses(es)
        ensures exists j :: 0 <= j < |es| && IsKept(es[j]) && es[j].address == x
      {
        if x in KeptAddresses(es') {
          var j :| 0 <= j < |es'| && IsKept(es'[j]) && es'[j].address == x;
          assert es[j] == es'[j];
        } else {
          assert IsKept(es[|es| - 1]) && es[|es| - 1].address == x;
        }
      }
    }
  }

  /** The result of a cache miss, stated as the source promises it: each list
      is the kept addresses of its kind in enumeration order, the LAN list is
      all private-range, the WAN list none, and every kept address is in
      exactly one of them. */
  lemma ClassifyCorrect(s: Snapshot)
    requires WellFormedSnapshot(s)
    ensures WellFormedEntries(Entries(s))
    ensures var r := Classify(s);
      && (forall k | 0 <= k < |r.lanAddresses| :: IsDottedQuad(r.lanAddresses[k]))
      && (forall k | 0 <= k < |r.wanAddresses| :: IsDottedQuad(r.wanAddresses[k]))
    ensures var r, kept := Classify(s), KeptAddresses(Entries(s));
      && (forall k | 0 <= k < |r.lanAddresses| :: InternalIsLanAddress(r.lanAddresses[k]))
      && (forall k | 0 <= k < |r.wanAddresses| :: !InternalIsLanAddress(r.wanAddresses[k]))
      && |r.lanAddresses| + |r.wanAddresses| == |kept|
      && multiset(r.lanAddresses) + multiset(r.wanAddresses) == multiset(kept)
      && IsSubsequence(r.lanAddresses, kept) && IsSubsequence(r.wanAddresses, kept)
  {
    ClassifyIsPartition(s);
    PartsSplitInput(KeptAddresses(Entries(s)));
    LanPartKeepsOrder(KeptAddresses(Entries(s)));
    WanPartKeepsOrder(KeptAddresses(Entries(s)));
  }

  /** Every address in the result comes from an entry of the snapshot that is
      external, IPv4, has a real MAC and no APIPA address. */
  lemma ClassifyProvenance(s: Snapshot)
    requires WellFormedSnapshot(s)
    ensures var r, es := Classify(s), Entries(s);
      forall x | x in r.lanAddresses + r.wanAddresses ::
        exists j :: 0 <= j < |es| && IsKept(es[j]) && es[j].address == x
  {
    var kept := KeptAddresses(Entries(s));
    ClassifyCorrect(s);
    KeptAddressesProvenance(Entries(s));
    var r := Classify(s);
    forall x | x in r.lanAddresses + r.wanAddresses ensures x in kept {
      assert x in multiset(r.lanAddresses) + multiset(r.wanAddresses);
    }
  }

  /** Every address on the LAN list satisfies `isLANAddress` and every address
      on the WAN list satisfies `isWANAddress`. */
  lemma ClassifyAgreesWithPublicPredicates(s: Snapshot)
    requires WellFormedSnapshot(s)
    ensures var r := Classify(s);
      && (forall k | 0 <= k < |r.lanAddresses| :: IsDottedQuad(r.lanAddresses[k]) && IsLanAddress(r.lanAddresses[k]))
      && (forall k | 0 <= k < |r.wanAddresses| :: IsDottedQuad(r.wanAddresses[k]) && IsWanAddress(r.wanAddresses[k]))
  {
    var r := Classify(s);
    ClassifyProvenance(s);
    ClassifyIsPartition(s);
    var es := Entries(s);
    forall x | x in r.lanAddresses + r.wanAddresses ensures IsDottedQuad(x) && !IsApipa(x) {
      var j :| 0 <= j < |es| && IsKept(es[j]) && es[j].address == x;
    }
    forall k | 0 <= k < |r.lanAddresses| ensures IsDottedQuad(r.lanAddresses[k]) && IsLanAddress(r.lanAddresses[k]) {
      assert r.lanAddresses[k] in r.lanAddresses + r.wanAddresses;
    }
    forall k | 0 <= k < |r.wanAddresses| ensures IsDottedQuad(r.wanAddresses[k]) && IsWanAddress(r.wanAddresses[k]) {
      assert r.wanAddresses[k] in r.lanAddresses + r.wanAddresses;
    }
  }

  // ---------------------------------------------------------------------
  // `Helpers.lanAddress` / `Helpers.wanAddress`: element 0 of a list.

  /** `list[0]`, absent (`undefined`) on an empty list. */
  function First(xs: seq<string>): (r: Option<string>)
    ensures r.None? <==> xs == []
    ensures r.Some? ==> r.value == xs[0] && r.value in xs
  {
    if xs == [] then None else Some(xs[0])
  }

  /** The LAN part is empty exactly when no input address is private-range. */
  lemma {:induction false} LanPartEmpty(xs: seq<string>)
    requires forall k | 0 <= k < |xs| :: IsDottedQuad(xs[k])
    ensures LanPart(xs) == [] <==> forall k | 0 <= k < |xs| :: !InternalIsLanAddress(xs[k])
    decreases |xs|
  {
    if xs != [] {
      var xs' := xs[..|xs| - 1];
      LanPartEmpty(xs');
      assert forall k | 0 <= k < |xs'| :: xs'[k] == xs[k];
    }
  }

  /** The first LAN address of a fresh result is a LAN address, and it is
      absent exactly when no kept address is private-range. */
  lemma FirstLanAddress(s: Snapshot)
    requires WellFormedSnapshot(s)
    ensures WellFormedEntries(Entries(s))
    ensures var a, kept := First(Classify(s).lanAddresses), KeptAddresses(Entries(s));
      && (a.None? <==> forall k | 0 <= k < |kept| :: !InternalIsLanAddress(kept[k]))
      && (a.Some? ==> IsDottedQuad(a.value) && IsLanAddress(a.value))
  {
    ClassifyIsPartition(s);
    LanPartEmpty(KeptAddresses(Entries(s)));
    ClassifyAgreesWithPublicPredicates(s);
  }

  /** The WAN part is empty exactly when every input address is private-range. */
  lemma {:induction false} WanPartEmpty(xs: seq<string>)
    requires forall k | 0 <= k < |xs| :: IsDottedQuad(xs[k])
    ensures WanPart(xs) == [] <==> forall k | 0 <= k < |xs| :: InternalIsLanAddress(xs[k])
    decreases |xs|
  {
    if xs != [] {
      var xs' := xs[..|xs| - 1];
      WanPartEmpty(xs');
      assert forall k | 0 <= k < |xs'| :: xs'[k] == xs[k];
    }
  }

  /** The first WAN address of a fresh result is a WAN address, and it is
      absent exactly when every kept address is private-range. */
  lemma FirstWanAddress(s: Snapshot)
    requires WellFormedSnapshot(s)
    ensures WellFormedEntries(Entries(s))
    ensures var a, kept := First(Classify(s).wanAddresses), KeptAddresses(Entries(s));
      && (a.None? <==> forall k | 0 <= k < |kept| :: InternalIsLanAddress(kept[k]))
      && (a.Some? ==> IsDottedQuad(a.value) && IsWanAddress(a.value))
  {
    ClassifyIsPartition(s);
    WanPartEmpty(KeptAddresses(Entries(s)));
    ClassifyAgreesWithPublicPredicates(s);
  }

  // ---------------------------------------------------------------------
  // The cache slot `lastQueryResult` and the accessors that read through it.

  class AddressCache {
    /** `lastQueryResult`; None stands for `undefined`. */
    var lastQueryResult: Option<QueryResult>
    /** Clearing callbacks that `setImmediate` has queued and the event loop has not run yet. */
    var pendingClears: nat

    /** A stored result is always about to be cleared: some queued callback will empty the slot. */
    ghost predicate Valid()
      reads this
    {
      lastQueryResult.Some? ==> pendingClears > 0
    }

    constructor ()
      ensures Valid()
      ensures lastQueryResult == None && pendingClears == 0
    {
      lastQueryResult := None;
      pendingClears := 0;
    }

    /** What `queryAddresses` returns now for this snapshot: the stored
        result on a hit, a fresh classification on a miss. */
    function Answer(s: Snapshot): QueryResult
      reads this
      requires WellFormedSnapshot(s)
    {
      if lastQueryResult.Some? then lastQueryResult.value else Classify(s)
    }

    /** `queryAddresses`: compute on a miss, reuse on a hit, and in both cases
        queue one clearing callback. */
    method QueryAddresses(s: Snapshot) returns (r: QueryResult)
      requires Valid() && WellFormedSnapshot(s)
      modifies this
      ensures Valid()
      ensures old(lastQueryResult).Some? ==> r == old(lastQueryResult).value
      ensures old(lastQueryResult).None? ==> r == Classify(s)
      ensures r == old(Answer(s))
      ensures lastQueryResult == Some(r)
      ensures pendingClears == old(pendingClears) + 1
    {
      if lastQueryResult.None? {
        var computed := ComputeAddresses(s);
        lastQueryResult := Some(computed);
      }
      pendingClears := pendingClears + 1;
      r := lastQueryResult.value;
    }

    /** One queued clearing callback runs: `lastQueryResult = undefined`. */
    method Clear()
      requires Valid() && pendingClears > 0
      modifies this
      ensures Valid()
      ensures lastQueryResult == None
      ensures pendingClears == old(pendingClears) - 1
    {
      lastQueryResult := None;
      pendingClears := pendingClears - 1;
    }

    /** `Helpers.lanAddresses`. */
    method LanAddresses(s: Snapshot) returns (addresses: seq<string>)
      requires Valid() && WellFormedSnapshot(s)
      modifies this
      ensures Valid()
      ensures addresses == old(Answer(s)).lanAddresses
      ensures lastQueryResult == Some(old(Answer(s))) && pendingClears == old(pendingClears) + 1
    {
      var r := QueryAddresses(s);
      addresses := r.lanAddresses;
    }

    /** `Helpers.lanAddress`. */
    method LanAddress(s: Snapshot) returns (address: Option<string>)
      requires Valid() && WellFormedSnapshot(s)
      modifies this
      ensures Valid()
      ensures address == First(old(Answer(s)).lanAddresses)
      ensures lastQueryResult == Some(old(Answer(s))) && pendingClears == old(pendingClears) + 1
    {
      var r := QueryAddresses(s);
      address := First(r.lanAddresses);
    }

    /** `Helpers.wanAddresses`. */
    method WanAddresses(s: Snapshot) returns (addresses: seq<string>)
      requires Valid() && WellFormedSnapshot(s)
      modifies this
      ensures Valid()
      ensures addresses == old(Answer(s)).wanAddresses
      ensures lastQueryResult == Some(old(Answer(s))) && pendingClears == old(pendingClears) + 1
    {
      var r := QueryAddresses(s);
      addresses := r.wanAddresses;
    }

    /** `Helpers.wanAddress`. */
    method WanAddress(s: Snapshot) returns (address: Option<string>)
      requires Valid() && WellFormedSnapshot(s)
      modifies this
      ensures Valid()
      ensures address == First(old(Answer(s)).wanAddresses)
      ensures lastQueryResult == Some(old(Answer(s))) && pendingClears == old(pendingClears) + 1
    {
      var r := QueryAddresses(s);
      address := First(r.wanAddresses);
    }
  }

  /** Calls in one turn share one snapshot; after the clearing callbacks run,
      the next call enumerates afresh. With no clear queued, `Valid()` says the
      slot is empty, so the first call enumerates. */
  method QueriesAcrossTurns(cache: AddressCache, s1: Snapshot, s2: Snapshot, s3: Snapshot)
    returns (first: QueryResult, second: QueryResult, later: QueryResult)
    requires cache.Valid() && cache.pendingClears == 0
    requires WellFormedSnapshot(s1) && WellFormedSnapshot(s2) && WellFormedSnapshot(s3)
    modifies cache
    ensures first == Classify(s1) && second == first
    ensures later == Classify(s3)
  {
    first := cache.QueryAddresses(s1);
    second := cache.QueryAddresses(s2);
    cache.Clear();
    cache.Clear();
    later := cache.QueryAddresses(s3);
  }
}
