# ip-helpers, modelled in Dafny

ip-helpers lists a host's IPv4 addresses and splits them into LAN (private)
and WAN (public) addresses. The whole library is `src/index.ts`. It has two
parts, and this project models both.

- **The classifier.** `internalIsLANAddress` splits a dotted quad into
  octets. It calls an address private when the first octet is 10, or the
  first octet is 172 and the high nibble of the second is 1, or the first two
  octets are 192.168. `isLANAddress` and `isWANAddress` apply that test and
  drop any address whose text starts with `169.254.` (APIPA). Such an address
  is therefore neither LAN nor WAN.
- **The query.** `queryAddresses` walks the adapters of
  `os.networkInterfaces()` in key order, and each adapter's entries in order.
  It drops entries that are internal, are not `"IPv4"`, have the all-zero MAC
  or have an APIPA address. Each surviving address goes onto `lanAddresses` or
  `wanAddresses`. The result is kept in the module slot `lastQueryResult`
  until a callback queued with `setImmediate` clears it. The `Helpers`
  getters project the lists and their first elements out of that result.

Files:

- `dotted_quad.dfy` (module `DottedQuad`) covers the text of an address.
  `Split` is JavaScript's `split('.')`, `DecimalValue` is `Number` on a digit
  string worth less than 2^53 (which covers every octet text), and `Octets`
  is the parse the classifier does. `Format` renders four octets as
  canonical text, and `FormatRoundTrip` proves that parsing undoes it.
- `classifier.dfy` (module `Classifier`) holds the three predicates of the
  source. Their reference definitions are address blocks given as ranges of
  32-bit values: the three private blocks of section 3 of RFC 1918 and the
  link-local block 169.254.0.0/16 of RFC 3927.
- `address_query.dfy` (module `AddressQuery`) has the adapter snapshot, the
  nested-loop method `ComputeAddresses` and the specification `Classify` that
  it meets. It also has a reference "filter the flat list, then partition"
  with its properties, and the class `AddressCache`. The class holds the slot
  `lastQueryResult`, the count of queued clearing callbacks, and the
  `Helpers` accessors.
- `query_example.dfy` (module `QueryExample`) is a worked snapshot with
  loopback, LAN, virtual, APIPA and WAN adapters.
- `wrappers.dfy` (module `Wrappers`) defines `Option`, which stands for
  `undefined`.

Modelling choices:

- The result of `os.networkInterfaces()` is a parameter, `Snapshot`. It is a
  sequence of adapters in the order `Object.keys` lists them.
- The host's promise that every `"IPv4"` entry has a well-formed dotted quad
  is the precondition `WellFormedSnapshot`. A well-formed dotted quad is four
  non-empty digit strings, each worth at most 255, joined by dots. Leading
  zeros are allowed, because `Number` accepts them.
- `family` is compared with the string `"IPv4"`, as the source compares it.
- JavaScript's `b1 >> 4` on an octet is floor division by 16 (`ShiftRight4`).
- `setImmediate(() => lastQueryResult = undefined)` becomes two pieces. The
  first is a counter `pendingClears`, which `QueryAddresses` increments on
  every call, hits included. The second is the method `Clear`, which is one
  queued callback running. The invariant `Valid()` says that whenever a
  result is stored, a clear is queued.

Definitions that model the source directly (their bodies are the code; the
lemmas in the table below state what they mean):

- `DottedQuad.Split` (src/index.ts:83): `address.split('.')`, the maximal
  dot-free pieces, empty ones included.
- `DottedQuad.DecimalValue` (src/index.ts:83): `Number(byte)` on a digit
  string, exact where `Number` is (values below 2^53).
- `DottedQuad.Octets` (src/index.ts:83): `split('.').map(Number)` on a
  well-formed address, four octets.
- `Classifier.ShiftRight4` (src/index.ts:86): `b1 >> 4`, floor division by 16.
- `Classifier.InternalIsLanAddress` (src/index.ts:82-88): first octet 10, or
  172 with `b1 >> 4` equal to 1, or first two octets 192.168.
- `Classifier.IsApipa` (src/index.ts:33, 54, 91, 95): `/^169\.254\./` tested
  on the text: the first eight characters are `169.254.`.
- `Classifier.IsLanAddress` (src/index.ts:90-92): the private-range test holds
  and the APIPA test does not.
- `Classifier.IsWanAddress` (src/index.ts:94-96): neither the private-range
  test nor the APIPA test holds.
- `AddressQuery.IsKept` (src/index.ts:50-57): the negation of the `continue`
  condition: not internal, family `"IPv4"`, MAC not all zeros, no APIPA prefix.
- `AddressQuery.LanOfEntries` and `AddressQuery.WanOfEntries`
  (src/index.ts:49-66): the addresses the inner loop pushes onto
  `lanAddresses` and `wanAddresses` for one adapter's entries, in order.
- `AddressQuery.LanOf` and `AddressQuery.WanOf` (src/index.ts:46-67): the same
  for the outer loop over all adapters.
- `AddressQuery.First` (src/index.ts:21, 29): `list[0]`, `None` on the
  empty list.
- `AddressQuery.Classify` (src/index.ts:43-72): the `QueryResult` a fresh
  enumeration builds from those two lists.

## Model

| member | source | states |
|---|---|---|
| `DottedQuad.JoinSplit` | src/index.ts:83 | `Split` is `split('.')`: joining its parts with dots gives back the string |
| `DottedQuad.SplitJoin` | src/index.ts:83 | splitting dot-free parts joined by dots gives back exactly those parts |
| `DottedQuad.SplitAtDot` | src/index.ts:83 | splitting `p + "." + s`, where `p` has no dot, gives `p` followed by the parts of `s` |
| `DottedQuad.DecimalRoundTrip` | src/index.ts:83 | `DecimalValue` of the decimal text of `n` is `n`; below 2^53, so for every octet, `DecimalValue` is `Number` |
| `DottedQuad.FormatRoundTrip` | src/index.ts:83 | the text a.b.c.d of any four octets is well-formed, splits into the four decimal texts, and `split('.').map(Number)` gives back the octets |
| `Classifier.HighNibbleIsOne` | src/index.ts:86 | `(b1 >> 4) === 1` holds exactly when 16 <= b1 <= 31 |
| `Classifier.InternalIsLanByOctets` | src/index.ts:82-88 | `internalIsLANAddress` holds exactly when b0 = 10, or b0 = 172 and 16 <= b1 <= 31, or b0.b1 = 192.168 |
| `Classifier.ToUint32Order` | src/index.ts:82-88 | the 32-bit value of the octets orders addresses lexicographically by octet; this links the octet test to the address ranges |
| `Classifier.InBlockByPrefix` | src/index.ts:82-88 | an address is in the range b0.lo.0.0 to b0.hi.255.255 exactly when its first octet is b0 and its second is between lo and hi |
| `Classifier.InternalIsLanIsRfc1918` | src/index.ts:82-88 | `internalIsLANAddress` holds exactly when the address is inside 10.0.0.0/8, 172.16.0.0/12 or 192.168.0.0/16 (section 3 of RFC 1918) |
| `Classifier.LanWanExclusive` | src/index.ts:90-96 | `isLANAddress` and `isWANAddress` never both hold |
| `Classifier.ApipaIsNeither` | src/index.ts:90-96 | an address whose text starts with `169.254.` is neither LAN nor WAN |
| `Classifier.NonApipaIsLanOrWan` | src/index.ts:90-96 | every other address is exactly one of LAN and WAN |
| `Classifier.ApipaPrefixOctets` | src/index.ts:33 | a well-formed address matching `/^169\.254\./` has first octets 169 and 254 |
| `Classifier.LanIsInternalLan` | src/index.ts:90-92 | on well-formed input, `isLANAddress` equals `internalIsLANAddress`: the APIPA guard never removes a private address |
| `Classifier.LinkLocalTextIsApipa` | src/index.ts:33 | the canonical text of 169.254.c.d matches the APIPA pattern |
| `Classifier.ApipaOfFormat` | src/index.ts:33 | on the canonical text a.b.c.d, the APIPA pattern matches exactly when a.b = 169.254, which is exactly when the address is in 169.254.0.0/16 (RFC 3927) |
| `Classifier.ClassifyFormatted` | src/index.ts:82-96 | a.b.c.d is LAN exactly when it lies in an RFC 1918 block, and WAN exactly when it lies in neither an RFC 1918 block nor the link-local block |
| `Classifier.ClassifyFormattedByOctets` | src/index.ts:82-96 | the same classification, stated on the octets: 10.x, 172.16-31.x and 192.168.x are LAN; 169.254.x is neither; everything else is WAN |
| `AddressQuery.EntryStep` | src/index.ts:49-66 | one entry adds its address to the LAN list if it is kept and private-range, to the WAN list if it is kept and not, and otherwise adds nothing |
| `AddressQuery.AdapterStep` | src/index.ts:46-67 | one adapter appends its entries' contributions after those of the adapters before it |
| `AddressQuery.ComputeAddresses` | src/index.ts:43-67 | the nested loops, with the `continue` filter and the two `push` calls, return `Classify(s)` |
| `AddressQuery.KeptAddresses` | src/index.ts:50-57 | the filter keeps at most as many addresses as there are entries, and on well-formed entries every kept address is a dotted quad |
| `AddressQuery.LanPart` | src/index.ts:61-62 | every address routed to the LAN list passes `internalIsLANAddress` |
| `AddressQuery.WanPart` | src/index.ts:63-64 | every address routed to the WAN list fails `internalIsLANAddress` |
| `AddressQuery.EntriesWellFormed` | src/index.ts:46-49 | the flat enumeration of a well-formed snapshot has only well-formed entries |
| `AddressQuery.KeptAddressesAppend` | src/index.ts:46-57 | filtering the entries of two consecutive adapters is filtering each in turn |
| `AddressQuery.LanPartAppend` | src/index.ts:61-62 | routing to the LAN list distributes over concatenation |
| `AddressQuery.WanPartAppend` | src/index.ts:63-64 | routing to the WAN list distributes over concatenation |
| `AddressQuery.EntriesPartition` | src/index.ts:49-66 | for one adapter, the inner loop's LAN (WAN) list is the private-range (other) part of its kept addresses |
| `AddressQuery.ClassifyIsPartition` | src/index.ts:46-67 | the loops' result equals the reference: keep the entries that pass the four filters, in adapter-then-entry order, then split their addresses by `internalIsLANAddress` |
| `AddressQuery.PartsSplitInput` | src/index.ts:61-65 | the two parts together have the length of the input and hold each input address exactly as often as the input |
| `AddressQuery.LanPartKeepsOrder` | src/index.ts:61-62 | the LAN list is a subsequence of the kept addresses (order preserved) |
| `AddressQuery.WanPartKeepsOrder` | src/index.ts:63-64 | the WAN list is a subsequence of the kept addresses (order preserved) |
| `AddressQuery.SubsequenceSnoc` | src/index.ts:62 | pushing onto the output list while the input advances keeps the output a subsequence |
| `AddressQuery.KeptAddressesProvenance` | src/index.ts:50-57 | every kept address is the address of some entry that is external, IPv4, has a non-zero MAC and has no APIPA prefix |
| `AddressQuery.ClassifyCorrect` | src/index.ts:59-65 | all outputs are dotted quads; every LAN output passes and every WAN output fails the private-range test; the lists hold every kept address once each (lengths and multisets add up) and each keeps enumeration order |
| `AddressQuery.ClassifyProvenance` | src/index.ts:50-57 | every output address comes from a snapshot entry that passed all four filters |
| `AddressQuery.ClassifyAgreesWithPublicPredicates` | src/index.ts:50-65 | every LAN output satisfies `isLANAddress` and every WAN output satisfies `isWANAddress` |
| `AddressQuery.LanPartEmpty` | src/index.ts:61-62 | the LAN list is empty exactly when no kept address is private-range |
| `AddressQuery.FirstLanAddress` | src/index.ts:20-22 | `lanAddress` of a fresh result is absent exactly when no kept address is private-range, and otherwise it satisfies `isLANAddress` |
| `AddressQuery.WanPartEmpty` | src/index.ts:63-64 | the WAN list is empty exactly when every kept address is private-range |
| `AddressQuery.FirstWanAddress` | src/index.ts:28-30 | `wanAddress` of a fresh result is absent exactly when every kept address is private-range, and otherwise it satisfies `isWANAddress` |
| `AddressQuery.AddressCache.constructor` | src/index.ts:35 | the slot starts empty with no clear queued |
| `AddressQuery.AddressCache.QueryAddresses` | src/index.ts:39-80 | on a hit, returns the stored result unchanged; on a miss, returns `Classify(s)` and stores it; in both cases queues one clear and keeps `Valid()` |
| `AddressQuery.AddressCache.Clear` | src/index.ts:75-77 | a queued callback runs: the slot becomes empty and one fewer clear is queued |
| `AddressQuery.AddressCache.LanAddresses` | src/index.ts:16-18 | returns the LAN list of what `queryAddresses` returns now, with the same effect on the cache |
| `AddressQuery.AddressCache.LanAddress` | src/index.ts:20-22 | returns element 0 of that LAN list, or absent when it is empty |
| `AddressQuery.AddressCache.WanAddresses` | src/index.ts:24-26 | returns the WAN list of what `queryAddresses` returns now |
| `AddressQuery.AddressCache.WanAddress` | src/index.ts:28-30 | returns element 0 of that WAN list, or absent when it is empty |
| `AddressQuery.QueriesAcrossTurns` | src/index.ts:42-79 | on any valid cache with no clear queued (so, by `Valid()`, an empty slot), two calls in one turn return the same result even if the snapshot changed; after the queued clears run, the next call classifies the fresh snapshot |
| `QueryExample.ExampleClassification` | src/index.ts:46-67 | for loopback 127.0.0.1, LAN 192.168.1.10, zero-MAC 10.0.0.5, APIPA 169.254.1.2 and WAN 8.8.8.8, the result is LAN `[192.168.1.10]` and WAN `[8.8.8.8]` |

## Left out

- `os.networkInterfaces()` (src/index.ts:8, 40) is a host call. The snapshot
  is a parameter. The model does not capture `Object.keys` ordering (integer-like
  keys first); the snapshot is taken to be listed in enumeration order already.
- The source calls `networkInterfaces()` on every query, hits included, and
  ignores the result on a hit. The model passes the snapshot on every call
  and ignores it on a hit in the same way.
- `setImmediate` and the event loop (src/index.ts:75-77) are not modelled as
  timing. A queued callback is the counter `pendingClears`, and running one
  is `Clear`. `Clear` requires a queued callback, because the event loop only
  runs callbacks that were queued.
- The `module.exports = exports = Helpers` wiring, the static-getter syntax
  and the `export declare let` stubs (src/index.ts:15, 37, 98-101) are
  JavaScript plumbing. Only what the getters compute is modelled.
- Malformed addresses are not modelled. `Number` on non-digit text (NaN,
  hex, exponent or whitespace forms, empty parts), addresses with other than
  four parts, and `>>` on non-integers all stay outside the model. The
  classifier requires a well-formed dotted quad, which the host supplies for
  every IPv4 entry.
- The entry fields `netmask`, `cidr` and `scopeid` are not modelled, because
  the code never reads them.
- `src/index.ts` has no broadcast-address calculator, no `queryInterfaces`
  call and no per-interface records, so the model has none of them.
- Shared, mutable result arrays are not modelled. The source stores one
  object (src/index.ts:69-72) and returns that same object to every caller
  until the clear runs (src/index.ts:79). The `Helpers` getters therefore
  hand out the cached arrays themselves (src/index.ts:16-30), and a caller's
  in-place change, such as `sort()` or `push(x)`, is what later calls in the
  same turn return. In the model `QueryResult` is a value. So
  `AddressCache.QueryAddresses`' "on a hit, returns the stored result" and
  `QueriesAcrossTurns`' `second == first` assume callers never change the
  arrays they were given.
