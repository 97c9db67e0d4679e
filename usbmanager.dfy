/** The USB pass-through manager: device identities, the device-string and
    MTP caches, the desired pass-through list, and the handlers that bring
    the virtual machine's attached devices in line with that list over QMP. */
module Usb {
  import opened Wrappers
  import opened Text
  import opened Json
  import opened Qmp
  import UsbIds
  import opened Lsusb

  /** A 16-bit USB vendor or product id. */
  type Id = n: nat | n < 0x1_0000

  /** A device as the `usb` library enumerates it. */
  datatype Device = Device(vendorId: Id, productId: Id, busNumber: nat, deviceAddress: nat)

  /** An entry of the pass-through list, as the configuration stores it. */
  datatype PtEntry = PtEntry(vendorId: Id, productId: Id, manufacturer: Option<string>, product: Option<string>)

  /** The two kinds of argument `getDeviceVidPidHex` and `isMTPDevice` accept. */
  datatype Target = Live(device: Device) | Listed(entry: PtEntry) {
    function VendorId(): Id {
      match this
      case Live(d) => d.vendorId
      case Listed(e) => e.vendorId
    }
    function ProductId(): Id {
      match this
      case Live(d) => d.productId
      case Listed(e) => e.productId
    }
  }

  // ---------------------------------------------------------------------
  // Identities

  datatype VidPidHex = VidPidHex(vendorIdHex: string, productIdHex: string)

  lemma SixteenToTheFour()
    ensures Pow(16, 4) == 0x1_0000
  {
  }

  /** `getDeviceVidPidHex`: both ids in lower-case hexadecimal, padded to four digits. */
  function VidPidHexOf(t: Target): (h: VidPidHex)
    ensures |h.vendorIdHex| == 4 && |h.productIdHex| == 4
    ensures forall i :: 0 <= i < 4 ==> IsRadixDigit(h.vendorIdHex[i], 16) && IsRadixDigit(h.productIdHex[i], 16)
    ensures FromRadix(h.vendorIdHex, 16) == t.VendorId() && FromRadix(h.productIdHex, 16) == t.ProductId()
  {
    SixteenToTheFour();
    VidPidHex(PaddedDigits(t.VendorId(), 16, 4), PaddedDigits(t.ProductId(), 16, 4))
  }

  /** A live device and a list entry with the same ids get the same pair. */
  lemma SameIdsSameHex(d: Device, e: PtEntry)
    requires d.vendorId == e.vendorId && d.productId == e.productId
    ensures VidPidHexOf(Live(d)) == VidPidHexOf(Listed(e))
  {
  }

  /** The key of both caches: `<vid hex>:<pid hex>`. */
  function CacheKey(h: VidPidHex): string {
    h.vendorIdHex + ":" + h.productIdHex
  }

  /** Distinct id pairs never share a cache key. */
  lemma CacheKeyInjective(a: Target, b: Target)
    requires CacheKey(VidPidHexOf(a)) == CacheKey(VidPidHexOf(b))
    ensures a.VendorId() == b.VendorId() && a.ProductId() == b.ProductId()
  {
    var ha, hb := VidPidHexOf(a), VidPidHexOf(b);
    HexHasNoColon(ha.vendorIdHex);
    HexHasNoColon(hb.vendorIdHex);
    JoinedAtSeparator(ha.vendorIdHex, ha.productIdHex, hb.vendorIdHex, hb.productIdHex, ':');
  }

  lemma HexHasNoColon(s: string)
    requires forall i :: 0 <= i < |s| ==> IsRadixDigit(s[i], 16)
    ensures ':' !in s
  {
  }

  /** The id the device gets inside the virtual machine: `<vid>:<pid>` in
      decimal, unlike the hexadecimal cache key. */
  function VmId(vendorId: Id, productId: Id): string {
    Decimal(vendorId) + ":" + Decimal(productId)
  }

  lemma DigitsHaveNoColon(s: string)
    requires forall i :: 0 <= i < |s| ==> IsDigit(s[i])
    ensures ':' !in s
  {
  }

  /** Distinct id pairs never share a machine-side id. */
  lemma VmIdInjective(v1: Id, p1: Id, v2: Id, p2: Id)
    requires VmId(v1, p1) == VmId(v2, p2)
    ensures v1 == v2 && p1 == p2
  {
    DigitsHaveNoColon(Decimal(v1));
    DigitsHaveNoColon(Decimal(v2));
    JoinedAtSeparator(Decimal(v1), Decimal(p1), Decimal(v2), Decimal(p2), ':');
  }

  /** What `info qtree` prints for a host device attached under that id. */
  function QtreeMarker(vendorId: Id, productId: Id): string {
    "usb-host, id \"" + VmId(vendorId, productId) + "\""
  }

  /** The device node: `/dev/bus/usb/BBB/AAA`, each number padded to three digits. */
  function BusPath(busNumber: nat, deviceAddress: nat): string {
    "/dev/bus/usb/" + PadStart(Decimal(busNumber), 3, '0') + "/" + PadStart(Decimal(deviceAddress), 3, '0')
  }

  /** For bus numbers and addresses below 1000 the node path has a fixed
      shape from which both numbers can be read back. */
  lemma BusPathShape(busNumber: nat, deviceAddress: nat)
    requires busNumber < 1000 && deviceAddress < 1000
    ensures var p := BusPath(busNumber, deviceAddress);
      && |p| == 20 && p[..13] == "/dev/bus/usb/" && p[16] == '/'
      && FromRadix(p[13..16], 10) == busNumber && FromRadix(p[17..], 10) == deviceAddress
  {
    assert Pow(10, 3) == 1000;
    var b := PaddedDigits(busNumber, 10, 3);
    var a := PaddedDigits(deviceAddress, 10, 3);
    assert PadStart(Decimal(busNumber), 3, '0') == b;
    assert PadStart(Decimal(deviceAddress), 3, '0') == a;
    var p := BusPath(busNumber, deviceAddress);
    assert p == "/dev/bus/usb/" + b + "/" + a;
    assert p[13..16] == b;
    assert p[17..] == a;
  }

  // ---------------------------------------------------------------------
  // Labels

  /** A string-or-null in a boolean context: `null` and `""` are falsy. */
  predicate Truthy(s: Option<string>) {
    s.Some? && s.value != ""
  }

  /** `s || null`. */
  function OrNull(s: Option<string>): (r: Option<string>)
    ensures r.Some? <==> Truthy(s)
    ensures r.Some? ==> r == s
  {
    if Truthy(s) then s else None
  }

  /** `s || fallback`. */
  function OrDefault(s: Option<string>, fallback: string): string {
    if Truthy(s) then s.value else fallback
  }

  function Prefix(h: VidPidHex): string {
    "[" + h.vendorIdHex + ":" + h.productIdHex + "] "
  }

  /** `[VID:PID] Vendor | Product`, with a fallback for each missing string. */
  function Label(h: VidPidHex, strings: DeviceStrings): string {
    Prefix(h) + OrDefault(strings.manufacturer, "Unknown Vendor") + " | " + OrDefault(strings.product, "Unknown Product")
  }

  /** A label names its device: two labels that agree are for the same ids. */
  lemma LabelNamesDevice(a: Target, b: Target, sa: DeviceStrings, sb: DeviceStrings)
    requires Label(VidPidHexOf(a), sa) == Label(VidPidHexOf(b), sb)
    ensures a.VendorId() == b.VendorId() && a.ProductId() == b.ProductId()
  {
    LabelShowsKey(VidPidHexOf(a), sa);
    LabelShowsKey(VidPidHexOf(b), sb);
    CacheKeyInjective(a, b);
  }

  /** The cache key sits between the label's opening bracket and its tenth character. */
  lemma LabelShowsKey(h: VidPidHex, strings: DeviceStrings)
    requires |h.vendorIdHex| == 4 && |h.productIdHex| == 4
    ensures |Label(h, strings)| >= 10 && Label(h, strings)[1..10] == CacheKey(h)
  {
    var l := Label(h, strings);
    assert l[..12] == Prefix(h);
    assert Prefix(h)[1..10] == CacheKey(h);
  }

  /** `stringifyPTSerializableDevice`. */
  function EntryLabel(e: PtEntry): string {
    Label(VidPidHexOf(Listed(e)), DeviceStrings(e.manufacturer, e.product))
  }

  /** The entry built from a device and its cached strings is shown with the
      label the device had. */
  lemma EntryKeepsLabel(d: Device, strings: DeviceStrings)
    ensures EntryLabel(EntryOf(d, strings)) == Label(VidPidHexOf(Live(d)), strings)
  {
  }

  function EntryOf(d: Device, strings: DeviceStrings): PtEntry {
    PtEntry(d.vendorId, d.productId, strings.manufacturer, strings.product)
  }

  // ---------------------------------------------------------------------
  // Resolving a device's strings

  /** The database's vendor name for the device, when the vendor is listed. */
  function DbVendor(db: UsbIds.Database, h: VidPidHex): Option<string> {
    if h.vendorIdHex in db then Some(db[h.vendorIdHex].name) else None
  }

  /** The database's product name, when vendor and product are listed. */
  function DbProduct(db: UsbIds.Database, h: VidPidHex): Option<string> {
    if h.vendorIdHex in db && h.productIdHex in db[h.vendorIdHex].devices
    then Some(db[h.vendorIdHex].devices[h.productIdHex]) else None
  }

  /** What a cache miss of `stringifyDevice` settles on. `vendor` is the name
      of the vendor record it ends up with (present even when that name is
      empty), `product` the product name, `lsusbRuns` how often it ran `lsusb`. */
  datatype Lookup = Lookup(vendor: Option<string>, product: Option<string>, lsusbRuns: nat)

  /** The database comes first; `lsusb` (whose output is `listing`, `None`
      when it fails) is consulted once for a missing or empty product name and
      once more for a missing or empty vendor name, and its manufacturer
      replaces the vendor record only when it is non-empty. */
  function Resolve(db: UsbIds.Database, h: VidPidHex, listing: Option<string>): (r: Lookup)
    ensures Truthy(DbProduct(db, h)) ==> r.product == DbProduct(db, h)
    ensures !Truthy(DbProduct(db, h)) ==> r.product == DeviceStringsFromLsusb(listing).product
    ensures Truthy(DbVendor(db, h)) ==> r.vendor == DbVendor(db, h)
    ensures !Truthy(DbVendor(db, h)) && Truthy(DeviceStringsFromLsusb(listing).manufacturer) ==>
              r.vendor == DeviceStringsFromLsusb(listing).manufacturer
    ensures !Truthy(DbVendor(db, h)) && !Truthy(DeviceStringsFromLsusb(listing).manufacturer) ==>
              r.vendor == DbVendor(db, h)
    ensures r.lsusbRuns == (if Truthy(DbProduct(db, h)) then 0 else 1) + (if Truthy(DbVendor(db, h)) then 0 else 1)
  {
    var fromLsusb := DeviceStringsFromLsusb(listing);
    var vendor := DbVendor(db, h);
    var product := DbProduct(db, h);
    var product' := if Truthy(product) then product else fromLsusb.product;
    var vendor' := if Truthy(vendor) || !Truthy(fromLsusb.manufacturer) then vendor else fromLsusb.manufacturer;
    Lookup(vendor', product', (if Truthy(product) then 0 else 1) + (if Truthy(vendor) then 0 else 1))
  }

  /** What the cache keeps: each name, or `null` when it is missing or empty. */
  function Stored(r: Lookup): (s: DeviceStrings)
    ensures Truthy(s.manufacturer) == Truthy(r.vendor) && Truthy(s.product) == Truthy(r.product)
    ensures Truthy(r.vendor) ==> s.manufacturer == r.vendor
    ensures Truthy(r.product) ==> s.product == r.product
  {
    DeviceStrings(OrNull(r.vendor), OrNull(r.product))
  }

  /** The label `stringifyDevice` returns on a cache miss, as written: the
      vendor part is the record's name whenever there is a record, even an
      empty one. */
  function MissLabelAsWritten(h: VidPidHex, r: Lookup): string {
    Prefix(h) + (if r.vendor.Some? then r.vendor.value else "Unknown Vendor") + " | " + OrDefault(r.product, "Unknown Product")
  }

  /** The label of a miss and the label of every later hit (which formats the
      stored strings) disagree exactly when the vendor record has an empty name. */
  lemma MissLabelDiffersIffEmptyVendor(h: VidPidHex, r: Lookup)
    ensures MissLabelAsWritten(h, r) != Label(h, Stored(r)) <==> r.vendor == Some("")
  {
    var tail := " | " + OrDefault(r.product, "Unknown Product");
    var s := Stored(r);
    assert Label(h, s) == Prefix(h) + OrDefault(s.manufacturer, "Unknown Vendor") + tail;
    if r.vendor == Some("") {
      assert MissLabelAsWritten(h, r) == Prefix(h) + "" + tail;
      assert |MissLabelAsWritten(h, r)| < |Label(h, s)|;
    } else {
      assert OrDefault(s.manufacturer, "Unknown Vendor") == (if r.vendor.Some? then r.vendor.value else "Unknown Vendor");
    }
  }

  /** A usb.ids line such as `abcd  ` (an id, then only white space) gives a
      vendor with an empty name; when `lsusb` gives no manufacturer either,
      the first label of such a device shows an empty vendor and every later
      one shows "Unknown Vendor". */
  lemma EmptyVendorLabelChanges(db: UsbIds.Database, h: VidPidHex)
    requires h.vendorIdHex in db && db[h.vendorIdHex].name == ""
    ensures MissLabelAsWritten(h, Resolve(db, h, None)) != Label(h, Stored(Resolve(db, h, None)))
  {
    MissLabelDiffersIffEmptyVendor(h, Resolve(db, h, None));
  }

  // ---------------------------------------------------------------------
  // The pass-through list

  predicate Matches(e: PtEntry, vendorId: Id, productId: Id) {
    e.vendorId == vendorId && e.productId == productId
  }

  predicate HasIds(list: seq<PtEntry>, vendorId: Id, productId: Id) {
    exists k :: 0 <= k < |list| && Matches(list[k], vendorId, productId)
  }

  /** No two entries share a vendor and product id. */
  predicate NoDupIds(list: seq<PtEntry>) {
    forall i, j :: 0 <= i < j < |list| ==> !Matches(list[j], list[i].vendorId, list[i].productId)
  }

  /** The `filter` of `removeDeviceFromPassthroughList`. */
  function WithoutIds(list: seq<PtEntry>, vendorId: Id, productId: Id): (r: seq<PtEntry>)
    ensures |r| <= |list|
    ensures forall e :: e in r <==> e in list && !Matches(e, vendorId, productId)
  {
    if list == [] then []
    else (if Matches(list[0], vendorId, productId) then [] else [list[0]]) + WithoutIds(list[1..], vendorId, productId)
  }

  /** The filter keeps order: it works piecewise over a concatenation. */
  lemma {:induction false} WithoutIdsAppend(a: seq<PtEntry>, b: seq<PtEntry>, vendorId: Id, productId: Id)
    ensures WithoutIds(a + b, vendorId, productId) == WithoutIds(a, vendorId, productId) + WithoutIds(b, vendorId, productId)
  {
    if a == [] {
      assert a + b == b;
    } else {
      assert (a + b)[0] == a[0];
      assert (a + b)[1..] == a[1..] + b;
      WithoutIdsAppend(a[1..], b, vendorId, productId);
    }
  }

  /** Removing ids nobody has changes nothing. */
  lemma {:induction false} WithoutAbsentIds(list: seq<PtEntry>, vendorId: Id, productId: Id)
    requires !HasIds(list, vendorId, productId)
    ensures WithoutIds(list, vendorId, productId) == list
  {
    if list != [] {
      assert !Matches(list[0], vendorId, productId);
      assert !HasIds(list[1..], vendorId, productId) by {
        forall k | 0 <= k < |list| - 1 ensures !Matches(list[1..][k], vendorId, productId) {
          assert list[1..][k] == list[k + 1];
        }
      }
      WithoutAbsentIds(list[1..], vendorId, productId);
    }
  }

  /** After the filter, no entry has the removed ids. */
  lemma WithoutIdsRemoves(list: seq<PtEntry>, vendorId: Id, productId: Id)
    ensures !HasIds(WithoutIds(list, vendorId, productId), vendorId, productId)
  {
    var r := WithoutIds(list, vendorId, productId);
    forall k | 0 <= k < |r| ensures !Matches(r[k], vendorId, productId) {
      assert r[k] in r;
    }
  }

  /** The filter keeps the list free of duplicate ids. */
  lemma {:induction false} WithoutIdsKeepsNoDup(list: seq<PtEntry>, vendorId: Id, productId: Id)
    requires NoDupIds(list)
    ensures NoDupIds(WithoutIds(list, vendorId, productId))
  {
    if list != [] {
      var tail := list[1..];
      assert NoDupIds(tail) by {
        forall i, j | 0 <= i < j < |tail| ensures !Matches(tail[j], tail[i].vendorId, tail[i].productId) {
          assert tail[i] == list[i + 1] && tail[j] == list[j + 1];
        }
      }
      WithoutIdsKeepsNoDup(tail, vendorId, productId);
      var rest := WithoutIds(tail, vendorId, productId);
      if !Matches(list[0], vendorId, productId) {
        var r := [list[0]] + rest;
        forall i, j | 0 <= i < j < |r| ensures !Matches(r[j], r[i].vendorId, r[i].productId) {
          if i == 0 {
            assert r[j] == rest[j - 1] && rest[j - 1] in rest;
            assert r[j] in tail;
            var k :| 0 <= k < |tail| && tail[k] == r[j];
            assert list[k + 1] == r[j];
          } else {
            assert r[i] == rest[i - 1] && r[j] == rest[j - 1];
          }
        }
      }
    }
  }

  /** Appending an entry with new ids keeps the list free of duplicates. */
  lemma AppendKeepsNoDup(list: seq<PtEntry>, e: PtEntry)
    requires NoDupIds(list) && !HasIds(list, e.vendorId, e.productId)
    ensures NoDupIds(list + [e])
  {
    var r := list + [e];
    forall i, j | 0 <= i < j < |r| ensures !Matches(r[j], r[i].vendorId, r[i].productId) {
      if j == |list| {
        assert r[i] == list[i];
        assert !Matches(list[i], e.vendorId, e.productId);
      } else {
        assert r[i] == list[i] && r[j] == list[j];
      }
    }
  }

  predicate HasDevice(devices: seq<Device>, vendorId: Id, productId: Id) {
    exists k :: 0 <= k < |devices| && devices[k].vendorId == vendorId && devices[k].productId == productId
  }

  /** The `find` over the current devices in the guest-online handler: the
      first device with the ids. */
  function FindDevice(devices: seq<Device>, vendorId: Id, productId: Id): (r: Option<Device>)
    ensures r.Some? <==> HasDevice(devices, vendorId, productId)
    ensures r.Some? ==> r.value in devices && r.value.vendorId == vendorId && r.value.productId == productId
  {
    if devices == [] then None
    else if devices[0].vendorId == vendorId && devices[0].productId == productId then Some(devices[0])
    else
      var r := FindDevice(devices[1..], vendorId, productId);
      assert HasDevice(devices, vendorId, productId) ==> HasDevice(devices[1..], vendorId, productId) by {
        if HasDevice(devices, vendorId, productId) {
          var k :| 0 <= k < |devices| && devices[k].vendorId == vendorId && devices[k].productId == productId;
          assert devices[1..][k - 1] == devices[k];
        }
      }
      assert r.Some? ==> HasDevice(devices, vendorId, productId) by {
        if r.Some? {
          var k :| 0 <= k < |devices[1..]| && devices[1..][k].vendorId == vendorId && devices[1..][k].productId == productId;
          assert devices[k + 1] == devices[1..][k];
        }
      }
      r
  }

  // ---------------------------------------------------------------------
  // The virtual machine's answers

  /** What the existence check makes of the reply to `info qtree`: `None`
      when it never settles; otherwise whether `response.return` includes the
      marker (a substring of a string, an element of an array). Every other
      shape, and every rejection, throws inside the `try` and gives `false`. */
  function QtreeVerdict(reply: Reply, marker: string): (r: Option<bool>)
    ensures r.None? <==> reply.Pending?
    ensures r == Some(true) ==> reply.Resolved? && reply.response.JObject? && "return" in reply.response.fields
    ensures reply.Resolved? && reply.response.JObject? && "return" in reply.response.fields
            && reply.response.fields["return"].JString? ==>
              r == Some(Contains(reply.response.fields["return"].s, marker))
  {
    match reply
    case Pending => None
    case Rejected(_) => Some(false)
    case Resolved(j) =>
      if j.JObject? && "return" in j.fields then
        match j.fields["return"]
        case JString(text) => Some(Contains(text, marker))
        case JArray(items) => Some(JString(marker) in items)
        case _ => Some(false)
      else Some(false)
  }

  /** The `info qtree` query. */
  const QtreeQuery: Argument := Props(map["command-line" := Str("info qtree")])

  lemma QtreeQueryFits()
    ensures CallFits(HumanMonitorCommand, Some(QtreeQuery))
  {
    assert QtreeQuery.props.Keys == {"command-line"};
  }

  /** The `device_add` argument: the `usb-host` driver, the decimal id, both
      ids as numbers and the device node. */
  function AddArgument(d: Device): (a: Argument)
    ensures CallFits(DeviceAdd, Some(a))
  {
    var props := map[
      "driver" := Str("usb-host"),
      "id" := Str(VmId(d.vendorId, d.productId)),
      "vendorid" := Num(d.vendorId),
      "productid" := Num(d.productId),
      "hostdevice" := Str(BusPath(d.busNumber, d.deviceAddress))];
    assert props.Keys == {"driver", "id", "vendorid", "productid", "hostdevice"};
    Props(props)
  }

  /** The `device_del` argument. */
  function DelArgument(vendorId: Id, productId: Id): (a: Argument)
    ensures CallFits(DeviceDel, Some(a))
  {
    var props := map["id" := Str(VmId(vendorId, productId))];
    assert props.Keys == {"id"};
    Props(props)
  }

  /** Requests the manager made to the QMP server. A query is recorded once it
      is answered, with the answer. */
  datatype VmRequest =
    | Query(id: string, present: bool)
    | Add(id: string, hostdevice: string)
    | Del(id: string)

  datatype UsbError = NotCached(key: string) | AlreadyListed | LsusbFailed

  /** How an asynchronous operation ends: it finishes, it waits forever on a
      reply that never comes, or it throws. */
  datatype Outcome = Completed | Stalled | Threw(error: UsbError)

  /** The requests an attach makes for one device, and how it ends. Nothing
      is sent when the query gets no answer or there is no connection. A
      device reported present is left alone; a device reported absent gets
      `device_add`, unless the MTP probe before it throws. */
  predicate AddStep(step: seq<VmRequest>, id: string, hostdevice: string, outcome: Outcome) {
    || step == []
    || (step == [Query(id, true)] && outcome == Completed)
    || (step == [Query(id, false)] && outcome.Threw?)
    || (step == [Query(id, false), Add(id, hostdevice)] && !outcome.Threw?)
  }

  /** The requests a detach makes: nothing when the query gets no answer or
      there is no connection; a device reported absent is left alone, and a
      device reported present gets `device_del`. */
  predicate DelStep(step: seq<VmRequest>, id: string, outcome: Outcome) {
    || step == []
    || (step == [Query(id, false)] && outcome == Completed)
    || step == [Query(id, true), Del(id)]
  }

  /** The query that opens a step found the device absent. */
  predicate FoundAbsent(step: seq<VmRequest>, id: string) {
    step != [] && step[0] == Query(id, false)
  }

  /** Every answer of `c0` is still in `c1`, unchanged. */
  predicate KeepsAnswers(c0: map<string, bool>, c1: map<string, bool>) {
    forall k :: k in c0 ==> k in c1 && c1[k] == c0[k]
  }

  /** Every answer `c1` holds beyond `c0` is what the `lsusb` listing for its
      key says. */
  predicate AnswersFromListings(c0: map<string, bool>, c1: map<string, bool>, listings: map<string, string>) {
    forall k :: k in c1 && k !in c0 ==> k in listings && c1[k] == Contains(listings[k], "MTP")
  }

  /** The MTP cache after `isMTPDevice` probes an attached device under
      `key`: a cached answer stays, a missing one is read from the `lsusb`
      listing, and nothing is stored when `lsusb` fails. */
  function ProbedCache(cache: map<string, bool>, key: string, listings: map<string, string>): (c: map<string, bool>)
    ensures KeepsAnswers(cache, c) && AnswersFromListings(cache, c, listings)
    ensures key in c <==> key in cache || key in listings
  {
    if key in cache || key !in listings then cache else cache[key := Contains(listings[key], "MTP")]
  }

  /** What `#QMPAddDevice` does to the MTP cache and the freed nodes for the
      attached device `d`, from `c0` and `f0` to `c1` and `f1`: the probe's
      answer is cached unless `lsusb` failed, and the node of an MTP device
      is freed. */
  predicate Probed(listings: map<string, string>, d: Device, c0: map<string, bool>, c1: map<string, bool>,
                   f0: seq<string>, f1: seq<string>) {
    var key := CacheKey(VidPidHexOf(Live(d)));
    && c1 == ProbedCache(c0, key, listings)
    && f1 == f0 + (if key in c1 && c1[key] then [BusPath(d.busNumber, d.deviceAddress)] else [])
  }

  /** What an attach does to the MTP cache and the freed nodes, from `c0`
      and `f0` to `c1` and `f1`: when it reached `#QMPAddDevice` (`probed`),
      the probe's effect, with the outcome throwing exactly when no answer
      was cached and `lsusb` failed; otherwise nothing. */
  predicate ProbeEffect(listings: map<string, string>, d: Device, probed: bool, o: Outcome,
                        c0: map<string, bool>, c1: map<string, bool>, f0: seq<string>, f1: seq<string>) {
    var key := CacheKey(VidPidHexOf(Live(d)));
    if probed then Probed(listings, d, c0, c1, f0, f1) && (o.Threw? <==> key !in c0 && key !in listings)
    else c1 == c0 && f1 == f0
  }

  /** The device nodes of attached devices that `cache` calls MTP devices. */
  function MtpNodes(ds: seq<Device>, cache: map<string, bool>): set<string> {
    set d | d in ds && CacheKey(VidPidHexOf(Live(d))) in cache && cache[CacheKey(VidPidHexOf(Live(d)))]
      :: BusPath(d.busNumber, d.deviceAddress)
  }

  /** Each `device_add` in `rs` for an attached device came with its MTP
      answer cached, and with its node in `freedNow` when it is an MTP
      device. */
  predicate AddsFreedMtpNodes(rs: seq<VmRequest>, ds: seq<Device>, cache: map<string, bool>, freedNow: seq<string>) {
    forall d :: d in ds && Add(VmId(d.vendorId, d.productId), BusPath(d.busNumber, d.deviceAddress)) in rs ==>
      && CacheKey(VidPidHexOf(Live(d))) in cache
      && (cache[CacheKey(VidPidHexOf(Live(d)))] ==> BusPath(d.busNumber, d.deviceAddress) in freedNow)
  }

  /** What a run of attaches did to the MTP cache and the freed nodes, from
      `c0` and `f0` to `c1` and `f1`, while it sent `rs`: old answers are
      kept, new ones come from `lsusb`, only nodes of MTP devices are freed,
      and every `device_add` for an MTP device has its node freed. */
  predicate MtpHistory(ds: seq<Device>, listings: map<string, string>, c0: map<string, bool>, c1: map<string, bool>,
                       f0: seq<string>, f1: seq<string>, rs: seq<VmRequest>) {
    && KeepsAnswers(c0, c1) && AnswersFromListings(c0, c1, listings)
    && f0 <= f1 && (forall p :: p in f1[|f0|..] ==> p in MtpNodes(ds, c1))
    && AddsFreedMtpNodes(rs, ds, c1, f1[|f0|..])
  }

  /** With a connection whose socket is `closed` and has `inbound` queued,
      a run of requests is empty exactly when the `info qtree` reply never
      settles, and otherwise starts with the query and the verdict on it. */
  predicate Answered(step: seq<VmRequest>, closed: bool, inbound: seq<Chunk>, vendorId: Id, productId: Id) {
    var v := QtreeVerdict(ReplyFor(closed, inbound), QtreeMarker(vendorId, productId));
    && (step == [] <==> v.None?)
    && (v.Some? ==> step[0] == Query(VmId(vendorId, productId), v.value))
  }

  /** Every query that found a device absent is followed at once by
      `device_add` for it. */
  predicate AbsentThenAdded(rs: seq<VmRequest>) {
    forall k :: 0 <= k < |rs| && rs[k].Query? && !rs[k].present ==>
      k + 1 < |rs| && rs[k + 1].Add? && rs[k + 1].id == rs[k].id
  }

  /** Every query that found a device present is followed at once by
      `device_del` for it. */
  predicate PresentThenRemoved(rs: seq<VmRequest>) {
    forall k :: 0 <= k < |rs| && rs[k].Query? && rs[k].present ==>
      k + 1 < |rs| && rs[k + 1] == Del(rs[k].id)
  }

  /** The ids queried in a run of requests. */
  function QueriedIds(rs: seq<VmRequest>): set<string> {
    set r | r in rs && r.Query? :: r.id
  }

  /** Every entry of `list` has its id queried in `rs`. */
  predicate AllQueried(list: seq<PtEntry>, rs: seq<VmRequest>) {
    forall j :: 0 <= j < |list| ==> VmId(list[j].vendorId, list[j].productId) in QueriedIds(rs)
  }

  /** The requests of the guest-online handler: each about one of `ids`, none
      a removal, and each `device_add` right after a query that found the
      device absent. */
  predicate OnlineLog(rs: seq<VmRequest>, ids: set<string>) {
    && (forall k :: 0 <= k < |rs| ==> rs[k].id in ids && !rs[k].Del?)
    && (rs != [] ==> !rs[0].Add?)
    && (forall k :: 1 <= k < |rs| && rs[k].Add? ==> rs[k - 1] == Query(rs[k].id, false))
  }

  /** One more entry's requests keep the guest-online log well formed, and
      the entry's id is queried unless nothing was sent. */
  lemma OnlineLogExtends(rs: seq<VmRequest>, step: seq<VmRequest>, id: string, hostdevice: string, ids: set<string>, o: Outcome)
    requires OnlineLog(rs, ids) && id in ids && AddStep(step, id, hostdevice, o)
    ensures OnlineLog(rs + step, ids)
    ensures QueriedIds(rs) <= QueriedIds(rs + step)
    ensures step != [] ==> id in QueriedIds(rs + step)
  {
    var t := rs + step;
    forall k | 0 <= k < |t| ensures t[k].id in ids && !t[k].Del? {
      if k < |rs| {
        assert t[k] == rs[k];
      } else {
        assert t[k] == step[k - |rs|];
      }
    }
    if rs == [] && step != [] {
      assert t[0] == step[0];
    }
    forall k | 1 <= k < |t| && t[k].Add? ensures t[k - 1] == Query(t[k].id, false) {
      if k < |rs| {
        assert t[k] == rs[k] && t[k - 1] == rs[k - 1];
      } else if k > |rs| {
        assert t[k] == step[1] && t[k - 1] == step[0];
      }
    }
    if step != [] {
      assert t[|rs|] == step[0] && step[0] in t;
    }
  }

  /** An attach that did not throw leaves no absent device without its
      `device_add`. */
  lemma AbsentThenAddedExtends(rs: seq<VmRequest>, step: seq<VmRequest>, id: string, hostdevice: string, o: Outcome)
    requires AbsentThenAdded(rs) && AddStep(step, id, hostdevice, o) && !o.Threw?
    ensures AbsentThenAdded(rs + step)
  {
    var t := rs + step;
    forall k | 0 <= k < |t| && t[k].Query? && !t[k].present
      ensures k + 1 < |t| && t[k + 1].Add? && t[k + 1].id == t[k].id
    {
      if k < |rs| {
        assert t[k] == rs[k];
        assert t[k + 1] == rs[k + 1];
      } else {
        assert t[k] == step[k - |rs|];
        assert t[k + 1] == step[1];
      }
    }
  }

  /** A detach leaves no present device without its `device_del`. */
  lemma PresentThenRemovedExtends(rs: seq<VmRequest>, step: seq<VmRequest>, id: string, o: Outcome)
    requires PresentThenRemoved(rs) && DelStep(step, id, o)
    ensures PresentThenRemoved(rs + step)
  {
    var t := rs + step;
    forall k | 0 <= k < |t| && t[k].Query? && t[k].present
      ensures k + 1 < |t| && t[k + 1] == Del(t[k].id)
    {
      if k < |rs| {
        assert t[k] == rs[k];
        assert t[k + 1] == rs[k + 1];
      } else {
        assert t[k] == step[k - |rs|];
        assert t[k + 1] == step[1];
      }
    }
  }

  /** Every request of the run is about one of `ids`. */
  predicate AllAbout(rs: seq<VmRequest>, ids: set<string>) {
    forall k :: 0 <= k < |rs| ==> rs[k].id in ids
  }

  /** The machine-side ids of a set of entries. */
  function VmIds(list: seq<PtEntry>): set<string> {
    set e | e in list :: VmId(e.vendorId, e.productId)
  }

  // ---------------------------------------------------------------------
  // The manager

  class UsbManager {
    /** The attached devices, as `getDeviceList` last returned them. */
    var devices: seq<Device>
    /** `ptDevices`, the list the interface shows. */
    var ptDevices: seq<PtEntry>
    /** `passedThroughDevices` of the saved configuration. */
    var config: seq<PtEntry>
    /** The parsed usb.ids database. */
    const database: UsbIds.Database
    var stringCache: map<string, DeviceStrings>
    var mtpCache: map<string, bool>
    /** Whether the guest is online. */
    var online: bool
    /** The QMP connection, when there is one. */
    const qmp: QmpSession?
    /** What `lsusb -v -d <vid>:<pid>` prints on this host, by cache key; a
        missing key makes the command fail. */
    const listings: map<string, string>
    /** How many times `lsusb` has run. */
    var lsusbRuns: nat
    /** Device nodes handed to `freeMTPDevice`. */
    var freed: seq<string>
    /** Requests made to the QMP server. */
    var requests: seq<VmRequest>

    /** The list shown and the saved list are always the same list. */
    predicate Valid()
      reads this
    {
      ptDevices == config
    }

    function Listing(key: string): Option<string>
      reads this
    {
      if key in listings then Some(listings[key]) else None
    }

    /** `Probed` from the MTP cache `cache0` and the freed nodes `freed0` to
        the current ones. */
    predicate MtpProbed(d: Device, cache0: map<string, bool>, freed0: seq<string>)
      reads this
    {
      Probed(listings, d, cache0, mtpCache, freed0, freed)
    }

    /** `isPTDeviceConnected`. */
    predicate Connected(e: PtEntry)
      reads this
    {
      HasDevice(devices, e.vendorId, e.productId)
    }

    /** The constructor: read the database, take the current devices, cache
        the strings of each one, and take the saved list. */
    constructor (content: string, live: seq<Device>, saved: seq<PtEntry>,
                 listings: map<string, string>, online: bool, qmp: QmpSession?)
      ensures Valid()
      ensures database == UsbIds.ParseLines(SplitOn(content, '\n')).vendors
      ensures devices == live && config == saved
      ensures forall d :: d in live ==> CacheKey(VidPidHexOf(Live(d))) in stringCache
      ensures mtpCache == map[] && requests == [] && freed == []
      ensures this.listings == listings && this.online == online && this.qmp == qmp
    {
      var db := UsbIds.ReadDatabase(content);
      database := db;
      devices := live;
      ptDevices := [];
      config := [];
      stringCache := map[];
      mtpCache := map[];
      this.online := online;
      this.qmp := qmp;
      this.listings := listings;
      lsusbRuns := 0;
      freed := [];
      requests := [];
      new;
      PrecacheDevices();
      ptDevices := saved;
      config := saved;
    }

    /** Label every current device once, so that its strings are cached. */
    method PrecacheDevices()
      modifies this
      ensures forall d :: d in devices ==> CacheKey(VidPidHexOf(Live(d))) in stringCache
      ensures devices == old(devices) && ptDevices == old(ptDevices) && config == old(config)
      ensures mtpCache == old(mtpCache) && online == old(online)
      ensures freed == old(freed) && requests == old(requests)
    {
      var i := 0;
      while i < |devices|
        invariant 0 <= i <= |devices|
        invariant devices == old(devices) && ptDevices == old(ptDevices) && config == old(config)
        invariant mtpCache == old(mtpCache) && online == old(online)
        invariant freed == old(freed) && requests == old(requests)
        invariant forall j :: 0 <= j < i ==> CacheKey(VidPidHexOf(Live(devices[j]))) in stringCache
      {
        var _ := StringifyDevice(devices[i]);
        i := i + 1;
      }
    }

    /** `stringifyDevice`, with the label taken from the stored strings on a
        miss as on a hit. A hit looks nothing up; a miss resolves the strings
        and stores them. Either way the key is cached afterwards and the label
        is the one every later call returns. */
    method StringifyDevice(d: Device) returns (shown: string)
      modifies this
      ensures old(stringCache).Keys <= stringCache.Keys
      ensures CacheKey(VidPidHexOf(Live(d))) in stringCache
      ensures shown == Label(VidPidHexOf(Live(d)), stringCache[CacheKey(VidPidHexOf(Live(d)))])
      ensures CacheKey(VidPidHexOf(Live(d))) in old(stringCache) ==>
        stringCache == old(stringCache) && lsusbRuns == old(lsusbRuns)
      ensures var h := VidPidHexOf(Live(d)); var key := CacheKey(h);
        key !in old(stringCache) ==>
          var r := Resolve(database, h, Listing(key));
          stringCache == old(stringCache)[key := Stored(r)] && lsusbRuns == old(lsusbRuns) + r.lsusbRuns
      ensures devices == old(devices) && ptDevices == old(ptDevices) && config == old(config)
      ensures mtpCache == old(mtpCache) && online == old(online)
      ensures freed == old(freed) && requests == old(requests)
    {
      var h := VidPidHexOf(Live(d));
      var key := CacheKey(h);
      if key in stringCache {
        shown := Label(h, stringCache[key]);
        return;
      }
      var r := Resolve(database, h, Listing(key));
      lsusbRuns := lsusbRuns + r.lsusbRuns;
      stringCache := stringCache[key := Stored(r)];
      shown := Label(h, Stored(r));
    }

    /** `#convertDeviceToPTSerializable`: fails unless the device's strings are cached. */
    function ToEntry(d: Device): (r: Result<PtEntry, UsbError>)
      reads this
      ensures var key := CacheKey(VidPidHexOf(Live(d)));
        && (r.Success? <==> key in stringCache)
        && (r.Success? ==> r.value.vendorId == d.vendorId && r.value.productId == d.productId
                           && EntryLabel(r.value) == Label(VidPidHexOf(Live(d)), stringCache[key]))
        && (r.Failure? ==> r.error == NotCached(key))
    {
      var key := CacheKey(VidPidHexOf(Live(d)));
      if key in stringCache then
        EntryKeepsLabel(d, stringCache[key]);
        Success(EntryOf(d, stringCache[key]))
      else Failure(NotCached(key))
    }

    /** `isDeviceInPassthroughList`: fails like the conversion it starts with. */
    function InPassthroughList(d: Device): (r: Result<bool, UsbError>)
      reads this
      ensures r.Success? <==> CacheKey(VidPidHexOf(Live(d))) in stringCache
      ensures r.Success? ==> (r.value <==> HasIds(config, d.vendorId, d.productId))
    {
      match ToEntry(d)
      case Failure(e) => Failure(e)
      case Success(e) => Success(HasIds(config, e.vendorId, e.productId))
    }

    /** `isMTPDevice`: a cached answer is returned as it is; a list entry for a
        device that is not attached is not an MTP device and is not cached;
        otherwise the verbose `lsusb` listing is probed for "MTP" (a failing
        `lsusb` throws) and the answer is cached. */
    method IsMtpDevice(t: Target) returns (r: Result<bool, UsbError>)
      modifies this
      ensures var key := CacheKey(VidPidHexOf(t));
        && (key in old(mtpCache) ==>
              r == Success(old(mtpCache)[key]) && mtpCache == old(mtpCache) && lsusbRuns == old(lsusbRuns))
        && (key !in old(mtpCache) && t.Listed? && !Connected(t.entry) ==>
              r == Success(false) && mtpCache == old(mtpCache) && lsusbRuns == old(lsusbRuns))
        && (key !in old(mtpCache) && (t.Live? || Connected(t.entry)) ==>
              && lsusbRuns == old(lsusbRuns) + 1
              && (Listing(key).None? ==> r == Failure(LsusbFailed) && mtpCache == old(mtpCache))
              && (Listing(key).Some? ==>
                    r == Success(Contains(Listing(key).value, "MTP")) && mtpCache == old(mtpCache)[key := r.value]))
      ensures devices == old(devices) && ptDevices == old(ptDevices) && config == old(config)
      ensures stringCache == old(stringCache) && online == old(online)
      ensures freed == old(freed) && requests == old(requests)
    {
      var key := CacheKey(VidPidHexOf(t));
      if key in mtpCache {
        return Success(mtpCache[key]);
      }
      if t.Listed? && !Connected(t.entry) {
        return Success(false);
      }
      lsusbRuns := lsusbRuns + 1;
      if key !in listings {
        return Failure(LsusbFailed);
      }
      var isMtp := Contains(listings[key], "MTP");
      mtpCache := mtpCache[key := isMtp];
      r := Success(isMtp);
    }

    /** `#QMPCheckIfDeviceExists`: `None` when the reply never comes. Without
        a QMP connection the call throws inside the `try`, giving `false`. */
    method CheckIfDeviceExists(vendorId: Id, productId: Id) returns (verdict: Option<bool>)
      modifies this, qmp
      ensures qmp == null ==> verdict == Some(false) && requests == old(requests)
      ensures qmp != null ==>
        && verdict == QtreeVerdict(ReplyFor(old(qmp.closed), old(qmp.inbound)), QtreeMarker(vendorId, productId))
        && requests == old(requests) + (if verdict.Some? then [Query(VmId(vendorId, productId), verdict.value)] else [])
      ensures devices == old(devices) && ptDevices == old(ptDevices) && config == old(config)
      ensures stringCache == old(stringCache) && mtpCache == old(mtpCache) && online == old(online)
      ensures freed == old(freed) && lsusbRuns == old(lsusbRuns)
    {
      if qmp == null {
        return Some(false);
      }
      QtreeQueryFits();
      var reply := qmp.ExecuteCommand(HumanMonitorCommand, Some(QtreeQuery));
      verdict := QtreeVerdict(reply, QtreeMarker(vendorId, productId));
      if verdict.Some? {
        requests := requests + [Query(VmId(vendorId, productId), verdict.value)];
      }
    }

    /** `#QMPAddDevice`: free the device node of an MTP device, then send
        `device_add`. The MTP probe sits outside the `try`, so its failure
        escapes; the reply is not looked at. */
    method AddDevice(d: Device) returns (outcome: Outcome)
      modifies this, qmp
      ensures var key := CacheKey(VidPidHexOf(Live(d)));
        outcome.Threw? <==> key !in old(mtpCache) && Listing(key).None?
      ensures outcome.Threw? ==> outcome.error == LsusbFailed && requests == old(requests) && freed == old(freed)
      ensures !outcome.Threw? ==> CacheKey(VidPidHexOf(Live(d))) in mtpCache
      ensures !outcome.Threw? ==>
        freed == old(freed) + if mtpCache[CacheKey(VidPidHexOf(Live(d)))] then [BusPath(d.busNumber, d.deviceAddress)] else []
      ensures !outcome.Threw? ==>
        requests == old(requests) + if qmp == null then [] else [Add(VmId(d.vendorId, d.productId), BusPath(d.busNumber, d.deviceAddress))]
      ensures outcome == Stalled <==> !outcome.Threw? && qmp != null && !old(qmp.closed) && old(qmp.inbound) == []
      ensures MtpProbed(d, old(mtpCache), old(freed))
      ensures lsusbRuns == old(lsusbRuns) + if CacheKey(VidPidHexOf(Live(d))) in old(mtpCache) then 0 else 1
      ensures devices == old(devices) && ptDevices == old(ptDevices) && config == old(config)
      ensures stringCache == old(stringCache) && online == old(online)
    {
      var isMtp := IsMtpDevice(Live(d));
      if isMtp.Failure? {
        return Threw(isMtp.error);
      }
      var path := BusPath(d.busNumber, d.deviceAddress);
      if isMtp.value {
        freed := freed + [path];
      }
      outcome := RequestAdd(d);
    }

    /** The `device_add` request itself, sent when there is a connection. */
    method RequestAdd(d: Device) returns (outcome: Outcome)
      modifies this, qmp
      ensures requests == old(requests) +
        (if qmp == null then [] else [Add(VmId(d.vendorId, d.productId), BusPath(d.busNumber, d.deviceAddress))])
      ensures outcome == (if qmp != null && !old(qmp.closed) && old(qmp.inbound) == [] then Stalled else Completed)
      ensures devices == old(devices) && ptDevices == old(ptDevices) && config == old(config)
      ensures stringCache == old(stringCache) && mtpCache == old(mtpCache) && online == old(online)
      ensures freed == old(freed) && lsusbRuns == old(lsusbRuns)
    {
      if qmp == null {
        return Completed;
      }
      var reply := qmp.ExecuteCommand(DeviceAdd, Some(AddArgument(d)));
      requests := requests + [Add(VmId(d.vendorId, d.productId), BusPath(d.busNumber, d.deviceAddress))];
      outcome := if reply.Pending? then Stalled else Completed;
    }

    /** `#QMPRemoveDevice`: send `device_del`; the reply is not looked at. */
    method RemoveDevice(vendorId: Id, productId: Id) returns (outcome: Outcome)
      modifies this, qmp
      ensures requests == old(requests) + (if qmp == null then [] else [Del(VmId(vendorId, productId))])
      ensures outcome == Stalled <==> qmp != null && !old(qmp.closed) && old(qmp.inbound) == []
      ensures !outcome.Threw?
      ensures devices == old(devices) && ptDevices == old(ptDevices) && config == old(config)
      ensures stringCache == old(stringCache) && mtpCache == old(mtpCache) && online == old(online)
      ensures freed == old(freed) && lsusbRuns == old(lsusbRuns)
    {
      if qmp == null {
        return Completed;
      }
      var reply := qmp.ExecuteCommand(DeviceDel, Some(DelArgument(vendorId, productId)));
      requests := requests + [Del(VmId(vendorId, productId))];
      outcome := if reply.Pending? then Stalled else Completed;
    }

    /** What follows the online test in the attach handler, in
        `addDeviceToPassthroughList` and in the guest-online handler: ask the
        guest whether it has the device, and attach it when it does not. */
    method AttachIfAbsent(d: Device) returns (outcome: Outcome, ghost probed: bool, ghost step: seq<VmRequest>)
      modifies this, qmp
      ensures requests == old(requests) + step
      ensures AddStep(step, VmId(d.vendorId, d.productId), BusPath(d.busNumber, d.deviceAddress), outcome)
      ensures qmp == null ==> step == []
      ensures qmp != null ==> Answered(step, old(qmp.closed), old(qmp.inbound), d.vendorId, d.productId)
      ensures qmp != null && outcome == Completed ==> step != []
      ensures outcome.Threw? ==> outcome.error == LsusbFailed
      ensures probed <==> qmp == null || FoundAbsent(step, VmId(d.vendorId, d.productId))
      ensures ProbeEffect(listings, d, probed, outcome, old(mtpCache), mtpCache, old(freed), freed)
      ensures lsusbRuns == old(lsusbRuns) + if probed && CacheKey(VidPidHexOf(Live(d))) !in old(mtpCache) then 1 else 0
      ensures devices == old(devices) && ptDevices == old(ptDevices) && config == old(config)
      ensures stringCache == old(stringCache) && online == old(online)
    {
      ghost var r0 := requests;
      var present := CheckIfDeviceExists(d.vendorId, d.productId);
      if present.None? {
        return Stalled, false, [];
      }
      ghost var id := VmId(d.vendorId, d.productId);
      outcome, probed := Completed, !present.value;
      step := if qmp == null then [] else [Query(id, present.value)];
      if !present.value {
        outcome := AddDevice(d);
        if !outcome.Threw? && qmp != null {
          step := step + [Add(id, BusPath(d.busNumber, d.deviceAddress))];
        }
      }
    }

    /** What follows the online test in the detach handler and in
        `removeDeviceFromPassthroughList`: ask the guest whether it has the
        device, and detach it when it does. */
    method DetachIfPresent(vendorId: Id, productId: Id) returns (outcome: Outcome)
      modifies this, qmp
      ensures old(requests) <= requests
      ensures DelStep(requests[|old(requests)|..], VmId(vendorId, productId), outcome)
      ensures qmp == null ==> requests == old(requests)
      ensures qmp != null ==> Answered(requests[|old(requests)|..], old(qmp.closed), old(qmp.inbound), vendorId, productId)
      ensures qmp != null && outcome == Completed ==> requests != old(requests)
      ensures !outcome.Threw?
      ensures devices == old(devices) && ptDevices == old(ptDevices) && config == old(config)
      ensures stringCache == old(stringCache) && mtpCache == old(mtpCache) && online == old(online)
      ensures freed == old(freed) && lsusbRuns == old(lsusbRuns)
    {
      var present := CheckIfDeviceExists(vendorId, productId);
      if present.None? {
        return Stalled;
      }
      outcome := Completed;
      if present.value {
        outcome := RemoveDevice(vendorId, productId);
      }
    }

    /** `addDeviceToPassthroughList`: refuse an uncached device and a device
        already listed; otherwise append its entry and, when the guest is
        online, attach the device unless the guest has it. */
    method AddToPassthroughList(d: Device) returns (outcome: Outcome)
      requires Valid()
      modifies this, qmp
      ensures Valid()
      ensures var key := CacheKey(VidPidHexOf(Live(d)));
        key !in old(stringCache) ==> outcome == Threw(NotCached(key)) && config == old(config) && requests == old(requests)
      ensures var key := CacheKey(VidPidHexOf(Live(d)));
        key in old(stringCache) && HasIds(old(config), d.vendorId, d.productId) ==>
          outcome == Threw(AlreadyListed) && config == old(config) && requests == old(requests)
      ensures var key := CacheKey(VidPidHexOf(Live(d)));
        key in old(stringCache) && !HasIds(old(config), d.vendorId, d.productId) ==>
          config == old(config) + [EntryOf(d, old(stringCache)[key])]
      ensures NoDupIds(old(config)) ==> NoDupIds(config)
      ensures !online ==> requests == old(requests)
      ensures old(requests) <= requests
      ensures AddStep(requests[|old(requests)|..], VmId(d.vendorId, d.productId), BusPath(d.busNumber, d.deviceAddress), outcome)
      ensures var key := CacheKey(VidPidHexOf(Live(d)));
        key in old(stringCache) && !HasIds(old(config), d.vendorId, d.productId) && online && qmp != null ==>
          Answered(requests[|old(requests)|..], old(qmp.closed), old(qmp.inbound), d.vendorId, d.productId)
      ensures var key := CacheKey(VidPidHexOf(Live(d)));
        if && key in old(stringCache) && !HasIds(old(config), d.vendorId, d.productId) && online
           && (qmp == null || FoundAbsent(requests[|old(requests)|..], VmId(d.vendorId, d.productId)))
        then MtpProbed(d, old(mtpCache), old(freed)) && lsusbRuns == old(lsusbRuns) + (if key in old(mtpCache) then 0 else 1)
        else mtpCache == old(mtpCache) && freed == old(freed) && lsusbRuns == old(lsusbRuns)
      ensures devices == old(devices) && stringCache == old(stringCache) && online == old(online)
    {
      var entry := ToEntry(d);
      if entry.Failure? {
        return Threw(entry.error);
      }
      if HasIds(config, d.vendorId, d.productId) {
        return Threw(AlreadyListed);
      }
      AppendEntry(entry.value);
      outcome := Completed;
      if online {
        ghost var probed, step; outcome, probed, step := AttachIfAbsent(d);
      }
    }

    /** Append an entry to the list, keeping it free of duplicate ids when
        the entry's ids are new. */
    method AppendEntry(e: PtEntry)
      requires Valid()
      modifies this
      ensures Valid() && config == old(config) + [e]
      ensures NoDupIds(old(config)) && !HasIds(old(config), e.vendorId, e.productId) ==> NoDupIds(config)
      ensures devices == old(devices) && stringCache == old(stringCache) && online == old(online)
      ensures mtpCache == old(mtpCache) && freed == old(freed) && lsusbRuns == old(lsusbRuns) && requests == old(requests)
    {
      if NoDupIds(config) && !HasIds(config, e.vendorId, e.productId) {
        AppendKeepsNoDup(config, e);
      }
      config := config + [e];
      ptDevices := config;
    }

    /** `removeDeviceFromPassthroughList`: drop every entry with the ids,
        keeping the others in order; when the guest is online, detach the
        device if the guest has it. */
    method RemoveFromPassthroughList(e: PtEntry) returns (outcome: Outcome)
      requires Valid()
      modifies this, qmp
      ensures Valid()
      ensures config == WithoutIds(old(config), e.vendorId, e.productId)
      ensures !outcome.Threw?
      ensures !online ==> requests == old(requests) && outcome == Completed
      ensures old(requests) <= requests
      ensures DelStep(requests[|old(requests)|..], VmId(e.vendorId, e.productId), outcome)
      ensures online && qmp != null ==>
        Answered(requests[|old(requests)|..], old(qmp.closed), old(qmp.inbound), e.vendorId, e.productId)
      ensures online && qmp != null && outcome == Completed ==> requests != old(requests)
      ensures devices == old(devices) && stringCache == old(stringCache) && online == old(online)
      ensures mtpCache == old(mtpCache) && freed == old(freed) && lsusbRuns == old(lsusbRuns)
    {
      config := WithoutIds(config, e.vendorId, e.productId);
      ptDevices := config;
      outcome := Completed;
      if online {
        outcome := DetachIfPresent(e.vendorId, e.productId);
      }
    }

    /** `removeAllPassthroughDevicesAndConfig`: remove each entry of the list
        as it was at the start, then empty the list. A removal that waits
        forever holds up the rest. */
    method RemoveAllPassthroughDevices() returns (outcome: Outcome)
      requires Valid()
      modifies this, qmp
      ensures Valid()
      ensures outcome == Completed || outcome == Stalled
      ensures outcome == Completed ==> config == [] && ptDevices == []
      ensures old(requests) <= requests && AllAbout(requests[|old(requests)|..], VmIds(old(config)))
      ensures PresentThenRemoved(requests[|old(requests)|..])
      ensures online && qmp != null && outcome == Completed ==> AllQueried(old(config), requests[|old(requests)|..])
      ensures !online ==> outcome == Completed && requests == old(requests)
      ensures devices == old(devices) && stringCache == old(stringCache) && online == old(online)
      ensures mtpCache == old(mtpCache) && freed == old(freed) && lsusbRuns == old(lsusbRuns)
    {
      var list := ptDevices;
      var i := 0;
      while i < |list|
        invariant 0 <= i <= |list| && Valid()
        invariant list == old(config)
        invariant old(requests) <= requests && AllAbout(requests[|old(requests)|..], VmIds(list))
        invariant PresentThenRemoved(requests[|old(requests)|..])
        invariant online && qmp != null ==> AllQueried(list[..i], requests[|old(requests)|..])
        invariant !online ==> requests == old(requests)
        invariant devices == old(devices) && stringCache == old(stringCache) && online == old(online)
        invariant mtpCache == old(mtpCache) && freed == old(freed) && lsusbRuns == old(lsusbRuns)
      {
        ghost var before := requests;
        var o := RemoveFromPassthroughList(list[i]);
        DelStepAbout(old(requests), before, requests, list, i, o);
        if o == Stalled {
          return Stalled;
        }
        i := i + 1;
      }
      assert list[..i] == list;
      config := [];
      ptDevices := [];
      outcome := Completed;
    }

    /** The attach handler: refresh the device list, cache the device's
        strings, and when the guest is online and the device is listed,
        attach it unless the guest has it. (A second label of the device is
        only logged; it is a cache hit and changes nothing.) */
    method OnAttach(d: Device, live: seq<Device>) returns (outcome: Outcome)
      modifies this, qmp
      ensures devices == live
      ensures CacheKey(VidPidHexOf(Live(d))) in stringCache
      ensures !(old(online) && HasIds(old(config), d.vendorId, d.productId)) ==>
        requests == old(requests) && outcome == Completed
      ensures old(requests) <= requests
      ensures AddStep(requests[|old(requests)|..], VmId(d.vendorId, d.productId), BusPath(d.busNumber, d.deviceAddress), outcome)
      ensures old(online) && HasIds(old(config), d.vendorId, d.productId) && qmp != null ==>
        Answered(requests[|old(requests)|..], old(qmp.closed), old(qmp.inbound), d.vendorId, d.productId)
      ensures outcome.Threw? ==> outcome.error == LsusbFailed
      ensures if && old(online) && HasIds(old(config), d.vendorId, d.productId)
                 && (qmp == null || FoundAbsent(requests[|old(requests)|..], VmId(d.vendorId, d.productId)))
        then MtpProbed(d, old(mtpCache), old(freed))
        else mtpCache == old(mtpCache) && freed == old(freed)
      ensures var h := VidPidHexOf(Live(d)); var key := CacheKey(h);
        lsusbRuns == old(lsusbRuns) + (if key in old(stringCache) then 0 else Resolve(database, h, Listing(key)).lsusbRuns)
          + (if && old(online) && HasIds(old(config), d.vendorId, d.productId) && key !in old(mtpCache)
                && (qmp == null || FoundAbsent(requests[|old(requests)|..], VmId(d.vendorId, d.productId)))
             then 1 else 0)
      ensures config == old(config) && ptDevices == old(ptDevices) && online == old(online)
    {
      devices := live;
      var _ := StringifyDevice(d);
      outcome := Completed;
      if online {
        var listed := InPassthroughList(d);
        if listed.value {
          ghost var probed, step; outcome, probed, step := AttachIfAbsent(d);
        }
      }
    }

    /** The detach handler: refresh the device list, forget the device's MTP
        answer, cache its strings, and when the guest is online and the device
        is listed, detach it if the guest has it. */
    method OnDetach(d: Device, live: seq<Device>) returns (outcome: Outcome)
      modifies this, qmp
      ensures devices == live
      ensures mtpCache == old(mtpCache) - {CacheKey(VidPidHexOf(Live(d)))}
      ensures CacheKey(VidPidHexOf(Live(d))) in stringCache
      ensures !(old(online) && HasIds(old(config), d.vendorId, d.productId)) ==>
        requests == old(requests) && outcome == Completed
      ensures old(requests) <= requests
      ensures DelStep(requests[|old(requests)|..], VmId(d.vendorId, d.productId), outcome)
      ensures old(online) && HasIds(old(config), d.vendorId, d.productId) && qmp != null ==>
        Answered(requests[|old(requests)|..], old(qmp.closed), old(qmp.inbound), d.vendorId, d.productId)
      ensures old(online) && HasIds(old(config), d.vendorId, d.productId) && qmp != null && outcome == Completed ==>
        requests != old(requests)
      ensures !outcome.Threw?
      ensures config == old(config) && ptDevices == old(ptDevices) && online == old(online)
      ensures freed == old(freed)
      ensures var h := VidPidHexOf(Live(d)); var key := CacheKey(h);
        lsusbRuns == old(lsusbRuns) + if key in old(stringCache) then 0 else Resolve(database, h, Listing(key)).lsusbRuns
    {
      devices := live;
      mtpCache := mtpCache - {CacheKey(VidPidHexOf(Live(d)))};
      var _ := StringifyDevice(d);
      outcome := Completed;
      if online {
        var listed := InPassthroughList(d);
        if listed.value {
          outcome := DetachIfPresent(d.vendorId, d.productId);
        }
      }
    }

    /** The guest-online handler: when the guest comes online, every listed
        entry whose device is attached to the host is queried and attached
        when the guest lacks it, in list order. */
    method OnOnlineChanged(isOnline: bool) returns (outcome: Outcome)
      modifies this, qmp
      ensures online == isOnline
      ensures !isOnline ==> requests == old(requests) && outcome == Completed
      ensures outcome.Threw? ==> outcome.error == LsusbFailed
      ensures old(requests) <= requests && OnlineLog(requests[|old(requests)|..], VmIds(old(config)))
      ensures outcome == Completed ==> AbsentThenAdded(requests[|old(requests)|..])
      ensures isOnline && outcome == Completed && qmp != null ==>
        forall e :: e in old(config) && HasDevice(old(devices), e.vendorId, e.productId) ==>
          VmId(e.vendorId, e.productId) in QueriedIds(requests[|old(requests)|..])
      ensures MtpHistory(devices, listings, old(mtpCache), mtpCache, old(freed), freed, requests[|old(requests)|..])
      ensures devices == old(devices) && config == old(config) && ptDevices == old(ptDevices)
    {
      online := isOnline;
      outcome := Completed;
      if !isOnline {
        return;
      }
      var list := config;
      var i := 0;
      while i < |list|
        invariant 0 <= i <= |list|
        invariant list == old(config) && config == old(config) && ptDevices == old(ptDevices) && devices == old(devices)
        invariant online == isOnline
        invariant old(requests) <= requests && OnlineLog(requests[|old(requests)|..], VmIds(list))
        invariant AbsentThenAdded(requests[|old(requests)|..])
        invariant qmp != null ==> forall j :: 0 <= j < i && HasDevice(devices, list[j].vendorId, list[j].productId) ==>
          VmId(list[j].vendorId, list[j].productId) in QueriedIds(requests[|old(requests)|..])
        invariant MtpHistory(devices, listings, old(mtpCache), mtpCache, old(freed), freed, requests[|old(requests)|..])
      {
        var e := list[i];
        if Connected(e) {
          ghost var before := requests;
          ghost var cacheBefore := mtpCache;
          ghost var freedBefore := freed;
          var device := FindDevice(devices, e.vendorId, e.productId);
          ghost var probed, step; var o; o, probed, step := AttachIfAbsent(device.value);
          OnlineStep(old(requests), before, requests, step, list, i, device.value, o);
          MtpStep(devices, listings, device.value, probed, o,
                  old(mtpCache), cacheBefore, mtpCache, old(freed), freedBefore, freed, old(requests), before, step, requests);
          if o != Completed {
            return o;
          }
        }
        i := i + 1;
      }
    }
  }

  /** One removal of `RemoveAllPassthroughDevices` keeps its requests about
      the listed ids and, when it sent something, marks the entry's id as
      queried. */
  lemma DelStepAbout(base: seq<VmRequest>, before: seq<VmRequest>, after: seq<VmRequest>, list: seq<PtEntry>, i: nat, o: Outcome)
    requires i < |list|
    requires base <= before <= after && AllAbout(before[|base|..], VmIds(list))
    requires PresentThenRemoved(before[|base|..])
    requires DelStep(after[|before|..], VmId(list[i].vendorId, list[i].productId), o)
    ensures AllAbout(after[|base|..], VmIds(list))
    ensures PresentThenRemoved(after[|base|..])
    ensures AllQueried(list[..i], before[|base|..]) && after != before ==> AllQueried(list[..i + 1], after[|base|..])
  {
    assert after[|base|..] == before[|base|..] + after[|before|..];
    if after != before {
      assert |after| > |before|;
      QueriedStep(list, i, before[|base|..], after[|before|..]);
    }
    PresentThenRemovedExtends(before[|base|..], after[|before|..], VmId(list[i].vendorId, list[i].productId), o);
    var id := VmId(list[i].vendorId, list[i].productId);
    assert id in VmIds(list);
    var t := after[|base|..];
    forall k | 0 <= k < |t| ensures t[k].id in VmIds(list) {
      if k < |before| - |base| {
        assert t[k] == before[|base|..][k];
      } else {
        assert t[k] == after[|before|..][k - (|before| - |base|)];
      }
    }
  }

  /** A step that opens with a query for the next entry extends the queried
      prefix of the list by that entry. */
  lemma QueriedStep(list: seq<PtEntry>, i: nat, rs: seq<VmRequest>, step: seq<VmRequest>)
    requires i < |list| && step != [] && step[0].Query? && step[0].id == VmId(list[i].vendorId, list[i].productId)
    ensures AllQueried(list[..i], rs) ==> AllQueried(list[..i + 1], rs + step)
  {
    assert step[0] in rs + step;
    forall j | 0 <= j < i ensures list[..i + 1][j] == list[..i][j] {
    }
  }

  /** What a run sent after `base` grows by the requests appended to it. */
  lemma SliceAfterAppend(base: seq<VmRequest>, before: seq<VmRequest>, step: seq<VmRequest>)
    requires base <= before
    ensures (before + step)[|base|..] == before[|base|..] + step
  {
  }

  /** One entry of the guest-online loop keeps the log well formed and, when
      something was sent, marks the entry's id as queried. */
  lemma OnlineStep(base: seq<VmRequest>, before: seq<VmRequest>, after: seq<VmRequest>,
                   step: seq<VmRequest>, list: seq<PtEntry>, i: nat, d: Device, o: Outcome)
    requires i < |list| && d.vendorId == list[i].vendorId && d.productId == list[i].productId
    requires base <= before && after == before + step && OnlineLog(before[|base|..], VmIds(list))
    requires AbsentThenAdded(before[|base|..])
    requires AddStep(step, VmId(d.vendorId, d.productId), BusPath(d.busNumber, d.deviceAddress), o)
    ensures OnlineLog(after[|base|..], VmIds(list))
    ensures !o.Threw? ==> AbsentThenAdded(after[|base|..])
    ensures QueriedIds(before[|base|..]) <= QueriedIds(after[|base|..])
    ensures after != before ==> VmId(d.vendorId, d.productId) in QueriedIds(after[|base|..])
  {
    var id := VmId(d.vendorId, d.productId);
    assert id in VmIds(list) by {
      assert list[i] in list;
    }
    SliceAfterAppend(base, before, step);
    OnlineLogExtends(before[|base|..], step, id, BusPath(d.busNumber, d.deviceAddress), VmIds(list), o);
    if !o.Threw? {
      AbsentThenAddedExtends(before[|base|..], step, id, BusPath(d.busNumber, d.deviceAddress), o);
    }
  }

  /** One entry of the guest-online loop keeps the MTP cache's old answers,
      adds only answers read from `lsusb`, frees only nodes of MTP devices,
      and frees the node of an MTP device it sends `device_add` for. */
  lemma MtpStep(ds: seq<Device>, listings: map<string, string>, d: Device, reached: bool, o: Outcome,
                c0: map<string, bool>, c1: map<string, bool>, c2: map<string, bool>,
                f0: seq<string>, f1: seq<string>, f2: seq<string>,
                base: seq<VmRequest>, before: seq<VmRequest>, step: seq<VmRequest>, after: seq<VmRequest>)
    requires d in ds && base <= before && after == before + step
    requires MtpHistory(ds, listings, c0, c1, f0, f1, before[|base|..])
    requires AddStep(step, VmId(d.vendorId, d.productId), BusPath(d.busNumber, d.deviceAddress), o)
    requires FoundAbsent(step, VmId(d.vendorId, d.productId)) ==> reached
    requires ProbeEffect(listings, d, reached, o, c1, c2, f1, f2)
    ensures MtpHistory(ds, listings, c0, c2, f0, f2, after[|base|..])
  {
    var key := CacheKey(VidPidHexOf(Live(d)));
    var path := BusPath(d.busNumber, d.deviceAddress);
    var extra := if reached && key in c2 && c2[key] then [path] else [];
    StepMtpFacts(listings, d, reached, o, c1, c2, f1, f2, extra, step);
    SliceAfterAppend(base, before, step);
    HistoryStep(ds, listings, d, c0, c1, c2, f0, f1, f2, extra, before[|base|..], step, after[|base|..]);
  }

  /** What one attach step tells about the cache, the freed nodes and its
      `device_add`. */
  lemma StepMtpFacts(listings: map<string, string>, d: Device, reached: bool, o: Outcome,
                     c1: map<string, bool>, c2: map<string, bool>, f1: seq<string>, f2: seq<string>,
                     extra: seq<string>, step: seq<VmRequest>)
    requires AddStep(step, VmId(d.vendorId, d.productId), BusPath(d.busNumber, d.deviceAddress), o)
    requires FoundAbsent(step, VmId(d.vendorId, d.productId)) ==> reached
    requires ProbeEffect(listings, d, reached, o, c1, c2, f1, f2)
    requires var key := CacheKey(VidPidHexOf(Live(d)));
      extra == if reached && key in c2 && c2[key] then [BusPath(d.busNumber, d.deviceAddress)] else []
    ensures KeepsAnswers(c1, c2) && AnswersFromListings(c1, c2, listings) && f2 == f1 + extra
    ensures extra == [] || (extra == [BusPath(d.busNumber, d.deviceAddress)]
                            && CacheKey(VidPidHexOf(Live(d))) in c2 && c2[CacheKey(VidPidHexOf(Live(d)))])
    ensures forall r :: r in step && r.Add? ==> r == Add(VmId(d.vendorId, d.productId), BusPath(d.busNumber, d.deviceAddress))
    ensures Add(VmId(d.vendorId, d.productId), BusPath(d.busNumber, d.deviceAddress)) in step ==>
      && CacheKey(VidPidHexOf(Live(d))) in c2
      && (c2[CacheKey(VidPidHexOf(Live(d)))] ==> BusPath(d.busNumber, d.deviceAddress) in extra)
  {
    var id := VmId(d.vendorId, d.productId);
    var path := BusPath(d.busNumber, d.deviceAddress);
    var key := CacheKey(VidPidHexOf(Live(d)));
    if reached {
      assert c2 == ProbedCache(c1, key, listings);
    }
    if Add(id, path) in step {
      assert step == [Query(id, false), Add(id, path)];
      assert reached && !o.Threw?;
      assert key in c2;
    }
  }

  /** One attach step extends the history of the MTP cache and the freed
      nodes. */
  lemma HistoryStep(ds: seq<Device>, listings: map<string, string>, d: Device,
                    c0: map<string, bool>, c1: map<string, bool>, c2: map<string, bool>,
                    f0: seq<string>, f1: seq<string>, f2: seq<string>, extra: seq<string>,
                    rs: seq<VmRequest>, step: seq<VmRequest>, rs2: seq<VmRequest>)
    requires d in ds && MtpHistory(ds, listings, c0, c1, f0, f1, rs)
    requires f2 == f1 + extra && rs2 == rs + step
    requires KeepsAnswers(c1, c2) && AnswersFromListings(c1, c2, listings)
    requires extra == [] || (extra == [BusPath(d.busNumber, d.deviceAddress)]
                             && CacheKey(VidPidHexOf(Live(d))) in c2 && c2[CacheKey(VidPidHexOf(Live(d)))])
    requires forall r :: r in step && r.Add? ==> r == Add(VmId(d.vendorId, d.productId), BusPath(d.busNumber, d.deviceAddress))
    requires Add(VmId(d.vendorId, d.productId), BusPath(d.busNumber, d.deviceAddress)) in step ==>
      && CacheKey(VidPidHexOf(Live(d))) in c2
      && (c2[CacheKey(VidPidHexOf(Live(d)))] ==> BusPath(d.busNumber, d.deviceAddress) in extra)
    ensures MtpHistory(ds, listings, c0, c2, f0, f2, rs2)
  {
    AnswersCompose(c0, c1, c2, listings);
    FreedStep(ds, d, c1, c2, f0, f1, extra);
    assert (f1 + extra)[|f0|..] == f1[|f0|..] + extra;
    AddsStep(ds, d, c1, c2, f1[|f0|..], extra, rs, step);
  }

  lemma AnswersCompose(c0: map<string, bool>, c1: map<string, bool>, c2: map<string, bool>, listings: map<string, string>)
    requires KeepsAnswers(c0, c1) && AnswersFromListings(c0, c1, listings)
    requires KeepsAnswers(c1, c2) && AnswersFromListings(c1, c2, listings)
    ensures KeepsAnswers(c0, c2) && AnswersFromListings(c0, c2, listings)
  {
  }

  /** Freeing the node of an MTP device keeps the freed nodes among the MTP
      nodes. */
  lemma FreedStep(ds: seq<Device>, d: Device, c1: map<string, bool>, c2: map<string, bool>,
                  f0: seq<string>, f1: seq<string>, extra: seq<string>)
    requires d in ds && f0 <= f1 && KeepsAnswers(c1, c2)
    requires forall p :: p in f1[|f0|..] ==> p in MtpNodes(ds, c1)
    requires extra == [] || (extra == [BusPath(d.busNumber, d.deviceAddress)]
                             && CacheKey(VidPidHexOf(Live(d))) in c2 && c2[CacheKey(VidPidHexOf(Live(d)))])
    ensures f0 <= f1 + extra
    ensures forall p :: p in (f1 + extra)[|f0|..] ==> p in MtpNodes(ds, c2)
  {
    MtpNodesGrow(ds, c1, c2);
    assert (f1 + extra)[|f0|..] == f1[|f0|..] + extra;
  }

  /** A step whose only `device_add` is for `d`, with `d`'s answer cached and
      its node freed when it is an MTP device, keeps every `device_add`
      matched by its freed node. */
  lemma AddsStep(ds: seq<Device>, d: Device, c1: map<string, bool>, c2: map<string, bool>,
                 freedNow: seq<string>, extra: seq<string>, rs: seq<VmRequest>, step: seq<VmRequest>)
    requires KeepsAnswers(c1, c2) && AddsFreedMtpNodes(rs, ds, c1, freedNow)
    requires forall r :: r in step && r.Add? ==> r == Add(VmId(d.vendorId, d.productId), BusPath(d.busNumber, d.deviceAddress))
    requires Add(VmId(d.vendorId, d.productId), BusPath(d.busNumber, d.deviceAddress)) in step ==>
      && CacheKey(VidPidHexOf(Live(d))) in c2
      && (c2[CacheKey(VidPidHexOf(Live(d)))] ==> BusPath(d.busNumber, d.deviceAddress) in extra)
    ensures AddsFreedMtpNodes(rs + step, ds, c2, freedNow + extra)
  {
    forall d' | d' in ds && Add(VmId(d'.vendorId, d'.productId), BusPath(d'.busNumber, d'.deviceAddress)) in rs + step
      ensures CacheKey(VidPidHexOf(Live(d'))) in c2
      ensures c2[CacheKey(VidPidHexOf(Live(d')))] ==> BusPath(d'.busNumber, d'.deviceAddress) in freedNow + extra
    {
      var a := Add(VmId(d'.vendorId, d'.productId), BusPath(d'.busNumber, d'.deviceAddress));
      var key := CacheKey(VidPidHexOf(Live(d')));
      if a in rs {
        assert key in c1 && (c1[key] ==> BusPath(d'.busNumber, d'.deviceAddress) in freedNow);
      } else {
        assert a in step;
        VmIdInjective(d'.vendorId, d'.productId, d.vendorId, d.productId);
        assert key == CacheKey(VidPidHexOf(Live(d)));
      }
    }
  }

  /** Answers kept from one cache to the next keep their devices' nodes among
      the MTP nodes. */
  lemma MtpNodesGrow(ds: seq<Device>, c1: map<string, bool>, c2: map<string, bool>)
    requires KeepsAnswers(c1, c2)
    ensures MtpNodes(ds, c1) <= MtpNodes(ds, c2)
  {
    forall p | p in MtpNodes(ds, c1) ensures p in MtpNodes(ds, c2) {
      var d :| d in ds && CacheKey(VidPidHexOf(Live(d))) in c1 && c1[CacheKey(VidPidHexOf(Live(d)))]
               && p == BusPath(d.busNumber, d.deviceAddress);
    }
  }
}
