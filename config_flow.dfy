/**
 * The configuration flow of config_flow.py: the BLE scan filter, the device
 * picker, manual address entry with its normalisation and validation, and the
 * Bluetooth-discovery path. The BLE scan is an input (`None` when the scan
 * itself fails); the set of unique ids already configured is an input too.
 */
module ConfigFlow {
  import opened Consts
  import opened Options
  import opened Text

  // ---- address normalisation and validation ----

  /** `address.strip().upper()` */
  function NormalizeAddress(s: string): string
  {
    Upper(Strip(s))
  }

  lemma UpperKeepsSpace(s: string)
    ensures forall i :: 0 <= i < |s| ==> (IsSpace(Upper(s)[i]) <==> IsSpace(s[i]))
  {
  }

  /** Normalising twice changes nothing more than normalising once. */
  lemma NormalizeIdempotent(s: string)
    ensures NormalizeAddress(NormalizeAddress(s)) == NormalizeAddress(s)
  {
    var n := NormalizeAddress(s);
    UpperKeepsSpace(Strip(s));
    StripTrimmed(n);
    UpperIdempotent(Strip(s));
  }

  /** A normalised address has no surrounding whitespace and no lower-case letter. */
  lemma NormalizedShape(s: string)
    ensures var n := NormalizeAddress(s);
      && (n == [] || (!IsSpace(n[0]) && !IsSpace(n[|n| - 1])))
      && (forall i :: 0 <= i < |n| ==> !('a' <= n[i] <= 'z'))
  {
    UpperKeepsSpace(Strip(s));
  }

  /** `[0-9A-Fa-f]` */
  predicate IsHexChar(c: char)
  {
    '0' <= c <= '9' || 'A' <= c <= 'F' || 'a' <= c <= 'f'
  }

  /** Seventeen characters: a ':' at every third position, hex digits everywhere else. */
  predicate MacShape(s: string)
  {
    |s| == 17 && forall i :: 0 <= i < |s| ==> if i % 3 == 2 then s[i] == ':' else IsHexChar(s[i])
  }

  /**
   * `re.match(r"^([0-9A-Fa-f]{2}:){5}[0-9A-Fa-f]{2}$", s)`. Python's `$` also
   * matches just before a final newline, so the pattern accepts the shape
   * followed by one '\n'.
   */
  predicate AddressPatternMatches(s: string)
  {
    MacShape(s) || (|s| == 18 && s[17] == '\n' && MacShape(s[..17]))
  }

  /** After normalisation the trailing-newline reading of `$` never applies. */
  lemma NormalizedPatternIsShape(s: string)
    ensures AddressPatternMatches(NormalizeAddress(s)) <==> MacShape(NormalizeAddress(s))
  {
    NormalizedShape(s);
    assert IsSpace('\n');
  }

  /** `n` groups of two hex digits joined by ':' — the address pattern read group by group. */
  predicate Groups(s: string, n: nat)
    decreases n
  {
    if n <= 1 then n == 1 && |s| == 2 && IsHexChar(s[0]) && IsHexChar(s[1])
    else |s| >= 3 && IsHexChar(s[0]) && IsHexChar(s[1]) && s[2] == ':' && Groups(s[3..], n - 1)
  }

  /** Position by position: `3n - 1` characters, ':' exactly at every third one. */
  predicate Positional(s: string, n: nat)
  {
    |s| == 3 * n - 1 && forall i :: 0 <= i < |s| ==> if i % 3 == 2 then s[i] == ':' else IsHexChar(s[i])
  }

  lemma PositionalStep(s: string, n: nat)
    requires n >= 2
    ensures Positional(s, n) <==>
      |s| >= 3 && IsHexChar(s[0]) && IsHexChar(s[1]) && s[2] == ':' && Positional(s[3..], n - 1)
  {
    if Positional(s, n) {
      forall j | 0 <= j < |s[3..]|
        ensures if j % 3 == 2 then s[3..][j] == ':' else IsHexChar(s[3..][j])
      {
        assert s[3..][j] == s[j + 3] && (j + 3) % 3 == j % 3;
      }
    }
    if |s| >= 3 && IsHexChar(s[0]) && IsHexChar(s[1]) && s[2] == ':' && Positional(s[3..], n - 1) {
      forall i | 0 <= i < |s|
        ensures if i % 3 == 2 then s[i] == ':' else IsHexChar(s[i])
      {
        if i >= 3 {
          assert s[i] == s[3..][i - 3] && (i - 3) % 3 == i % 3;
        }
      }
    }
  }

  lemma {:induction false} GroupsPositional(s: string, n: nat)
    requires n >= 1
    ensures Groups(s, n) <==> Positional(s, n)
    decreases n
  {
    if n >= 2 {
      PositionalStep(s, n);
      if |s| >= 3 {
        GroupsPositional(s[3..], n - 1);
      }
    }
  }

  /**
   * A manually entered address is accepted exactly when, once normalised, it
   * is six groups of two hex digits separated by ':'.
   */
  lemma AcceptedIffSixGroups(input: string)
    ensures AddressPatternMatches(NormalizeAddress(input)) <==> Groups(NormalizeAddress(input), 6)
  {
    NormalizedPatternIsShape(input);
    GroupsPositional(NormalizeAddress(input), 6);
  }

  /** An accepted address is canonical: upper-case hex digits, and already normalised. */
  lemma AcceptedIsCanonical(input: string)
    requires AddressPatternMatches(NormalizeAddress(input))
    ensures var a := NormalizeAddress(input);
      && (forall i :: 0 <= i < |a| && i % 3 != 2 ==> '0' <= a[i] <= '9' || 'A' <= a[i] <= 'F')
      && NormalizeAddress(a) == a
  {
    NormalizedPatternIsShape(input);
    NormalizedShape(input);
    NormalizeIdempotent(input);
  }

  // ---- flow results ----

  /** The form fields a step receives; a missing optional field is `None`. */
  datatype UserInput = UserInput(address: string, name: Option<string>, duration: Option<int>)

  datatype ConfirmInput = ConfirmInput(name: Option<string>, duration: Option<int>)

  datatype EntryData = EntryData(address: string, name: string, duration: int)

  /** What a step returns: a form to show, an abort, or a created entry. */
  datatype FlowResult =
    | ShowForm(stepId: string, errors: map<string, string>, placeholders: map<string, string>,
               options: map<string, string>)
    | AbortFlow(reason: string)
    | CreateEntry(title: string, data: EntryData)

  /** `_abort_if_unique_id_configured` aborts with this reason. */
  const ALREADY_CONFIGURED: string := "already_configured"

  function ManualForm(errors: map<string, string>): FlowResult
  {
    ShowForm("manual", errors, map[], map[])
  }

  /**
   * `async_step_manual`: the entered address is normalised and checked; a bad
   * one re-shows the form with an error on the address field, a known one
   * aborts, and a new one becomes the entry's address under the given (or
   * default) name and duration.
   */
  function ManualStep(input: Option<UserInput>, configured: set<string>): (r: FlowResult)
    ensures input.None? ==> r == ManualForm(map[])
    ensures input.Some? ==>
      var address := NormalizeAddress(input.value.address);
      && (r == ManualForm(map[CONF_ADDRESS := "invalid_address"]) <==> !AddressPatternMatches(address))
      && (r == AbortFlow(ALREADY_CONFIGURED) <==> AddressPatternMatches(address) && address in configured)
      && (r.CreateEntry? <==> AddressPatternMatches(address) && address !in configured)
      && (r.CreateEntry? ==>
            && r.data.address == address
            && r.title == r.data.name == input.value.name.GetOr(DEFAULT_NAME)
            && r.data.duration == input.value.duration.GetOr(DEFAULT_DURATION))
  {
    match input
    case None => ManualForm(map[])
    case Some(form) =>
      var address := NormalizeAddress(form.address);
      if !AddressPatternMatches(address) then ManualForm(map[CONF_ADDRESS := "invalid_address"])
      else if address in configured then AbortFlow(ALREADY_CONFIGURED)
      else
        var name := form.name.GetOr(DEFAULT_NAME);
        CreateEntry(name, EntryData(address, name, form.duration.GetOr(DEFAULT_DURATION)))
  }

  /** Every entry the manual step creates stores a canonical six-group address. */
  lemma ManualEntriesCanonical(input: UserInput, configured: set<string>)
    ensures var r := ManualStep(Some(input), configured);
      r.CreateEntry? ==> Groups(r.data.address, 6) && NormalizeAddress(r.data.address) == r.data.address
  {
    var r := ManualStep(Some(input), configured);
    if r.CreateEntry? {
      AcceptedIffSixGroups(input.address);
      AcceptedIsCanonical(input.address);
    }
  }

  /**
   * An address typed in lower case with whitespace around it is accepted: the
   * entry stores its upper-case form.
   */
  lemma ManualAcceptsPaddedAddress(pre: string, mac: string, post: string, name: Option<string>,
                                   duration: Option<int>, configured: set<string>)
    requires forall k :: 0 <= k < |pre| ==> IsSpace(pre[k])
    requires forall k :: 0 <= k < |post| ==> IsSpace(post[k])
    requires MacShape(mac) && Upper(mac) !in configured
    ensures ManualStep(Some(UserInput(pre + mac + post, name, duration)), configured) ==
      CreateEntry(name.GetOr(DEFAULT_NAME), EntryData(Upper(mac), name.GetOr(DEFAULT_NAME), duration.GetOr(DEFAULT_DURATION)))
  {
    StripPadded(pre, mac, post);
    assert MacShape(Upper(mac));
  }

  /** " aa:bb:cc:dd:ee:ff " is accepted as "AA:BB:CC:DD:EE:FF". */
  lemma ManualAcceptsLowerCaseExample(configured: set<string>)
    requires "AA:BB:CC:DD:EE:FF" !in configured
    ensures ManualStep(Some(UserInput(" aa:bb:cc:dd:ee:ff ", None, None)), configured) ==
      CreateEntry(DEFAULT_NAME, EntryData("AA:BB:CC:DD:EE:FF", DEFAULT_NAME, DEFAULT_DURATION))
  {
    var mac := "aa:bb:cc:dd:ee:ff";
    ExampleAddressShape(mac);
    ManualAcceptsPaddedAddress(" ", mac, " ", None, None, configured);
  }

  /** The lower-case address of the example has the address shape and upper-cases as expected. */
  lemma ExampleAddressShape(mac: string)
    requires mac == "aa:bb:cc:dd:ee:ff"
    ensures MacShape(mac) && Upper(mac) == "AA:BB:CC:DD:EE:FF"
    ensures " aa:bb:cc:dd:ee:ff " == " " + mac + " "
  {
    forall i | 0 <= i < |mac|
      ensures if i % 3 == 2 then mac[i] == ':' else IsHexChar(mac[i])
    {
    }
    ExampleAddressUpper(mac);
  }

  lemma ExampleAddressUpper(mac: string)
    requires mac == "aa:bb:cc:dd:ee:ff"
    ensures Upper(mac) == "AA:BB:CC:DD:EE:FF"
  {
    var u := "AA:BB:CC:DD:EE:FF";
    forall i | 0 <= i < |mac|
      ensures Upper(mac)[i] == u[i]
    {
    }
  }

  // ---- discovery ----

  /** A device seen by the BLE scan; `name` is `None` when it advertises none. */
  datatype Advert = Advert(name: Option<string>, address: string)

  /** `d.name or ""` */
  function AdvertName(d: Advert): string
  {
    if d.name.Some? then d.name.value else ""
  }

  /** `DEVICE_NAME_FILTER.upper() in bt_name.upper()` */
  predicate IsGalcon(d: Advert)
  {
    Contains(Upper(AdvertName(d)), Upper(DEVICE_NAME_FILTER))
  }

  /** The devices `_scan_for_galcon_devices` keeps, keyed by upper-cased address; a later duplicate wins. */
  function Filtered(ds: seq<Advert>): map<string, string>
    decreases |ds|
  {
    if ds == [] then map[]
    else
      var kept := Filtered(ds[..|ds| - 1]);
      var d := ds[|ds| - 1];
      if IsGalcon(d) then kept[Upper(d.address) := AdvertName(d)] else kept
  }

  /** The scan's result: nothing when the scan itself raised. */
  function Scanned(scan: Option<seq<Advert>>): map<string, string>
  {
    if scan.None? then map[] else Filtered(scan.value)
  }

  /** The filter is a case-insensitive search for "GL9001A" anywhere in the advertised name. */
  lemma IsGalconIff(d: Advert)
    ensures IsGalcon(d) <==> exists i: nat :: OccursAt("GL9001A", Upper(AdvertName(d)), i)
    ensures IsGalcon(d) <==> IsGalcon(Advert(Some(Upper(AdvertName(d))), d.address))
  {
    assert Upper(DEVICE_NAME_FILTER) == "GL9001A";
    ContainsIff(Upper(AdvertName(d)), "GL9001A");
    UpperIdempotent(AdvertName(d));
  }

  /** A name the filter keeps is never empty. */
  lemma GalconNameNonEmpty(d: Advert)
    requires IsGalcon(d)
    ensures AdvertName(d) != ""
  {
    IsGalconIff(d);
  }

  /** The kept addresses are exactly the upper-cased addresses of matching devices. */
  lemma {:induction false} FilteredKeys(ds: seq<Advert>, k: string)
    ensures k in Filtered(ds) <==> exists i :: 0 <= i < |ds| && IsGalcon(ds[i]) && Upper(ds[i].address) == k
    decreases |ds|
  {
    if ds != [] {
      var init := ds[..|ds| - 1];
      FilteredKeys(init, k);
      assert forall i :: 0 <= i < |init| ==> init[i] == ds[i];
    }
  }

  /** Each kept address maps to the name of the last matching device with that address. */
  lemma {:induction false} FilteredLastWins(ds: seq<Advert>, i: int)
    requires 0 <= i < |ds| && IsGalcon(ds[i])
    requires forall j :: i < j < |ds| && IsGalcon(ds[j]) ==> Upper(ds[j].address) != Upper(ds[i].address)
    ensures Upper(ds[i].address) in Filtered(ds)
    ensures Filtered(ds)[Upper(ds[i].address)] == AdvertName(ds[i])
    decreases |ds|
  {
    if i < |ds| - 1 {
      var init := ds[..|ds| - 1];
      assert init[i] == ds[i];
      forall j | i < j < |init| && IsGalcon(init[j])
        ensures Upper(init[j].address) != Upper(init[i].address)
      {
        assert init[j] == ds[j];
      }
      FilteredLastWins(init, i);
    }
  }

  /** Every kept address is upper-case and every kept name is non-empty. */
  lemma {:induction false} FilteredCanonical(ds: seq<Advert>)
    ensures forall k :: k in Filtered(ds) ==> Upper(k) == k && Filtered(ds)[k] != ""
    decreases |ds|
  {
    if ds != [] {
      var d := ds[|ds| - 1];
      FilteredCanonical(ds[..|ds| - 1]);
      if IsGalcon(d) {
        UpperIdempotent(d.address);
        GalconNameNonEmpty(d);
      }
    }
  }

  // ---- the picker ----

  /** `device_name if device_name else DEFAULT_NAME`, with `device_name = discovered.get(address, "")`. */
  function DefaultName(discovered: map<string, string>, address: string): (name: string)
    ensures name != ""
    ensures address in discovered && discovered[address] != "" ==> name == discovered[address]
    ensures !(address in discovered && discovered[address] != "") ==> name == DEFAULT_NAME
  {
    var deviceName := if address in discovered then discovered[address] else "";
    if deviceName != "" then deviceName else DEFAULT_NAME
  }

  /** A device picked from a scan is named as it advertised itself unless a name is typed in. */
  lemma PickedDeviceKeepsName(ds: seq<Advert>, address: string)
    requires address in Filtered(ds)
    ensures DefaultName(Filtered(ds), address) == Filtered(ds)[address]
  {
    FilteredCanonical(ds);
  }

  /** `f"{name} ({addr})"` */
  function OptionLabel(name: string, address: string): string
  {
    name + " (" + address + ")"
  }

  /** The picker: one label per discovered device, keyed by its address. */
  function OptionLabels(devices: map<string, string>): (labels: map<string, string>)
    ensures labels.Keys == devices.Keys
    ensures forall a :: a in labels ==> labels[a] == OptionLabel(devices[a], a)
  {
    map a | a in devices :: OptionLabel(devices[a], a)
  }

  /** Labels of equally long addresses tell both the name and the address apart. */
  lemma OptionLabelsDistinct(n1: string, a1: string, n2: string, a2: string)
    requires |a1| == |a2|
    ensures OptionLabel(n1, a1) == OptionLabel(n2, a2) <==> n1 == n2 && a1 == a2
  {
    var l1, l2 := OptionLabel(n1, a1), OptionLabel(n2, a2);
    if l1 == l2 {
      assert |n1| == |n2|;
      assert n1 == l1[..|n1|] && n2 == l2[..|n2|];
      assert a1 == l1[|n1| + 2..|l1| - 1] && a2 == l2[|n2| + 2..|l2| - 1];
    }
  }

  /**
   * `async_step_user` with a picked device: the name defaults to the
   * advertised one, the address is used as given, and a known address aborts.
   */
  function PickerStep(input: UserInput, discovered: map<string, string>, configured: set<string>): (r: FlowResult)
    ensures r == AbortFlow(ALREADY_CONFIGURED) <==> input.address in configured
    ensures r.CreateEntry? <==> input.address !in configured
    ensures r.CreateEntry? ==>
      && r.data.address == input.address
      && r.title == r.data.name == input.name.GetOr(DefaultName(discovered, input.address))
      && r.data.duration == input.duration.GetOr(DEFAULT_DURATION)
  {
    var name := input.name.GetOr(DefaultName(discovered, input.address));
    if input.address in configured then AbortFlow(ALREADY_CONFIGURED)
    else CreateEntry(name, EntryData(input.address, name, input.duration.GetOr(DEFAULT_DURATION)))
  }

  /** `async_step_bluetooth_confirm` once the form is submitted. */
  function ConfirmStep(uniqueId: string, input: ConfirmInput): (r: FlowResult)
    ensures r.CreateEntry? && r.data.address == uniqueId
    ensures r.title == r.data.name == input.name.GetOr(DEFAULT_NAME)
    ensures r.data.duration == input.duration.GetOr(DEFAULT_DURATION)
  {
    var name := input.name.GetOr(DEFAULT_NAME);
    CreateEntry(name, EntryData(uniqueId, name, input.duration.GetOr(DEFAULT_DURATION)))
  }

  /** `discovery_info.name or DEFAULT_NAME` */
  function DiscoveredTitle(d: Advert): (title: string)
    ensures title != ""
    ensures AdvertName(d) != "" ==> title == AdvertName(d)
  {
    if AdvertName(d) != "" then AdvertName(d) else DEFAULT_NAME
  }

  /** `GalconBTConfigFlow` */
  class GalconConfigFlow {
    var discoveredDevices: map<string, string>
    var uniqueId: Option<string>
    var titlePlaceholders: map<string, string>

    constructor ()
      ensures discoveredDevices == map[] && uniqueId == None && titlePlaceholders == map[]
    {
      discoveredDevices := map[];
      uniqueId := None;
      titlePlaceholders := map[];
    }

    /** `_scan_for_galcon_devices`: one pass over the scan, filling `devices` in place. */
    method ScanForGalconDevices(scan: Option<seq<Advert>>) returns (devices: map<string, string>)
      ensures devices == Scanned(scan)
      ensures forall k :: k in devices ==> Upper(k) == k && devices[k] != ""
    {
      devices := map[];
      if scan.None? {
        return;
      }
      var ds := scan.value;
      var i := 0;
      while i < |ds|
        invariant 0 <= i <= |ds|
        invariant devices == Filtered(ds[..i])
      {
        var d := ds[i];
        var btName := AdvertName(d);
        if Contains(Upper(btName), Upper(DEVICE_NAME_FILTER)) {
          devices := devices[Upper(d.address) := btName];
        }
        assert ds[..i + 1][..i] == ds[..i];
        i := i + 1;
      }
      assert ds[..|ds|] == ds;
      FilteredCanonical(ds);
    }

    /**
     * `async_step_user`: with a picked device, the entry for it; otherwise a
     * fresh scan, falling back to manual entry when it finds nothing.
     */
    method AsyncStepUser(input: Option<UserInput>, scan: Option<seq<Advert>>, configured: set<string>)
      returns (r: FlowResult)
      modifies this
      ensures input.Some? ==>
        && discoveredDevices == old(discoveredDevices) && titlePlaceholders == old(titlePlaceholders)
        && uniqueId == Some(input.value.address)
        && r == PickerStep(input.value, old(discoveredDevices), configured)
      ensures input.None? ==>
        && discoveredDevices == Scanned(scan)
        && uniqueId == old(uniqueId) && titlePlaceholders == old(titlePlaceholders)
        && r == if discoveredDevices == map[] then ManualForm(map[])
                else ShowForm("user", map[], map["count" := Decimal(|discoveredDevices|)],
                              OptionLabels(discoveredDevices))
    {
      if input.Some? {
        uniqueId := Some(input.value.address);
        r := PickerStep(input.value, discoveredDevices, configured);
        return;
      }
      discoveredDevices := ScanForGalconDevices(scan);
      if discoveredDevices == map[] {
        r := AsyncStepManual(None, configured);
        return;
      }
      r := ShowForm("user", map[], map["count" := Decimal(|discoveredDevices|)], OptionLabels(discoveredDevices));
    }

    /** `async_step_manual`: the unique id is set only for an address that passes validation. */
    method AsyncStepManual(input: Option<UserInput>, configured: set<string>) returns (r: FlowResult)
      modifies this
      ensures r == ManualStep(input, configured)
      ensures discoveredDevices == old(discoveredDevices) && titlePlaceholders == old(titlePlaceholders)
      ensures uniqueId ==
        if input.Some? && AddressPatternMatches(NormalizeAddress(input.value.address))
        then Some(NormalizeAddress(input.value.address)) else old(uniqueId)
    {
      if input.Some? {
        var address := NormalizeAddress(input.value.address);
        if AddressPatternMatches(address) {
          uniqueId := Some(address);
        }
      }
      r := ManualStep(input, configured);
    }

    /**
     * `async_step_bluetooth`: the discovered address, upper-cased, becomes the
     * unique id; a known one aborts, otherwise the confirmation form is shown.
     */
    method AsyncStepBluetooth(info: Advert, configured: set<string>) returns (r: FlowResult)
      modifies this
      ensures uniqueId == Some(Upper(info.address)) && discoveredDevices == old(discoveredDevices)
      ensures Upper(info.address) in configured ==>
        r == AbortFlow(ALREADY_CONFIGURED) && titlePlaceholders == old(titlePlaceholders)
      ensures Upper(info.address) !in configured ==>
        && titlePlaceholders == map["name" := DiscoveredTitle(info), "address" := Upper(info.address)]
        && r == ShowForm("bluetooth_confirm", map[], map["address" := Upper(info.address)], map[])
    {
      var address := Upper(info.address);
      uniqueId := Some(address);
      if address in configured {
        r := AbortFlow(ALREADY_CONFIGURED);
        return;
      }
      titlePlaceholders := map["name" := DiscoveredTitle(info), "address" := address];
      r := AsyncStepBluetoothConfirm(None);
    }

    /** `async_step_bluetooth_confirm`: the entry is stored under the unique id the discovery set. */
    method AsyncStepBluetoothConfirm(input: Option<ConfirmInput>) returns (r: FlowResult)
      requires uniqueId.Some?
      ensures input.None? ==> r == ShowForm("bluetooth_confirm", map[], map["address" := uniqueId.value], map[])
      ensures input.Some? ==> r == ConfirmStep(uniqueId.value, input.value)
    {
      if input.None? {
        r := ShowForm("bluetooth_confirm", map[], map["address" := uniqueId.value], map[]);
      } else {
        r := ConfirmStep(uniqueId.value, input.value);
      }
    }
  }
}
