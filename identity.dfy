/** The static identity table of known modems (vendor_list) and the lookups
    the scanner makes in it: vendor-id acceptance, product-id acceptance and
    driver resolution. */
module Identity {
  import opened CString

  /** One row of vendor_list: the family name oFono drives the modem with,
      the kernel bus driver, and an optional USB vendor id and product id. */
  datatype Entry = Entry(driver: string, drv: string, vid: CStr, pid: CStr)

  /** The number of rows of vendor_list before its terminating empty row. */
  const VendorCount: nat := 46

  /** Row i of vendor_list, in table order. */
  function VendorRow(i: nat): Entry
    requires i < VendorCount
  {
    match i
    case 0 => Entry("isiusb",      "cdc_phonet", None,         None)
    case 1 => Entry("linktop",     "cdc_acm",    Some("230d"), None)
    case 2 => Entry("icera",       "cdc_acm",    Some("19d2"), None)
    case 3 => Entry("icera",       "cdc_ether",  Some("19d2"), None)
    case 4 => Entry("icera",       "cdc_acm",    Some("04e8"), Some("6872"))
    case 5 => Entry("icera",       "cdc_ether",  Some("04e8"), Some("6872"))
    case 6 => Entry("icera",       "cdc_acm",    Some("0421"), Some("0633"))
    case 7 => Entry("icera",       "cdc_ether",  Some("0421"), Some("0633"))
    case 8 => Entry("mbm",         "cdc_acm",    Some("0bdb"), None)
    case 9 => Entry("mbm",         "cdc_ether",  Some("0bdb"), None)
    case 10 => Entry("mbm",         "cdc_acm",    Some("0fce"), None)
    case 11 => Entry("mbm",         "cdc_ether",  Some("0fce"), None)
    case 12 => Entry("mbm",         "cdc_acm",    Some("413c"), None)
    case 13 => Entry("mbm",         "cdc_ether",  Some("413c"), None)
    case 14 => Entry("mbm",         "cdc_acm",    Some("03f0"), None)
    case 15 => Entry("mbm",         "cdc_ether",  Some("03f0"), None)
    case 16 => Entry("mbm",         "cdc_acm",    Some("0930"), None)
    case 17 => Entry("mbm",         "cdc_ether",  Some("0930"), None)
    case 18 => Entry("hso",         "hso",        None,         None)
    case 19 => Entry("gobi",        "qmi_wwan",   None,         None)
    case 20 => Entry("gobi",        "qcserial",   None,         None)
    case 21 => Entry("sierra",      "sierra",     None,         None)
    case 22 => Entry("sierra",      "sierra_net", None,         None)
    case 23 => Entry("option",      "option",     Some("0af0"), None)
    case 24 => Entry("huawei",      "option",     Some("201e"), None)
    case 25 => Entry("huawei",      "cdc_wdm",    Some("12d1"), None)
    case 26 => Entry("huawei",      "cdc_ether",  Some("12d1"), None)
    case 27 => Entry("huawei",      "qmi_wwan",   Some("12d1"), None)
    case 28 => Entry("huawei",      "option",     Some("12d1"), None)
    case 29 => Entry("speedupcdma", "option",     Some("1c9e"), Some("9e00"))
    case 30 => Entry("speedup",     "option",     Some("1c9e"), None)
    case 31 => Entry("speedup",     "option",     Some("2020"), None)
    case 32 => Entry("alcatel",     "option",     Some("1bbb"), Some("0017"))
    case 33 => Entry("novatel",     "option",     Some("1410"), None)
    case 34 => Entry("zte",         "option",     Some("19d2"), None)
    case 35 => Entry("simcom",      "option",     Some("05c6"), Some("9000"))
    case 36 => Entry("telit",       "usbserial",  Some("1bc7"), None)
    case 37 => Entry("ge910",       "cdc_acm",    Some("1bc7"), Some("0022"))
    case 38 => Entry("telit",       "option",     Some("1bc7"), None)
    case 39 => Entry("he910",       "cdc_acm",    Some("1bc7"), Some("0021"))
    case 40 => Entry("nokia",       "option",     Some("0421"), Some("060e"))
    case 41 => Entry("nokia",       "option",     Some("0421"), Some("0623"))
    case 42 => Entry("samsung",     "option",     Some("04e8"), Some("6889"))
    case 43 => Entry("samsung",     "kalmia",     None,         None)
    case 44 => Entry("quectel",     "option",     Some("05c6"), Some("9090"))
    case _ => Entry("ublox",       "cdc_acm",    Some("1546"), Some("1102"))
  }

  /** The ids are compared on their first VPID_LEN characters. */
  const VpidLen: nat := 4

  const TelitVendorId: string := "1bc7"
  const TelitProductId: string := "0022"

  /** The vendor ids and product ids that occur in the table. */
  const KnownVendorIds: set<string> := {
    "230d", "19d2", "04e8", "0421", "0bdb", "0fce", "413c", "03f0", "0930", "0af0",
    "201e", "12d1", "1c9e", "2020", "1bbb", "1410", "05c6", "1bc7", "1546"
  }
  const KnownProductIds: set<string> := {
    "6872", "0633", "9e00", "0017", "9000", "0022", "0021", "060e", "0623", "6889",
    "9090", "1102"
  }

  predicate VidMatches(e: Entry, data: string)
  {
    e.vid.Some? && StrNEq(data, e.vid.value, VpidLen)
  }

  predicate PidMatches(e: Entry, data: string)
  {
    e.pid.Some? && StrNEq(data, e.pid.value, VpidLen)
  }

  /** mdev_device_add_vendor_id accepts data when some row has a vendor id
      equal to data's first four characters. */
  ghost predicate VendorAccepted(data: string)
  {
    exists i :: 0 <= i < VendorCount && VidMatches(VendorRow(i), data)
  }

  /** mdev_device_add_model_id accepts data when some row, whatever its
      vendor id, has a product id equal to data's first four characters. */
  ghost predicate ModelAccepted(data: string)
  {
    exists i :: 0 <= i < VendorCount && PidMatches(VendorRow(i), data)
  }

  /** The table search of mdev_device_add_vendor_id. */
  method LookupVendor(data: string) returns (found: bool)
    ensures found <==> VendorAccepted(data)
  {
    var i := 0;
    while i < VendorCount
      invariant 0 <= i <= VendorCount
      invariant forall k :: 0 <= k < i ==> !VidMatches(VendorRow(k), data)
    {
      if VendorRow(i).vid.Some? && StrNEq(data, VendorRow(i).vid.value, VpidLen) {
        return true;
      }
      i := i + 1;
    }
    return false;
  }

  /** The table search of mdev_device_add_model_id. */
  method LookupModel(data: string) returns (found: bool)
    ensures found <==> ModelAccepted(data)
  {
    var i := 0;
    while i < VendorCount
      invariant 0 <= i <= VendorCount
      invariant forall k :: 0 <= k < i ==> !PidMatches(VendorRow(k), data)
    {
      if VendorRow(i).pid.Some? && StrNEq(data, VendorRow(i).pid.value, VpidLen) {
        return true;
      }
      i := i + 1;
    }
    return false;
  }

  /** A row whose own ids match vid and pid, the test mdev_device_add_driver
      applies to every row (the row's id is the first strncmp argument). */
  predicate RowMatches(e: Entry, vid: string, pid: string)
  {
    e.vid.Some? && StrNEq(e.vid.value, vid, VpidLen) && e.pid.Some? && StrNEq(e.pid.value, pid, VpidLen)
  }

  /** The family of the first row, at or after row i, whose own ids match
      vid and pid. */
  function DriverFrom(vid: string, pid: string, i: nat): (d: CStr)
    requires i <= VendorCount
    ensures d.None? <==> forall k :: i <= k < VendorCount ==> !RowMatches(VendorRow(k), vid, pid)
    ensures d.Some? ==> exists j :: i <= j < VendorCount && RowMatches(VendorRow(j), vid, pid) &&
                                    d.value == VendorRow(j).driver &&
                                    forall k :: i <= k < j ==> !RowMatches(VendorRow(k), vid, pid)
    decreases VendorCount - i
  {
    if i == VendorCount then None
    else if RowMatches(VendorRow(i), vid, pid) then Some(VendorRow(i).driver)
    else DriverFrom(vid, pid, i + 1)
  }

  /** The search loop of mdev_device_add_driver. */
  method FindDriver(vid: string, pid: string) returns (d: CStr)
    ensures d == DriverFrom(vid, pid, 0)
  {
    var i := 0;
    while i < VendorCount
      invariant 0 <= i <= VendorCount
      invariant DriverFrom(vid, pid, i) == DriverFrom(vid, pid, 0)
    {
      var e := VendorRow(i);
      if RowMatches(e, vid, pid) {
        return Some(e.driver);
      }
      i := i + 1;
    }
    return None;
  }

  /** Every id in the table has exactly VPID_LEN characters. */
  lemma RowIdsWellFormed(i: nat)
    requires i < VendorCount
    ensures VendorRow(i).vid.Some? ==> |VendorRow(i).vid.value| == VpidLen && VendorRow(i).vid.value in KnownVendorIds
    ensures VendorRow(i).pid.Some? ==> |VendorRow(i).pid.value| == VpidLen && VendorRow(i).pid.value in KnownProductIds
  {
  }

  /** The only row carrying the Telit ids 1bc7/0022 is the ge910 row, so it
      is the family mdev_device_add_driver gives every device. */
  lemma TelitIdsSelectGe910(i: nat)
    requires i < VendorCount && RowMatches(VendorRow(i), TelitVendorId, TelitProductId)
    ensures i == 37 && VendorRow(i).driver == "ge910"
  {
    RowIdsWellFormed(i);
    var e := VendorRow(i);
    assert Take(e.pid.value, VpidLen) == e.pid.value;
    assert Take(TelitProductId, VpidLen) == TelitProductId;
    assert e.pid.value == TelitProductId;
  }

  /** mdev_device_add_driver searches with the fixed Telit ids, so whatever
      vendor and model were found, the family it records is ge910. */
  lemma TelitDriverIsGe910()
    ensures DriverFrom(TelitVendorId, TelitProductId, 0) == Some("ge910")
  {
    var d := DriverFrom(TelitVendorId, TelitProductId, 0);
    TelitRowMatches();
    assert d.Some?;
    var j :| 0 <= j < VendorCount && RowMatches(VendorRow(j), TelitVendorId, TelitProductId) &&
             d.value == VendorRow(j).driver;
    TelitIdsSelectGe910(j);
  }

  lemma TelitRowMatches()
    ensures RowMatches(VendorRow(37), TelitVendorId, TelitProductId)
  {
    var e := VendorRow(37);
    assert e.vid.value == TelitVendorId && e.pid.value == TelitProductId;
  }

  /** The acceptance tests in closed form: the first four characters are
      one of the table's ids (proved equal to the table searches below). */
  predicate VendorKnown(data: string)
  {
    |data| >= 4 && data[..4] in KnownVendorIds
  }

  predicate ModelKnown(data: string)
  {
    |data| >= 4 && data[..4] in KnownProductIds
  }

  lemma {:induction false} VendorAcceptedByPrefix(data: string)
    ensures VendorAccepted(data) <==> VendorKnown(data)
  {
    if VendorAccepted(data) {
      var i :| 0 <= i < VendorCount && VidMatches(VendorRow(i), data);
      var v := VendorRow(i).vid.value;
      RowIdsWellFormed(i);
      StrNEqIsPrefix(data, v);
    }
    if |data| >= 4 && data[..4] in KnownVendorIds {
      var v := data[..4];
      var i := RowWithVid(v);
      StrNEqIsPrefix(data, v);
      assert VidMatches(VendorRow(i), data);
    }
  }

  /** A row carrying the given known vendor id. */
  function RowWithVid(v: string): (i: nat)
    requires v in KnownVendorIds
    ensures i < VendorCount && VendorRow(i).vid == Some(v)
  {
    if v == "230d" then 1 else if v == "19d2" then 2 else if v == "04e8" then 4
    else if v == "0421" then 6 else if v == "0bdb" then 8 else if v == "0fce" then 10
    else if v == "413c" then 12 else if v == "03f0" then 14 else if v == "0930" then 16
    else if v == "0af0" then 23 else if v == "201e" then 24 else if v == "12d1" then 25
    else if v == "1c9e" then 29 else if v == "2020" then 31 else if v == "1bbb" then 32
    else if v == "1410" then 33 else if v == "05c6" then 35 else if v == "1bc7" then 36
    else 45
  }

  /** A row carrying the given known product id. */
  function RowWithPid(p: string): (i: nat)
    requires p in KnownProductIds
    ensures i < VendorCount && VendorRow(i).pid == Some(p)
  {
    if p == "6872" then 4 else if p == "0633" then 6 else if p == "9e00" then 29
    else if p == "0017" then 32 else if p == "9000" then 35 else if p == "0022" then 37
    else if p == "0021" then 39 else if p == "060e" then 40 else if p == "0623" then 41
    else if p == "6889" then 42 else if p == "9090" then 44 else 45
  }

  lemma {:induction false} ModelAcceptedByPrefix(data: string)
    ensures ModelAccepted(data) <==> ModelKnown(data)
  {
    if ModelAccepted(data) {
      var i :| 0 <= i < VendorCount && PidMatches(VendorRow(i), data);
      var p := VendorRow(i).pid.value;
      RowIdsWellFormed(i);
      StrNEqIsPrefix(data, p);
    }
    if |data| >= 4 && data[..4] in KnownProductIds {
      var p := data[..4];
      var i := RowWithPid(p);
      StrNEqIsPrefix(data, p);
      assert PidMatches(VendorRow(i), data);
    }
  }

  /** The sysfs files end in a newline, which the four-character comparison
      ignores; a product id absent from the table (0099) is refused. */
  lemma TelitAttributeFiles()
    ensures VendorAccepted("1bc7\n") && ModelAccepted("0021\n") && !ModelAccepted("0099\n")
  {
    VendorAcceptedByPrefix("1bc7\n");
    ModelAcceptedByPrefix("0021\n");
    ModelAcceptedByPrefix("0099\n");
    assert "1bc7\n"[..4] == "1bc7";
    assert "0021\n"[..4] == "0021";
    assert "0099\n"[..4] == "0099";
  }
}
