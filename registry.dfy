/** The one modem the plugin keeps (the global modem_info): how a sysfs scan
    fills it, how it is turned into an oFono modem, and how hot-plug events
    drop it or schedule another attempt. The filesystem is a parameter: the
    contents of the attribute files and, for each root nftw is started on,
    the entries it visits and whether the walk succeeds. */
module Registry {
  import opened CString
  import opened CFormat
  import opened Identity
  import opened Device
  import opened Ofono
  import opened Classify
  import opened Uevent
  import opened ClassifyProps

  /** struct modem_info; created stands for a non-NULL modem->modem. */
  datatype ModemRecord = ModemRecord(
    syspath: CStr,
    devname: CStr,
    driver: CStr,
    vendor: CStr,
    model: CStr,
    devices: seq<DeviceInfo>,
    created: bool)

  /** The record g_try_new0 returns: every field NULL. */
  const Fresh: ModemRecord := ModemRecord(None, None, None, None, None, [], false)

  /** One entry nftw passes to its callback: the full path and the file
      name (fpath + ftwbuf->base). */
  datatype Visit = Visit(fpath: string, name: string)

  /** One nftw call: the entries visited, in order, and whether the walk
      returned something other than -1. */
  datatype Walk = Walk(visits: seq<Visit>, ok: bool)

  /** The sysfs tree as the scanner sees it. A root absent from walks is
      one nftw cannot open. */
  datatype Sysfs = Sysfs(files: Files, walks: map<string, Walk>)

  const DevicesPath: string := "/sys/devices/"
  const UsbPath: string := "/dev/bus/usb/"
  const VendorIdFile: string := "idVendor"
  const ProductIdFile: string := "idProduct"
  const FileNameSize: nat := 8

  /** The file-name tests of find_modem_info_file: both compare eight
      characters only. */
  predicate IsVendorFile(name: string)
  {
    StrNEq(name, VendorIdFile, FileNameSize)
  }

  predicate IsProductFile(name: string)
  {
    StrNEq(name, ProductIdFile, FileNameSize)
  }

  /** "idProduct" has nine characters, so any name starting with "idProduc"
      is read as a product id file. */
  lemma ProductNameComparedOnEightCharacters()
    ensures IsProductFile("idProduct") && IsProductFile("idProducer") && !IsProductFile("idVendor")
  {
    assert Take("idProducer", 8) == "idProduc";
    assert Take(ProductIdFile, 8) == "idProduc";
    assert Take("idVendor", 8) == "idVendor";
  }

  /** mdev_device_add_syspath_id: the path of the idVendor file without
      its last eight characters. */
  function SyspathOf(fpath: string): (r: string)
    ensures |fpath| >= |VendorIdFile| ==> |r| == |fpath| - |VendorIdFile| && r == fpath[..|r|]
  {
    Chop(fpath, |VendorIdFile|)
  }

  /** For the file <dir>idVendor, the syspath is dir. */
  lemma SyspathIsVendorDirectory(dir: string)
    ensures SyspathOf(dir + VendorIdFile) == dir
  {
    var f := dir + VendorIdFile;
    assert f[..|f| - |VendorIdFile|] == dir;
  }

  /** The two files mdev_device_add_devname reads under the syspath. */
  predicate DevnameReadable(files: Files, syspath: string)
  {
    syspath + "devpath" in files && syspath + "devnum" in files
  }

  /** mdev_device_add_devname: USB_PATH"%03d/%03d" of the atoi of both
      files. */
  function Devname(files: Files, syspath: string): (r: string)
    requires DevnameReadable(files, syspath)
    ensures HasPrefix(Some(r), UsbPath)
  {
    var r := UsbPath + FormatInt(Atoi(files[syspath + "devpath"]), 3) + "/" +
             FormatInt(Atoi(files[syspath + "devnum"]), 3);
    assert r[..|UsbPath|] == UsbPath;
    r
  }

  /** The device name splits on '/' into the bus and device numbers it was
      printed from. */
  lemma DevnameFields(files: Files, syspath: string)
    requires DevnameReadable(files, syspath)
    ensures var bus := Atoi(files[syspath + "devpath"]);
            var dev := Atoi(files[syspath + "devnum"]);
            Split(Devname(files, syspath), '/') == ["", "dev", "bus", "usb", FormatInt(bus, 3), FormatInt(dev, 3)] &&
            Atoi(FormatInt(bus, 3)) == bus && Atoi(FormatInt(dev, 3)) == dev
  {
    var bus := Atoi(files[syspath + "devpath"]);
    var dev := Atoi(files[syspath + "devnum"]);
    NumeralHasNoSlash(bus, 3);
    NumeralHasNoSlash(dev, 3);
    AtoiFormatInt(bus, 3);
    AtoiFormatInt(dev, 3);
    UsbPathFields(FormatInt(bus, 3), FormatInt(dev, 3));
  }

  lemma UsbPathFields(a: string, b: string)
    requires '/' !in a && '/' !in b
    ensures Split(UsbPath + a + "/" + b, '/') == ["", "dev", "bus", "usb", a, b]
  {
    var t0 := a + "/" + b;
    var t1 := "usb" + "/" + t0;
    var t2 := "bus" + "/" + t1;
    var t3 := "dev" + "/" + t2;
    assert Fields(t0, '/') == [a, b] by {
      FieldsWithoutSeparator(b, '/');
      FieldsSlash(a, b);
    }
    assert Fields(t1, '/') == ["usb", a, b] by {
      FieldsSlash("usb", t0);
    }
    assert Fields(t2, '/') == ["bus", "usb", a, b] by {
      FieldsSlash("bus", t1);
    }
    assert Fields(t3, '/') == ["dev", "bus", "usb", a, b] by {
      FieldsSlash("dev", t2);
    }
    assert Fields("" + "/" + t3, '/') == ["", "dev", "bus", "usb", a, b] by {
      FieldsSlash("", t3);
    }
    assert UsbPath + a + "/" + b == UsbPath + t0;
    UsbPathSpelled(t0);
  }

  lemma UsbPathSpelled(t: string)
    ensures UsbPath + t == "" + "/" + ("dev" + "/" + ("bus" + "/" + ("usb" + "/" + t)))
  {
  }

  /** What find_modem_info_file reads from a visited entry without
      checking: the id file itself and, for an accepted vendor id, the two
      files of mdev_device_add_devname. */
  predicate ModemFileReadable(files: Files, v: Visit)
  {
    ((IsVendorFile(v.name) || IsProductFile(v.name)) ==> v.fpath in files) &&
    (IsVendorFile(v.name) && VendorKnown(files[v.fpath]) ==> DevnameReadable(files, SyspathOf(v.fpath)))
  }

  predicate ModemFilesReadable(files: Files, visits: seq<Visit>)
  {
    forall i :: 0 <= i < |visits| ==> ModemFileReadable(files, visits[i])
  }

  /** The record's identity fields are either NULL or hold accepted ids,
      and an accepted vendor id always comes with its syspath and devname. */
  predicate IdentityInvariant(rec: ModemRecord)
  {
    (rec.vendor.Some? ==> VendorKnown(rec.vendor.value) && rec.syspath.Some? && rec.devname.Some?) &&
    (rec.model.Some? ==> ModelKnown(rec.model.value))
  }

  /** find_modem_info_file on one entry. */
  function VisitModemFile(files: Files, rec: ModemRecord, v: Visit): (r: ModemRecord)
    requires ModemFileReadable(files, v)
    ensures r.devices == rec.devices && r.driver == rec.driver && r.created == rec.created
    ensures IdentityInvariant(rec) ==> IdentityInvariant(r)
  {
    var afterVendor :=
      if IsVendorFile(v.name) && VendorKnown(files[v.fpath]) then
        var sp := SyspathOf(v.fpath);
        rec.(vendor := Some(files[v.fpath]), syspath := Some(sp), devname := Some(Devname(files, sp)))
      else rec;
    if IsProductFile(v.name) && ModelKnown(files[v.fpath]) then afterVendor.(model := Some(files[v.fpath]))
    else afterVendor
  }

  /** The callbacks of one walk from /sys/devices/, in visiting order. */
  function ScanModemInfo(files: Files, rec: ModemRecord, visits: seq<Visit>): (r: ModemRecord)
    requires ModemFilesReadable(files, visits)
    ensures r.devices == rec.devices && r.driver == rec.driver && r.created == rec.created
    ensures IdentityInvariant(rec) ==> IdentityInvariant(r)
    decreases |visits|
  {
    if visits == [] then rec
    else VisitModemFile(files, ScanModemInfo(files, rec, visits[..|visits| - 1]), visits[|visits| - 1])
  }

  /** An entry that sets the vendor fields. */
  predicate AcceptedVendorVisit(files: Files, v: Visit)
    requires ModemFileReadable(files, v)
  {
    IsVendorFile(v.name) && VendorKnown(files[v.fpath])
  }

  /** The last accepted idVendor file of the walk decides vendor, syspath
      and devname; earlier ones are overwritten. */
  lemma {:induction false} LastAcceptedVendorWins(files: Files, rec: ModemRecord, visits: seq<Visit>, k: nat)
    requires ModemFilesReadable(files, visits)
    requires k < |visits| && AcceptedVendorVisit(files, visits[k])
    requires forall j :: k < j < |visits| ==> !AcceptedVendorVisit(files, visits[j])
    ensures var r := ScanModemInfo(files, rec, visits);
            r.vendor == Some(files[visits[k].fpath]) && r.syspath == Some(SyspathOf(visits[k].fpath))
    decreases |visits|
  {
    var n := |visits| - 1;
    ScanLast(files, rec, visits);
    if k < n {
      LaterVisitsNotAccepted(files, visits, visits[..n], k);
      LastAcceptedVendorWins(files, rec, visits[..n], k);
      VisitVendorFields(files, ScanModemInfo(files, rec, visits[..n]), visits[n]);
    } else {
      VisitVendorFields(files, ScanModemInfo(files, rec, visits[..n]), visits[n]);
    }
  }

  /** The scan of a non-empty walk is the scan of all but its last entry,
      followed by the last entry. */
  lemma ScanLast(files: Files, rec: ModemRecord, visits: seq<Visit>)
    requires ModemFilesReadable(files, visits) && visits != []
    ensures ModemFilesReadable(files, visits[..|visits| - 1])
    ensures ModemFileReadable(files, visits[|visits| - 1])
    ensures ScanModemInfo(files, rec, visits) ==
            VisitModemFile(files, ScanModemInfo(files, rec, visits[..|visits| - 1]), visits[|visits| - 1])
  {
    var prefix := visits[..|visits| - 1];
    assert forall j :: 0 <= j < |prefix| ==> prefix[j] == visits[j];
  }

  lemma LaterVisitsNotAccepted(files: Files, visits: seq<Visit>, prefix: seq<Visit>, k: nat)
    requires ModemFilesReadable(files, visits) && k < |visits| - 1 && prefix == visits[..|visits| - 1]
    requires forall j :: k < j < |visits| ==> !AcceptedVendorVisit(files, visits[j])
    ensures ModemFilesReadable(files, prefix)
    ensures forall j :: k < j < |prefix| ==> !AcceptedVendorVisit(files, prefix[j])
    ensures !AcceptedVendorVisit(files, visits[|visits| - 1])
  {
    assert forall j :: 0 <= j < |prefix| ==> prefix[j] == visits[j];
  }

  /** One entry sets the vendor fields when it is an accepted idVendor
      file and leaves them alone otherwise. */
  lemma VisitVendorFields(files: Files, rec: ModemRecord, v: Visit)
    requires ModemFileReadable(files, v)
    ensures var r := VisitModemFile(files, rec, v);
            if AcceptedVendorVisit(files, v) then
              r.vendor == Some(files[v.fpath]) && r.syspath == Some(SyspathOf(v.fpath))
            else
              r.vendor == rec.vendor && r.syspath == rec.syspath && r.devname == rec.devname
  {
  }

  /** Without an accepted idVendor file the vendor fields stay as they
      were. */
  lemma {:induction false} NoVendorKeepsVendor(files: Files, rec: ModemRecord, visits: seq<Visit>)
    requires ModemFilesReadable(files, visits)
    requires forall j :: 0 <= j < |visits| ==> !AcceptedVendorVisit(files, visits[j])
    ensures var r := ScanModemInfo(files, rec, visits);
            r.vendor == rec.vendor && r.syspath == rec.syspath && r.devname == rec.devname
    decreases |visits|
  {
    if visits != [] {
      var prefix := visits[..|visits| - 1];
      ScanLast(files, rec, visits);
      assert forall j :: 0 <= j < |prefix| ==> prefix[j] == visits[j];
      NoVendorKeepsVendor(files, rec, prefix);
      VisitVendorFields(files, ScanModemInfo(files, rec, prefix), visits[|visits| - 1]);
    }
  }

  /** mdev_device_add_driver, applied when the vendor is set: the lookup
      uses the fixed Telit ids, not the ids just read. */
  function WithDriver(rec: ModemRecord): (r: ModemRecord)
    ensures r.(driver := rec.driver) == rec
    ensures rec.vendor.Some? && rec.model.Some? ==> r.driver == Some("ge910")
    ensures !(rec.vendor.Some? && rec.model.Some?) ==> r == rec
  {
    TelitDriverIsGe910();
    if rec.vendor.Some? && rec.model.Some? && DriverFrom(TelitVendorId, TelitProductId, 0).Some? then
      rec.(driver := DriverFrom(TelitVendorId, TelitProductId, 0))
    else rec
  }

  /** get_modem_info from a record start: NULL when nftw fails, the
      scanned identity otherwise, with the driver when a vendor was
      found. */
  function ModemInfo(sys: Sysfs, start: ModemRecord): (r: Option<ModemRecord>)
    requires DevicesPath in sys.walks ==> ModemFilesReadable(sys.files, sys.walks[DevicesPath].visits)
    ensures r.Some? ==> r.value.devices == start.devices && r.value.created == start.created
    ensures r.Some? && IdentityInvariant(start) ==> IdentityInvariant(r.value)
  {
    if DevicesPath !in sys.walks || !sys.walks[DevicesPath].ok then None
    else
      var info := ScanModemInfo(sys.files, start, sys.walks[DevicesPath].visits);
      Some(if info.vendor.Some? then WithDriver(info) else info)
  }

  /** A device entry as the scanner builds it. */
  predicate Collected(d: DeviceInfo)
  {
    d.devpath.Some? && d.devnode.Some? && d.number.Some? && IsDecimal(d.number.value) && d.portLabel.None?
  }

  predicate AllCollected(devs: seq<DeviceInfo>)
  {
    forall i :: 0 <= i < |devs| ==> Collected(devs[i])
  }

  /** What find_device_info_file reads from every ttyACM entry. */
  predicate DeviceFilesReadable(files: Files, visits: seq<Visit>)
  {
    forall i :: 0 <= i < |visits| ==> IsTtyAcm(visits[i].name) ==> Readable(files, visits[i].fpath, visits[i].name)
  }

  /** The entries the device walk builds, in visiting order. */
  function Collect(files: Files, visits: seq<Visit>): (r: seq<DeviceInfo>)
    requires DeviceFilesReadable(files, visits)
    ensures AllCollected(r)
    decreases |visits|
  {
    if visits == [] then []
    else
      var v := visits[|visits| - 1];
      var prev := Collect(files, visits[..|visits| - 1]);
      if IsTtyAcm(v.name) then prev + [MakeInfo(files, v.fpath, v.name)] else prev
  }

  /** The callbacks of the walk from the syspath: each ttyACM entry is
      inserted into the list in interface-number order. The result is the
      old list and the collected entries, sorted, nothing lost and nothing
      merged. */
  function ScanDevices(files: Files, devs: seq<DeviceInfo>, visits: seq<Visit>): (r: seq<DeviceInfo>)
    requires DeviceFilesReadable(files, visits)
    ensures multiset(r) == multiset(devs) + multiset(Collect(files, visits))
    ensures Sorted(devs) ==> Sorted(r)
    ensures AllCollected(devs) ==> AllCollected(r)
    decreases |visits|
  {
    if visits == [] then devs
    else
      var v := visits[|visits| - 1];
      var prev := ScanDevices(files, devs, visits[..|visits| - 1]);
      if IsTtyAcm(v.name) then
        var info := MakeInfo(files, v.fpath, v.name);
        InsertSortedPermutes(prev, info);
        InsertSortedCollected(prev, info);
        InsertSortedSorted(prev, info);
        InsertSorted(prev, info)
      else prev
  }

  lemma InsertSortedSorted(s: seq<DeviceInfo>, x: DeviceInfo)
    ensures Sorted(s) ==> Sorted(InsertSorted(s, x))
  {
    if Sorted(s) {
      InsertSortedKeepsOrder(s, x);
    }
  }

  lemma InsertSortedCollected(s: seq<DeviceInfo>, x: DeviceInfo)
    requires Collected(x)
    ensures AllCollected(s) ==> AllCollected(InsertSorted(s, x))
  {
    var k := InsertIndex(s, x);
    var r := InsertSorted(s, x);
    if AllCollected(s) {
      forall i | 0 <= i < |r|
        ensures Collected(r[i])
      {
        if i < k { assert r[i] == s[i]; }
        else if i > k { assert r[i] == s[i - 1]; }
      }
    }
  }

  /** What a scan reads without checking: the identity files of the walk
      from /sys/devices/ and, when that walk finds a vendor, the interface
      files under the syspath. */
  predicate ScanReadable(sys: Sysfs)
  {
    (DevicesPath in sys.walks ==> ModemFilesReadable(sys.files, sys.walks[DevicesPath].visits)) &&
    var m := ModemInfo(sys, Fresh);
    (m.Some? && m.value.vendor.Some? && m.value.syspath.value in sys.walks ==>
       DeviceFilesReadable(sys.files, sys.walks[m.value.syspath.value].visits))
  }

  /** A record add_devices can return. */
  predicate WellFormed(rec: ModemRecord)
  {
    rec.vendor.Some? && VendorKnown(rec.vendor.value) &&
    rec.model.Some? && ModelKnown(rec.model.value) &&
    rec.syspath.Some? && rec.devname.Some? &&
    rec.driver == Some("ge910") &&
    Sorted(rec.devices) && AllCollected(rec.devices)
  }

  /** The ids of a scanned record are ones the table searches of
      mdev_device_add_vendor_id and mdev_device_add_model_id accept. */
  lemma WellFormedIdsAccepted(rec: ModemRecord)
    requires WellFormed(rec)
    ensures VendorAccepted(rec.vendor.value) && ModelAccepted(rec.model.value)
  {
    VendorAcceptedByPrefix(rec.vendor.value);
    ModelAcceptedByPrefix(rec.model.value);
  }

  /** add_devices: a record only when both walks succeed and both ids were
      accepted. */
  function Scan(sys: Sysfs): (r: Option<ModemRecord>)
    requires ScanReadable(sys)
    ensures r.Some? ==> WellFormed(r.value) && !r.value.created
    ensures r.Some? ==> r.value.syspath.value in sys.walks &&
                        DeviceFilesReadable(sys.files, sys.walks[r.value.syspath.value].visits) &&
                        multiset(r.value.devices) ==
                        multiset(Collect(sys.files, sys.walks[r.value.syspath.value].visits))
  {
    var m := ModemInfo(sys, Fresh);
    if m.None? || m.value.vendor.None? then None
    else
      var root := m.value.syspath.value;
      if root !in sys.walks || !sys.walks[root].ok then None
      else if m.value.model.None? then None
      else Some(m.value.(devices := ScanDevices(sys.files, m.value.devices, sys.walks[root].visits)))
  }

  /** The failed walks: a scan finds nothing when the /sys/devices/ walk
      fails, when it finds no accepted idVendor or idProduct file, or when
      the walk of the syspath fails. */
  lemma ScanFailures(sys: Sysfs)
    requires ScanReadable(sys)
    ensures (DevicesPath !in sys.walks || !sys.walks[DevicesPath].ok) ==> Scan(sys).None?
    ensures var m := ModemInfo(sys, Fresh);
            (m.Some? && (m.value.vendor.None? || m.value.model.None?)) ==> Scan(sys).None?
    ensures var m := ModemInfo(sys, Fresh);
            (m.Some? && m.value.vendor.Some? &&
             (m.value.syspath.value !in sys.walks || !sys.walks[m.value.syspath.value].ok)) ==> Scan(sys).None?
  {
  }

  /** The ttyACM nodes of the device list must all exist. */
  predicate NodesExist(devs: seq<DeviceInfo>, existing: set<string>)
  {
    forall i :: 0 <= i < |devs| ==> devs[i].devnode.Some? && devs[i].devnode.value in existing
  }

  /** The loop of create_modem over driver_list from row i: the properties
      of the first row named driver whose setup accepts the devices. */
  function Dispatch(driver: string, model: CStr, devs: seq<DeviceInfo>, i: nat): (r: Option<seq<Effect>>)
    requires i <= DriverCount
    ensures r.Some? ==> exists k :: i <= k < DriverCount && DriverRow(k).name == driver &&
                                    r == Setup(DriverRow(k).setup, model, devs)
    ensures r.Some? ==> forall j :: 0 <= j < |r.value| ==> IsProperty(r.value[j])
    decreases DriverCount - i
  {
    if i == DriverCount then None
    else if DriverRow(i).name == driver && Setup(DriverRow(i).setup, model, devs).Some? then
      Setup(DriverRow(i).setup, model, devs)
    else Dispatch(driver, model, devs, i + 1)
  }

  /** Rows named ge910: only row 15. */
  lemma {:induction false} DispatchSkipsOtherNames(model: CStr, devs: seq<DeviceInfo>, i: nat)
    requires i <= DriverCount
    ensures Dispatch("ge910", model, devs, i) ==
            (if i <= 15 then Setup(SetupGe910, model, devs) else None)
    decreases DriverCount - i
  {
    if i < DriverCount {
      DispatchSkipsOtherNames(model, devs, i + 1);
      if i != 15 {
        assert DriverRow(15).name == "ge910";
        if i < 15 { DriverNamesDistinct(i, 15); } else { DriverNamesDistinct(15, i); }
      }
    }
  }

  /** Every scanned record is named ge910, so create_modem's dispatch is
      the ge910 classification. */
  lemma DispatchOfScannedRecord(rec: ModemRecord)
    requires WellFormed(rec)
    ensures Dispatch(rec.driver.value, rec.model, rec.devices, 0) == Setup(SetupGe910, rec.model, rec.devices)
  {
    DispatchSkipsOtherNames(rec.model, rec.devices, 0);
  }

  /** The result of create_modem: its return value, the record afterwards
      and the calls into oFono. */
  datatype Outcome = Outcome(ret: bool, record: ModemRecord, effects: seq<Effect>)

  /** create_modem on rec: refuse an already created modem, an empty list or
      a missing node; otherwise create the oFono modem, keep its handle and
      register it when a setup routine accepts the devices. */
  function Create(rec: ModemRecord, existing: set<string>, createOk: bool): (o: Outcome)
    requires rec.driver.Some?
    ensures o.record.(created := rec.created) == rec
    ensures o.ret ==> o.record.created && ModemRegister !in o.effects
    ensures rec.created ==> o == Outcome(false, rec, [])
  {
    if rec.created || rec.devices == [] || !NodesExist(rec.devices, existing) then Outcome(false, rec, [])
    else if !createOk then Outcome(false, rec, [ModemCreate(rec.driver)])
    else
      var made := rec.(created := true);
      match Dispatch(rec.driver.value, rec.model, rec.devices, 0)
      case Some(props) =>
        Outcome(false, made, [ModemCreate(rec.driver)] + props + [ModemRegister])
      case None =>
        assert ModemRegister !in [ModemCreate(rec.driver)];
        Outcome(true, made, [ModemCreate(rec.driver)])
  }

  /** The modem is registered exactly when it was not created before, has
      devices whose nodes all exist, oFono creates it and a setup routine
      of its driver accepts the devices. */
  lemma RegisteredIff(rec: ModemRecord, existing: set<string>, createOk: bool)
    requires rec.driver.Some?
    ensures var o := Create(rec, existing, createOk);
            ModemRegister in o.effects <==>
              !rec.created && rec.devices != [] && NodesExist(rec.devices, existing) && createOk &&
              Dispatch(rec.driver.value, rec.model, rec.devices, 0).Some?
  {
    var o := Create(rec, existing, createOk);
    if !rec.created && rec.devices != [] && NodesExist(rec.devices, existing) && createOk {
      var d := Dispatch(rec.driver.value, rec.model, rec.devices, 0);
      if d.Some? {
        assert o.effects[|o.effects| - 1] == ModemRegister;
      } else {
        assert o.effects == [ModemCreate(rec.driver)];
      }
    }
  }

  /** The registered effects: the create call, the properties of the
      setup routine, then the register call. */
  lemma RegisteredEffects(rec: ModemRecord, existing: set<string>, createOk: bool)
    requires WellFormed(rec)
    requires !rec.created && rec.devices != [] && NodesExist(rec.devices, existing) && createOk
    requires Setup(SetupGe910, rec.model, rec.devices).Some?
    ensures Create(rec, existing, createOk) ==
            Outcome(false, rec.(created := true),
                    [ModemCreate(Some("ge910"))] + Setup(SetupGe910, rec.model, rec.devices).value + [ModemRegister])
  {
    DispatchOfScannedRecord(rec);
  }

  /** try_to_create_modem returns !create_modem, and create_modem returns
      FALSE for a modem it registered and for every later call, so the
      3-second timer never stops once the modem exists. */
  lemma RetryNeverStopsAfterRegistration(rec: ModemRecord, existing: set<string>, createOk: bool,
                                         existing2: set<string>, createOk2: bool)
    requires rec.driver.Some?
    requires ModemRegister in Create(rec, existing, createOk).effects
    ensures var next := Create(rec, existing, createOk).record;
            next.driver.Some? && Create(next, existing2, createOk2) == Outcome(false, next, [])
  {
    RegisteredIff(rec, existing, createOk);
  }

  /** The only stop: the modem was created but no setup routine accepted
      it; it stays created and unregistered. */
  lemma RetryStopsOnlyWhenUnclassified(rec: ModemRecord, existing: set<string>, createOk: bool)
    requires rec.driver.Some?
    ensures var o := Create(rec, existing, createOk);
            o.ret <==> !rec.created && rec.devices != [] && NodesExist(rec.devices, existing) && createOk &&
                       Dispatch(rec.driver.value, rec.model, rec.devices, 0).None?
  {
  }

  /** A device whose devpath is in the record's list. */
  predicate Logged(m: Option<ModemRecord>, devpath: string)
  {
    m.Some? && exists i :: 0 <= i < |m.value.devices| && m.value.devices[i].devpath == Some(devpath)
  }

  /** The calls device_info_delete makes: remove the oFono modem if it
      was created. */
  function Removal(m: Option<ModemRecord>): (effects: seq<Effect>)
    ensures ModemRemove in effects <==> m.Some? && m.value.created
    ensures |effects| <= 1
  {
    if m.Some? && m.value.created then [ModemRemove] else []
  }

  /** mdev_event_on_usb once the buffer is read: the modem afterwards and
      the calls made. */
  function Handle(m: Option<ModemRecord>, msg: string): (r: (Option<ModemRecord>, seq<Effect>))
    ensures r.0 == m || r.0.None?
    ensures TimerAdd(3) in r.1 ==> m.None? && Action(msg) == "add"
  {
    if FirstSubsystem(Split(msg, '/')).None? then (m, [])
    else if Action(msg) == "add" then (m, if m.None? then [TimerAdd(3)] else [])
    else if Action(msg) == "remove" && Logged(m, EventDevpath(msg)) then (None, Removal(m))
    else (m, [])
  }

  /** An "add" event schedules a scan exactly when there is no modem; the
      event's path is not consulted. */
  lemma AddSchedulesOnlyWithoutModem(m: Option<ModemRecord>, msg: string)
    requires FirstSubsystem(Split(msg, '/')).Some? && Action(msg) == "add"
    ensures Handle(m, msg).0 == m
    ensures Handle(m, msg).1 == (if m.None? then [TimerAdd(3)] else [])
  {
  }

  /** A "remove" event drops the modem exactly when the removed device is
      one of its interfaces; the oFono modem is removed only if it was
      created. */
  lemma RemoveDropsOnlyLoggedDevice(m: Option<ModemRecord>, msg: string)
    requires FirstSubsystem(Split(msg, '/')).Some? && Action(msg) == "remove"
    ensures Handle(m, msg).0.None? <==> m.None? || Logged(m, EventDevpath(msg))
    ensures ModemRemove in Handle(m, msg).1 <==> Logged(m, EventDevpath(msg)) && m.value.created
    ensures !Logged(m, EventDevpath(msg)) ==> Handle(m, msg) == (m, [])
  {
  }

  /** An event whose action is neither "add" nor "remove" changes nothing,
      whatever its subsystem. */
  lemma OtherActionIgnored(m: Option<ModemRecord>, msg: string)
    requires Action(msg) != "add" && Action(msg) != "remove"
    ensures Handle(m, msg) == (m, [])
  {
  }

  /** Removing the ttyACM interface at path drops the modem that holds it:
      the event header names the device path without "/sys". */
  lemma RemoveEventForListedInterface(rec: ModemRecord, i: nat, path: string)
    requires i < |rec.devices| && rec.devices[i].devpath == Some("/sys" + path)
    requires '@' !in path
    requires FirstSubsystem(Split("remove@" + path, '/')).Some?
    ensures Handle(Some(rec), "remove@" + path) == (None, Removal(Some(rec)))
  {
    DecodeHeader("remove", path);
    assert "remove" + "@" + path == "remove@" + path;
    assert Some(rec).value.devices[i].devpath == Some(EventDevpath("remove@" + path));
  }

  /** Events without a tty, net or hsi component change nothing. */
  lemma IrrelevantEventIgnored(m: Option<ModemRecord>, msg: string)
    requires FirstSubsystem(Split(msg, '/')).None?
    ensures Handle(m, msg) == (m, [])
  {
  }

  /** The plugin's state. */
  class Registry {
    var modem: Option<ModemRecord>

    ghost predicate Valid()
      reads this
    {
      modem.Some? ==> WellFormed(modem.value)
    }

    /** The plugin is loaded with no modem. */
    constructor()
      ensures modem.None? && Valid()
    {
      modem := None;
    }

    /** mdev_device_add_vendor_id. */
    method AddVendorId(data: string) returns (accepted: bool)
      requires modem.Some?
      modifies this
      ensures accepted <==> VendorAccepted(data)
      ensures accepted <==> VendorKnown(data)
      ensures modem == if accepted then Some(old(modem).value.(vendor := Some(data))) else old(modem)
    {
      accepted := LookupVendor(data);
      VendorAcceptedByPrefix(data);
      if accepted {
        modem := Some(modem.value.(vendor := Some(data)));
      }
    }

    /** mdev_device_add_model_id. */
    method AddModelId(data: string) returns (accepted: bool)
      requires modem.Some?
      modifies this
      ensures accepted <==> ModelAccepted(data)
      ensures accepted <==> ModelKnown(data)
      ensures modem == if accepted then Some(old(modem).value.(model := Some(data))) else old(modem)
    {
      accepted := LookupModel(data);
      ModelAcceptedByPrefix(data);
      if accepted {
        modem := Some(modem.value.(model := Some(data)));
      }
    }

    /** mdev_device_add_syspath_id. */
    method AddSyspathId(fpath: string)
      requires modem.Some?
      modifies this
      ensures modem == Some(old(modem).value.(syspath := Some(SyspathOf(fpath))))
    {
      modem := Some(modem.value.(syspath := Some(SyspathOf(fpath))));
    }

    /** mdev_device_add_devname. */
    method AddDevname(files: Files, path: string)
      requires modem.Some? && DevnameReadable(files, path)
      modifies this
      ensures modem == Some(old(modem).value.(devname := Some(Devname(files, path))))
    {
      var devpath := Atoi(files[path + "devpath"]);
      var devnum := Atoi(files[path + "devnum"]);
      modem := Some(modem.value.(devname := Some(UsbPath + FormatInt(devpath, 3) + "/" + FormatInt(devnum, 3))));
    }

    /** mdev_device_add_driver. */
    method AddDriver()
      requires modem.Some?
      modifies this
      ensures modem == Some(WithDriver(old(modem).value))
    {
      var rec := modem.value;
      if rec.vendor.Some? && rec.model.Some? {
        var d := FindDriver(TelitVendorId, TelitProductId);
        if d.Some? {
          modem := Some(rec.(driver := d));
        }
      }
    }

    /** find_modem_info_file. */
    method FindModemInfoFile(files: Files, v: Visit)
      requires modem.Some? && ModemFileReadable(files, v)
      modifies this
      ensures modem == Some(VisitModemFile(files, old(modem).value, v))
    {
      if StrNEq(v.name, VendorIdFile, FileNameSize) {
        var data := files[v.fpath];
        var accepted := AddVendorId(data);
        if accepted {
          AddSyspathId(v.fpath);
          AddDevname(files, modem.value.syspath.value);
        }
      }
      if StrNEq(v.name, ProductIdFile, FileNameSize) {
        var data := files[v.fpath];
        var accepted := AddModelId(data);
      }
    }

    /** get_modem_info. */
    method GetModemInfo(sys: Sysfs)
      requires modem.Some?
      requires DevicesPath in sys.walks ==> ModemFilesReadable(sys.files, sys.walks[DevicesPath].visits)
      modifies this
      ensures modem == ModemInfo(sys, old(modem).value)
    {
      if DevicesPath in sys.walks {
        var w := sys.walks[DevicesPath];
        var start := modem.value;
        var i := 0;
        while i < |w.visits|
          invariant 0 <= i <= |w.visits|
          invariant modem == Some(ScanModemInfo(sys.files, start, w.visits[..i]))
        {
          assert w.visits[..i + 1][..i] == w.visits[..i];
          FindModemInfoFile(sys.files, w.visits[i]);
          i := i + 1;
        }
        assert w.visits[..i] == w.visits;
        if !w.ok {
          ModemInfoDelete();
        }
      } else {
        ModemInfoDelete();
      }
      if modem.Some? && modem.value.vendor.Some? {
        AddDriver();
      }
    }

    /** mdev_device_add_info_in_list. */
    method AddInfoInList(info: DeviceInfo)
      requires modem.Some?
      modifies this
      ensures modem == Some(old(modem).value.(devices := InsertSorted(old(modem).value.devices, info)))
    {
      modem := Some(modem.value.(devices := InsertSorted(modem.value.devices, info)));
    }

    /** find_device_info_file: every ttyACM entry becomes a device entry. */
    method FindDeviceInfoFile(files: Files, v: Visit)
      requires modem.Some? && (IsTtyAcm(v.name) ==> Readable(files, v.fpath, v.name))
      modifies this
      ensures modem == Some(old(modem).value.(devices := ScanDevices(files, old(modem).value.devices, [v])))
    {
      assert [v][..0] == [];
      if StrNEq(v.name, "ttyACM", 6) {
        var info := MakeInfo(files, v.fpath, v.name);
        AddInfoInList(info);
      }
    }

    /** The callbacks of one device walk, in visiting order. */
    method WalkDevices(files: Files, visits: seq<Visit>)
      requires modem.Some? && DeviceFilesReadable(files, visits)
      modifies this
      ensures modem == Some(old(modem).value.(devices := ScanDevices(files, old(modem).value.devices, visits)))
    {
      var start := modem.value;
      var i := 0;
      while i < |visits|
        invariant 0 <= i <= |visits|
        invariant modem == Some(start.(devices := ScanDevices(files, start.devices, visits[..i])))
      {
        DevicesStep(files, start.devices, visits, i);
        FindDeviceInfoFile(files, visits[i]);
        i := i + 1;
      }
      assert visits[..i] == visits;
    }

    /** get_device_info: the walk from the syspath; when nftw fails the
      device list is dropped. */
    method GetDeviceInfo(sys: Sysfs) returns (ok: bool, effects: seq<Effect>)
      requires modem.Some? && modem.value.syspath.Some?
      requires modem.value.syspath.value in sys.walks ==>
               DeviceFilesReadable(sys.files, sys.walks[modem.value.syspath.value].visits)
      modifies this
      ensures var root := old(modem).value.syspath.value;
              ok <==> root in sys.walks && sys.walks[root].ok
      ensures ok ==> (effects == [] &&
              modem == Some(old(modem).value.(devices := ScanDevices(sys.files, old(modem).value.devices,
                                                                    sys.walks[old(modem).value.syspath.value].visits))))
      ensures !ok ==> (effects == Removal(old(modem)) &&
                       modem == Some(old(modem).value.(devices := [], created := false)))
    {
      var root := modem.value.syspath.value;
      if root in sys.walks {
        WalkDevices(sys.files, sys.walks[root].visits);
        if sys.walks[root].ok {
          return true, [];
        }
      }
      effects := DeviceInfoDelete();
      ok := false;
    }

    /** device_info_delete: remove the oFono modem if it exists and drop
      the device list. */
    method DeviceInfoDelete() returns (effects: seq<Effect>)
      modifies this
      ensures effects == Removal(old(modem))
      ensures modem == if old(modem).Some? then Some(old(modem).value.(devices := [], created := false)) else None
    {
      effects := [];
      if modem.Some? {
        if modem.value.created {
          effects := [ModemRemove];
        }
        modem := Some(modem.value.(devices := [], created := false));
      }
    }

    /** modem_info_delete. */
    method ModemInfoDelete()
      modifies this
      ensures modem.None?
    {
      modem := None;
    }

    /** remove_devices. */
    method RemoveDevices() returns (effects: seq<Effect>)
      modifies this
      ensures modem.None? && Valid()
      ensures effects == Removal(old(modem))
    {
      effects := DeviceInfoDelete();
      ModemInfoDelete();
    }

    /** add_devices: replaces the record by a fresh scan. */
    method AddDevices(sys: Sysfs) returns (ok: bool)
      requires ScanReadable(sys)
      modifies this
      ensures modem == Scan(sys) && (ok <==> modem.Some?) && Valid()
    {
      modem := Some(Fresh);
      GetModemInfo(sys);
      if modem.Some? && modem.value.vendor.Some? {
        var found, effects := GetDeviceInfo(sys);
        if !found {
          ModemInfoDelete();
          return false;
        }
      } else {
        ModemInfoDelete();
        return false;
      }
      if modem.value.model.None? {
        ModemInfoDelete();
        return false;
      }
      return true;
    }

    /** create_modem. */
    method CreateModem(existing: set<string>, createOk: bool) returns (ret: bool, effects: seq<Effect>)
      requires modem.Some? && Valid()
      modifies this
      ensures modem.Some? && Valid()
      ensures Outcome(ret, modem.value, effects) == Create(old(modem).value, existing, createOk)
    {
      var rec := modem.value;
      if rec.created {
        return false, [];
      }
      if rec.devices == [] {
        return false, [];
      }
      var present := NodesPresent(rec.devices, existing);
      if !present {
        return false, [];
      }
      effects := [ModemCreate(rec.driver)];
      if !createOk {
        return false, effects;
      }
      modem := Some(rec.(created := true));
      var props := RunSetups(rec.driver.value, rec.model, rec.devices);
      if props.Some? {
        return false, effects + props.value + [ModemRegister];
      }
      return true, effects;
    }

    /** try_to_create_modem, the body of the 3-second timer: scan first when
      there is no modem, then create; the timer stays when it returns
      TRUE. */
    method TryToCreateModem(sys: Sysfs, existing: set<string>, createOk: bool)
      returns (reschedule: bool, effects: seq<Effect>)
      requires Valid() && (modem.None? ==> ScanReadable(sys))
      modifies this
      ensures Valid()
      ensures old(modem).None? && Scan(sys).None? ==> reschedule && effects == [] && modem.None?
      ensures old(modem).Some? || Scan(sys).Some? ==>
                var o := Create(if old(modem).Some? then old(modem).value else Scan(sys).value, existing, createOk);
                modem == Some(o.record) && reschedule == !o.ret && effects == o.effects
    {
      if modem.None? {
        var ok := AddDevices(sys);
        if !ok {
          return true, [];
        }
      }
      var ret;
      ret, effects := CreateModem(existing, createOk);
      reschedule := !ret;
    }

    /** check_if_device_is_already_logged. */
    method IsLogged(subpath: CStr) returns (r: bool)
      requires Valid()
      ensures r == Logged(modem, if subpath.Some? then "/sys" + subpath.value else "/sys")
    {
      var tmp := if subpath.Some? then "/sys" + subpath.value else "/sys";
      r := false;
      if modem.Some? {
        var devs := modem.value.devices;
        var i := 0;
        while i < |devs|
          invariant 0 <= i <= |devs|
          invariant r <==> exists k :: 0 <= k < i && devs[k].devpath == Some(tmp)
        {
          if devs[i].devpath.value == tmp {
            r := true;
          }
          i := i + 1;
        }
      }
    }

    /** check_if_device_is_already_unlogged: the list is searched but the
      answer is TRUE only when there is no modem at all. */
    method IsUnlogged(subpath: CStr) returns (r: bool)
      requires Valid()
      ensures r <==> modem.None?
    {
      var tmp := if subpath.Some? then "/sys" + subpath.value else "/sys";
      if modem.None? {
        r := true;
      } else {
        r := false;
        var devs := modem.value.devices;
        var i := 0;
        while i < |devs|
          invariant 0 <= i <= |devs| && !r
        {
          if devs[i].devpath.value == tmp {
            r := false;
          }
          i := i + 1;
        }
      }
    }

    /** mdev_event_on_usb: a channel error removes the watch; otherwise the
      header is decoded and handled, and the watch stays. */
    method OnEvent(channelError: bool, msg: string) returns (keep: bool, effects: seq<Effect>)
      requires Valid()
      modifies this
      ensures Valid()
      ensures channelError ==> !keep && effects == [] && modem == old(modem)
      ensures !channelError ==> keep && (modem, effects) == Handle(old(modem), msg)
    {
      if channelError {
        return false, [];
      }
      effects := [];
      var subsystem := GetSubsystem(msg);
      if subsystem.None? {
        return true, [];
      }
      var action := Action(msg);
      var subpath := Subpath(msg);
      if action == "add" {
        var unlogged := IsUnlogged(subpath);
        if unlogged {
          effects := [TimerAdd(3)];
        }
      } else if action == "remove" {
        var logged := IsLogged(subpath);
        if logged {
          effects := RemoveDevices();
        }
      }
      keep := true;
    }

    /** detect_init, without the netlink socket: scan and, when a modem was
      found, create it once. */
    method DetectInit(sys: Sysfs, existing: set<string>, createOk: bool) returns (effects: seq<Effect>)
      requires ScanReadable(sys)
      modifies this
      ensures Valid()
      ensures Scan(sys).None? ==> modem.None? && effects == []
      ensures Scan(sys).Some? ==> var o := Create(Scan(sys).value, existing, createOk);
                                  modem == Some(o.record) && effects == o.effects
    {
      effects := [];
      var ok := AddDevices(sys);
      if ok {
        var ret;
        ret, effects := CreateModem(existing, createOk);
      }
    }

    /** detect_exit. */
    method DetectExit() returns (effects: seq<Effect>)
      modifies this
      ensures modem.None? && effects == Removal(old(modem))
    {
      effects := RemoveDevices();
    }
  }

  /** The node test of create_modem: g_file_test on every devnode, a NULL
      one failing. */
  method NodesPresent(devs: seq<DeviceInfo>, existing: set<string>) returns (b: bool)
    ensures b <==> NodesExist(devs, existing)
  {
    var i := 0;
    while i < |devs|
      invariant 0 <= i <= |devs|
      invariant forall k :: 0 <= k < i ==> devs[k].devnode.Some? && devs[k].devnode.value in existing
    {
      var node := devs[i].devnode;
      if node.None? || node.value !in existing {
        return false;
      }
      i := i + 1;
    }
    return true;
  }

  /** The driver_list loop of create_modem: every row named driver runs its
      setup until one returns TRUE. */
  method RunSetups(driver: string, model: CStr, devs: seq<DeviceInfo>) returns (props: Option<seq<Effect>>)
    ensures props == Dispatch(driver, model, devs, 0)
  {
    var j := 0;
    while j < DriverCount
      invariant 0 <= j <= DriverCount
      invariant Dispatch(driver, model, devs, j) == Dispatch(driver, model, devs, 0)
    {
      var row := DriverRow(j);
      if row.name == driver {
        var r := Setup(row.setup, model, devs);
        if r.Some? {
          return r;
        }
      }
      j := j + 1;
    }
    return None;
  }

  /** One more entry of the device walk. */
  lemma DevicesStep(files: Files, devs: seq<DeviceInfo>, visits: seq<Visit>, i: nat)
    requires i < |visits| && DeviceFilesReadable(files, visits)
    ensures DeviceFilesReadable(files, visits[..i]) && DeviceFilesReadable(files, [visits[i]])
    ensures ScanDevices(files, devs, visits[..i + 1]) ==
            ScanDevices(files, ScanDevices(files, devs, visits[..i]), [visits[i]])
  {
    assert visits[..i + 1][..i] == visits[..i];
    assert [visits[i]][..0] == [];
  }
}
