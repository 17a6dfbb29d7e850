/** What the classifiers find, stated against the device list instead of
    the loop: which roles get set, when each family succeeds, and which of
    their branches interface records built by the scanner can reach. */
module ClassifyProps {
  import opened CString
  import opened CFormat
  import opened Device
  import opened Ofono
  import opened Classify
  import Identity

  /** Every interface has a device node, as every scanned record does. */
  predicate AllNodes(devs: seq<DeviceInfo>)
  {
    forall i :: 0 <= i < |devs| ==> devs[i].devnode.Some?
  }

  /** Some element of s satisfies p. */
  predicate Exists<T>(s: seq<T>, p: T -> bool)
  {
    exists i :: 0 <= i < |s| && p(s[i])
  }

  /** Two elements of s, in order, satisfy p. */
  predicate ExistsPair<T>(s: seq<T>, p: T -> bool)
  {
    exists i, j :: 0 <= i < j < |s| && p(s[i]) && p(s[j])
  }

  lemma ExistsCons<T>(s: seq<T>, p: T -> bool)
    requires s != []
    ensures Exists(s, p) <==> p(s[0]) || Exists(s[1..], p)
  {
    if Exists(s[1..], p) {
      var i :| 0 <= i < |s[1..]| && p(s[1..][i]);
      assert s[i + 1] == s[1..][i];
    }
    if Exists(s, p) && !p(s[0]) {
      var i :| 0 <= i < |s| && p(s[i]);
      assert s[1..][i - 1] == s[i];
    }
  }

  lemma ExistsPairCons<T>(s: seq<T>, p: T -> bool)
    requires s != []
    ensures ExistsPair(s, p) <==> (p(s[0]) && Exists(s[1..], p)) || ExistsPair(s[1..], p)
  {
    var t := s[1..];
    if ExistsPair(s, p) {
      var i, j :| 0 <= i < j < |s| && p(s[i]) && p(s[j]);
      assert p(t[j - 1]);
      if i > 0 {
        assert p(t[i - 1]);
      }
    }
    if p(s[0]) && Exists(t, p) {
      var j :| 0 <= j < |t| && p(t[j]);
      assert p(s[j + 1]);
    }
    if ExistsPair(t, p) {
      var i, j :| 0 <= i < j < |t| && p(t[i]) && p(t[j]);
      assert p(s[i + 1]) && p(s[j + 1]);
    }
  }

  /** The interface claims role r. */
  function Claims(c: Classifier, model: CStr, r: Role): DeviceInfo -> bool
  {
    d => Claim(c, model, d) == Some(r)
  }

  /** Some interface of the list claims role r. */
  predicate Written(c: Classifier, model: CStr, devs: seq<DeviceInfo>, r: Role)
  {
    Exists(devs, Claims(c, model, r))
  }

  lemma WrittenCons(c: Classifier, model: CStr, devs: seq<DeviceInfo>, r: Role)
    requires devs != []
    ensures Written(c, model, devs, r) <==>
            Claim(c, model, devs[0]) == Some(r) || Written(c, model, devs[1..], r)
  {
    ExistsCons(devs, Claims(c, model, r));
  }

  /** One turn sets the role the interface claims, and no other (mbm
      aside, whose second modem port fills the data role). */
  lemma StepKeys(c: Classifier, model: CStr, st: Slots, d: DeviceInfo, r: Role)
    requires c != SetupMbm && d.devnode.Some?
    ensures r in Step(c, model, st, d).0 <==> r in st || Claim(c, model, d) == Some(r)
  {
  }

  /** For every family but mbm, a role ends up set exactly when it was set
      before or some interface claims it. In the label families this is
      said of aux and modem only: the early break may skip the claims of
      later interfaces to the other roles. */
  lemma {:induction false} FoldFinds(c: Classifier, model: CStr, st: Slots, devs: seq<DeviceInfo>, r: Role)
    requires c != SetupMbm && AllNodes(devs)
    requires UsesLabels(c) ==> r == Aux || r == Mdm
    ensures r in Fold(c, model, st, devs) <==> r in st || Written(c, model, devs, r)
    decreases |devs|
  {
    if devs != [] {
      var d := devs[0];
      var next := Step(c, model, st, d);
      StepKeys(c, model, st, d, r);
      WrittenCons(c, model, devs, r);
      if !next.1 {
        assert Fold(c, model, st, devs) == Fold(c, model, next.0, devs[1..]);
        FoldFinds(c, model, next.0, devs[1..], r);
      } else {
        assert Fold(c, model, st, devs) == next.0;
        assert Aux in next.0 && Mdm in next.0;
      }
    }
  }

  /** Every role of alt is claimed by some interface. */
  predicate AllWritten(c: Classifier, model: CStr, devs: seq<DeviceInfo>, alt: set<Role>)
  {
    forall r :: r in alt ==> Written(c, model, devs, r)
  }

  /** Each family but mbm succeeds exactly when, for one alternative of its
      required roles, every role is claimed by some interface. */
  lemma SetupSucceedsIff(c: Classifier, model: CStr, devs: seq<DeviceInfo>)
    requires c != SetupMbm && AllNodes(devs)
    ensures Setup(c, model, devs).Some? <==>
            exists alt :: alt in Required(c) && AllWritten(c, model, devs, alt)
  {
    var st := Fold(c, model, map[], devs);
    forall alt | alt in Required(c)
      ensures alt <= st.Keys <==> AllWritten(c, model, devs, alt)
    {
      forall r | r in alt
        ensures r in st <==> Written(c, model, devs, r)
      {
        FoldFinds(c, model, map[], devs, r);
      }
    }
  }

  /** An mbm port whose description names it a modem. */
  predicate MbmModemPort(d: DeviceInfo)
  {
    HasSuffix(d.sysattr, "Modem") || HasSuffix(d.sysattr, "Modem 2")
  }

  lemma MbmStep(model: CStr, st: Slots, d: DeviceInfo)
    requires d.devnode.Some?
    ensures !Step(SetupMbm, model, st, d).1
    ensures Mdm in Step(SetupMbm, model, st, d).0 <==> Mdm in st || MbmModemPort(d)
    ensures App in Step(SetupMbm, model, st, d).0 <==> App in st || (Mdm in st && MbmModemPort(d))
  {
  }

  /** mbm takes its first modem port as the modem and any later one as the
      data port. */
  lemma {:induction false} MbmFold(model: CStr, st: Slots, devs: seq<DeviceInfo>)
    requires AllNodes(devs)
    ensures Mdm in Fold(SetupMbm, model, st, devs) <==> Mdm in st || Exists(devs, MbmModemPort)
    ensures App in Fold(SetupMbm, model, st, devs) <==>
            App in st || (Mdm in st && Exists(devs, MbmModemPort)) || ExistsPair(devs, MbmModemPort)
    decreases |devs|
  {
    if devs != [] {
      var next := Step(SetupMbm, model, st, devs[0]);
      MbmStep(model, st, devs[0]);
      assert Fold(SetupMbm, model, st, devs) == Fold(SetupMbm, model, next.0, devs[1..]);
      MbmFold(model, next.0, devs[1..]);
      ExistsCons(devs, MbmModemPort);
      ExistsPairCons(devs, MbmModemPort);
    }
  }

  /** mbm needs two modem ports: the first is the modem, a later one the
      data port. */
  lemma MbmSucceedsIff(model: CStr, devs: seq<DeviceInfo>)
    requires AllNodes(devs)
    ensures Setup(SetupMbm, model, devs).Some? <==> ExistsPair(devs, MbmModemPort)
  {
    MbmFold(model, map[], devs);
  }

  /** huawei switches the modem over to the gobi driver exactly when it has
      found both a QMI port and a network port; it then succeeds whatever
      else it found. */
  lemma HuaweiRedirect(model: CStr, devs: seq<DeviceInfo>)
    requires AllNodes(devs)
    ensures (Setup(SetupHuawei, model, devs).Some? &&
             Setup(SetupHuawei, model, devs).value[0] == SetDriver("gobi")) <==>
            Written(SetupHuawei, model, devs, Qmi) && Written(SetupHuawei, model, devs, Net)
    ensures !(Written(SetupHuawei, model, devs, Qmi) && Written(SetupHuawei, model, devs, Net)) ==>
            (Setup(SetupHuawei, model, devs).Some? <==>
             Written(SetupHuawei, model, devs, Mdm) && Written(SetupHuawei, model, devs, Pcui))
  {
    FoldFinds(SetupHuawei, model, map[], devs, Qmi);
    FoldFinds(SetupHuawei, model, map[], devs, Net);
    FoldFinds(SetupHuawei, model, map[], devs, Mdm);
    FoldFinds(SetupHuawei, model, map[], devs, Pcui);
  }

  /** Samsung needs only one of its two ports. */
  lemma SamsungNeedsControlOrNetwork(model: CStr, devs: seq<DeviceInfo>)
    requires AllNodes(devs)
    ensures Setup(SetupSamsung, model, devs).Some? <==>
            exists i :: 0 <= i < |devs| && devs[i].interface in {Some("10/0/0"), Some("255/0/0")}
  {
    FoldFinds(SetupSamsung, model, map[], devs, Ctl);
    FoldFinds(SetupSamsung, model, map[], devs, Net);
    if exists i :: 0 <= i < |devs| && devs[i].interface in {Some("10/0/0"), Some("255/0/0")} {
      var i :| 0 <= i < |devs| && devs[i].interface in {Some("10/0/0"), Some("255/0/0")};
      assert Claim(SetupSamsung, model, devs[i]) in {Some(Ctl), Some(Net)};
    }
  }

  /** Interface records as the scanner builds them: a device node, a
      decimal number from "%02d" and no label. */
  predicate Scanned(devs: seq<DeviceInfo>)
  {
    forall i :: 0 <= i < |devs| ==>
      devs[i].devnode.Some? && devs[i].number.Some? && IsDecimal(devs[i].number.value) &&
      devs[i].portLabel.None?
  }

  /** The scanner always fills the number in, so gobi never sees its QMI
      port (the one without a number) and never succeeds. */
  lemma GobiNeverSucceedsOnScannedDevices(model: CStr, devs: seq<DeviceInfo>)
    requires Scanned(devs)
    ensures Setup(SetupGobi, model, devs).None?
  {
    FoldFinds(SetupGobi, model, map[], devs, Qmi);
  }

  lemma HexTenIsNotDecimal()
    ensures !IsDecimal("0a")
  {
    assert !IsDigit("0a"[1]) && "0a"[0] != '-';
  }

  /** "%02d" never prints "0a", so he910's GPS port is never found among
      scanned records and the GPS property is always set to NULL. */
  lemma He910GpsNeverFoundOnScannedDevices(model: CStr, devs: seq<DeviceInfo>)
    requires Scanned(devs)
    ensures Setup(SetupHe910, model, devs).Some? ==>
            Setup(SetupHe910, model, devs).value[2] == SetString("GPS", None)
  {
    forall i | 0 <= i < |devs|
      ensures Claim(SetupHe910, model, devs[i]) != Some(Gps)
    {
      HexTenIsNotDecimal();
    }
    FoldFinds(SetupHe910, model, map[], devs, Gps);
  }

  /** speedup looks at labels only; scanned records carry none, so it never
      succeeds. */
  lemma SpeedupNeverSucceedsOnScannedDevices(model: CStr, devs: seq<DeviceInfo>)
    requires Scanned(devs)
    ensures Setup(SetupSpeedup, model, devs).None?
  {
    FoldFinds(SetupSpeedup, model, map[], devs, Aux);
  }

  /** In the label families a pair of "aux" and "modem" labels is enough,
      whatever the interfaces' signatures. */
  lemma LabelPairSuffices(c: Classifier, model: CStr, devs: seq<DeviceInfo>, i: nat, j: nat)
    requires UsesLabels(c) && AllNodes(devs)
    requires i < |devs| && devs[i].portLabel == Some("aux")
    requires j < |devs| && devs[j].portLabel == Some("modem")
    ensures Setup(c, model, devs).Some?
  {
    assert Claim(c, model, devs[i]) == Some(Aux);
    assert Claim(c, model, devs[j]) == Some(Mdm);
    SetupSucceedsIff(c, model, devs);
    assert {Aux, Mdm} in Required(c) && AllWritten(c, model, devs, {Aux, Mdm});
  }

  /** zte's modem port number depends on the product id; the scanner keeps
      the trailing newline of the idProduct file, so a 0016 read from sysfs
      is not recognised and "03" is used. */
  lemma ZteModemPortFollowsModel()
    ensures ZteModemNumber(Some("0016")) == "02"
    ensures ZteModemNumber(Some("0016\n")) == "03"
    ensures ZteModemNumber(None) == "03"
  {
    assert Some("0016\n") != Some("0016");
  }

  function Port(node: string, iface: string, number: string): DeviceInfo
  {
    DeviceInfo(Some("/sys" + node), Some(node), Some(iface), Some(number), None, None)
  }

  /** A GE910 as the scanner sees it: ACM ports 00 (modem), 02 (aux) and 04
      (diag) of class 2/2/0. */
  lemma Ge910Ports()
    ensures Setup(SetupGe910, Some("0022\n"),
                  [Port("/dev/ttyACM0", "2/2/0", "00"), Port("/dev/ttyACM1", "2/2/0", "02"),
                   Port("/dev/ttyACM2", "2/2/0", "04")]) ==
            Some([SetString("Modem", Some("/dev/ttyACM0")), SetString("Aux", Some("/dev/ttyACM1")),
                  SetString("GPS", None)])
  {
    var devs := [Port("/dev/ttyACM0", "2/2/0", "00"), Port("/dev/ttyACM1", "2/2/0", "02"),
                 Port("/dev/ttyACM2", "2/2/0", "04")];
    var st1 := map[Mdm := "/dev/ttyACM0"];
    var st2 := st1[Aux := "/dev/ttyACM1"];
    var st3 := st2[Diag := "/dev/ttyACM2"];
    assert Step(SetupGe910, Some("0022\n"), map[], devs[0]) == (st1, false);
    assert Step(SetupGe910, Some("0022\n"), st1, devs[1]) == (st2, false);
    assert Step(SetupGe910, Some("0022\n"), st2, devs[2]) == (st3, false);
    assert devs[1..][1..] == [devs[2]] && devs[1..][1..][1..] == [];
    assert Fold(SetupGe910, Some("0022\n"), map[], devs) == st3;
  }

  /** No two driver_list rows share a name, so create_modem runs at most one
      classifier. */
  lemma DriverNamesDistinct(i: nat, j: nat)
    requires i < j < DriverCount
    ensures DriverRow(i).name != DriverRow(j).name
  {
  }

  /** Every family vendor_list can name has a classifier in driver_list. */
  lemma EveryFamilyHasClassifier(i: nat)
    requires i < Identity.VendorCount
    ensures exists j :: 0 <= j < DriverCount && DriverRow(j).name == Identity.VendorRow(i).driver
  {
    var name := Identity.VendorRow(i).driver;
    var j :=
      if name == "isiusb" then 0
      else if name == "mbm" then 1
      else if name == "hso" then 2
      else if name == "gobi" then 3
      else if name == "sierra" then 4
      else if name == "option" then 5
      else if name == "huawei" then 6
      else if name == "speedupcdma" then 7
      else if name == "speedup" then 8
      else if name == "linktop" then 9
      else if name == "alcatel" then 10
      else if name == "novatel" then 11
      else if name == "nokia" then 12
      else if name == "telit" then 13
      else if name == "he910" then 14
      else if name == "ge910" then 15
      else if name == "simcom" then 16
      else if name == "zte" then 17
      else if name == "icera" then 18
      else if name == "samsung" then 19
      else if name == "quectel" then 20
      else 21;
    assert DriverRow(j).name == name;
  }
}
