/** The per-family port classifiers (setup_isi ... setup_ublox) and the
    driver_list that names them. Each classifier walks the sorted interface
    list once, remembering in a handful of role variables the devnode of the
    last interface that matched each role, and then either gives up or
    publishes the roles as modem properties. */
module Classify {
  import opened CString
  import opened Device
  import opened Ofono

  /** The setup_* function a driver_list row points to. */
  datatype Classifier =
    | SetupIsi | SetupMbm | SetupHso | SetupGobi | SetupSierra | SetupOption
    | SetupHuawei | SetupSpeedup | SetupLinktop | SetupIcera | SetupAlcatel
    | SetupNovatel | SetupNokia | SetupTelit | SetupGe910 | SetupHe910
    | SetupSimcom | SetupZte | SetupSamsung | SetupQuectel | SetupUblox

  /** The local role variables of the classifiers (isi's node included). */
  datatype Role = Mdm | Aux | App | Gps | Diag | Net | Qmi | Pcui | Ctl | Qcdm | Node

  /** The role variables: a role absent from the map is NULL. */
  type Slots = map<Role, string>

  function Get(st: Slots, r: Role): (v: CStr)
    ensures v.Some? <==> r in st
  {
    if r in st then Some(st[r]) else None
  }

  /** `role = info->devnode`: a NULL devnode makes the role NULL again. */
  function Assign(st: Slots, r: Role, v: CStr): (st': Slots)
    ensures Get(st', r) == v
    ensures forall q :: q != r ==> Get(st', q) == Get(st, q)
  {
    if v.Some? then st[r := v.value] else st - {r}
  }

  /** The families whose loop first looks at the udev label and stops as
      soon as both "aux" and "modem" are known. */
  predicate UsesLabels(c: Classifier)
  {
    c in {SetupSpeedup, SetupAlcatel, SetupNovatel, SetupNokia, SetupTelit, SetupGe910,
          SetupSimcom, SetupZte, SetupQuectel, SetupUblox}
  }

  /** The interface zte's modem port has: "02" for models 0016, 0017 and
      0117, "03" for every other model. */
  function ZteModemNumber(model: CStr): (n: string)
    ensures n == "02" <==> model in {Some("0016"), Some("0017"), Some("0117")}
    ensures n == "02" || n == "03"
  {
    if StrCmp0(model, Some("0016")) == 0 || StrCmp0(model, Some("0017")) == 0 ||
       StrCmp0(model, Some("0117")) == 0
    then "02" else "03"
  }

  /** The role an interface's signature gives it, label rules aside.
      g_strcmp0(x, "lit") == 0 is `x == Some("lit")`. For mbm, Mdm stands
      for "a modem port"; Step decides whether it is the modem or the data
      port. */
  function Target(c: Classifier, model: CStr, d: DeviceInfo): Option<Role>
  {
    var iface := d.interface;
    var num := d.number;
    match c
    case SetupIsi =>
      if d.sysattr == Some("820") then Some(Node) else None
    case SetupMbm =>
      if HasSuffix(d.sysattr, "Modem") || HasSuffix(d.sysattr, "Modem 2") then Some(Mdm)
      else if HasSuffix(d.sysattr, "GPS Port") || HasSuffix(d.sysattr, "Module NMEA") then Some(Gps)
      else if HasSuffix(d.sysattr, "Network Adapter") || HasSuffix(d.sysattr, "NetworkAdapter") then Some(Net)
      else None
    case SetupHso =>
      if d.sysattr == Some("Control") then Some(Ctl)
      else if d.sysattr == Some("Application") then Some(App)
      else if d.sysattr == Some("Modem") then Some(Mdm)
      else if d.sysattr.None? && HasPrefix(d.devnode, "hso") then Some(Net)
      else None
    case SetupGobi =>
      if iface != Some("255/255/255") then None
      else if num.None? then Some(Qmi)
      else if num == Some("00") then Some(Net)
      else if num == Some("01") then Some(Diag)
      else if num == Some("02") then Some(Mdm)
      else if num == Some("03") then Some(Gps)
      else None
    case SetupSierra =>
      if iface != Some("255/255/255") then None
      else if num == Some("01") then Some(Diag)
      else if num == Some("03") then Some(Mdm)
      else if num == Some("04") then Some(App)
      else if num == Some("07") then Some(Net)
      else None
    case SetupOption =>
      if iface != Some("255/255/255") then None
      else if num == Some("00") then Some(Mdm)
      else if num == Some("01") then Some(Diag)
      else if num == Some("02") then Some(Aux)
      else None
    case SetupHuawei =>
      if d.portLabel == Some("modem") || iface in {Some("255/1/1"), Some("255/2/1"), Some("255/1/49")} then Some(Mdm)
      else if d.portLabel == Some("pcui") || iface in {Some("255/1/2"), Some("255/2/2"), Some("255/1/50")} then Some(Pcui)
      else if d.portLabel == Some("diag") || iface in {Some("255/1/3"), Some("255/2/3"), Some("255/1/51")} then Some(Diag)
      else if iface in {Some("255/1/8"), Some("255/1/56")} then Some(Net)
      else if iface in {Some("255/1/9"), Some("255/1/57")} then Some(Qmi)
      else if iface != Some("255/255/255") then None
      else if num == Some("00") then Some(Mdm)
      else if num in {Some("01"), Some("02"), Some("03"), Some("04")} then Some(Pcui)
      else None
    case SetupSpeedup => None
    case SetupLinktop =>
      if iface != Some("2/2/1") then None
      else if num == Some("01") then Some(Aux)
      else if num == Some("03") then Some(Mdm)
      else None
    case SetupIcera =>
      if iface == Some("2/2/1") then
        (if num in {Some("00"), Some("01")} then Some(Aux)
         else if num in {Some("02"), Some("03")} then Some(Mdm)
         else None)
      else if iface == Some("2/6/0") then
        (if num in {Some("05"), Some("06"), Some("07")} then Some(Net) else None)
      else None
    case SetupAlcatel =>
      if iface != Some("255/255/255") then None
      else if num == Some("03") then Some(Aux)
      else if num == Some("05") then Some(Mdm)
      else None
    case SetupNovatel =>
      if iface != Some("255/255/255") then None
      else if num == Some("00") then Some(Aux)
      else if num == Some("01") then Some(Mdm)
      else None
    case SetupNokia =>
      if iface != Some("10/0/0") then None
      else if num == Some("02") then Some(Mdm)
      else if num == Some("04") then Some(Aux)
      else None
    case SetupTelit =>
      if iface == Some("255/255/255") then
        (if num == Some("00") then Some(Mdm)
         else if num == Some("01") then Some(Diag)
         else if num == Some("02") then Some(Gps)
         else if num == Some("03") then Some(Aux)
         else None)
      else if iface == Some("2/2/0") then
        (if num == Some("00") then Some(Mdm)
         else if num == Some("04") then Some(Diag)
         else if num == Some("02") then Some(Aux)
         else None)
      else None
    case SetupGe910 =>
      if iface != Some("2/2/0") then None
      else if num == Some("00") then Some(Mdm)
      else if num == Some("04") then Some(Diag)
      else if num == Some("02") then Some(Aux)
      else None
    case SetupHe910 =>
      if iface != Some("2/2/1") then None
      else if num == Some("00") then Some(Mdm)
      else if num == Some("06") then Some(Aux)
      else if num == Some("0a") then Some(Gps)
      else None
    case SetupSimcom =>
      if iface != Some("255/255/255") then None
      else if num == Some("00") then Some(Diag)
      else if num == Some("01") then Some(Gps)
      else if num == Some("02") then Some(Aux)
      else if num == Some("03") then Some(Mdm)
      else None
    case SetupZte =>
      if iface != Some("255/255/255") then None
      else if num == Some("00") then Some(Qcdm)
      else if num == Some("01") then Some(Aux)
      else if num == Some(ZteModemNumber(model)) then Some(Mdm)
      else None
    case SetupSamsung =>
      if iface == Some("10/0/0") then Some(Ctl)
      else if iface == Some("255/0/0") then Some(Net)
      else None
    case SetupQuectel =>
      if iface != Some("255/255/255") then None
      else if num == Some("02") then Some(Aux)
      else if num == Some("03") then Some(Mdm)
      else None
    case SetupUblox =>
      if iface != Some("2/2/1") then None
      else if num == Some("02") then Some(Aux)
      else if num == Some("00") then Some(Mdm)
      else None
  }

  /** An interface whose udev label a label family acts on first. */
  predicate Labelled(c: Classifier, d: DeviceInfo)
  {
    UsesLabels(c) && d.portLabel in {Some("aux"), Some("modem")}
  }

  /** The role an interface claims: its label in the label families,
      otherwise its signature. */
  function Claim(c: Classifier, model: CStr, d: DeviceInfo): (r: Option<Role>)
    ensures Labelled(c, d) ==> r in {Some(Aux), Some(Mdm)}
  {
    if UsesLabels(c) && d.portLabel == Some("aux") then Some(Aux)
    else if UsesLabels(c) && d.portLabel == Some("modem") then Some(Mdm)
    else Target(c, model, d)
  }

  /** One turn of a classifier's loop: the new role variables and whether
      the loop breaks. A label family breaks on an "aux" or "modem" label
      once the other of the two is already known; mbm's first modem port
      is the modem and every later one the data port. */
  function Step(c: Classifier, model: CStr, st: Slots, d: DeviceInfo): (res: (Slots, bool))
    ensures res.1 && d.devnode.Some? ==> Aux in res.0 && Mdm in res.0
    ensures res.1 ==> Labelled(c, d)
  {
    match Claim(c, model, d)
    case None => (st, false)
    case Some(r) =>
      var slot := if c == SetupMbm && r == Mdm && Mdm in st then App else r;
      var other := if r == Aux then Mdm else Aux;
      (Assign(st, slot, d.devnode), Labelled(c, d) && other in st)
  }

  /** The loop over the device list, from role variables st. */
  function Fold(c: Classifier, model: CStr, st: Slots, devs: seq<DeviceInfo>): Slots
    decreases |devs|
  {
    if devs == [] then st
    else
      var (st', stop) := Step(c, model, st, devs[0]);
      if stop then st' else Fold(c, model, st', devs[1..])
  }

  /** setup_isi's address: 16 once some "820" interface has signature
      2/254/0, otherwise 0. */
  function IsiAddress(devs: seq<DeviceInfo>): (addr: int)
    ensures addr == 16 || addr == 0
    ensures addr == 16 <==> exists i :: 0 <= i < |devs| && devs[i].sysattr == Some("820") &&
                                        devs[i].interface == Some("2/254/0")
  {
    if devs == [] then 0
    else if devs[0].sysattr == Some("820") && devs[0].interface == Some("2/254/0") then 16
    else
      var a := IsiAddress(devs[1..]);
      assert forall i :: 1 <= i < |devs| ==> devs[i] == devs[1..][i - 1];
      a
  }

  /** The roles each family cannot do without: it succeeds when all roles
      of one of these alternatives are set. */
  function Required(c: Classifier): set<set<Role>>
  {
    match c
    case SetupIsi => {{Node}}
    case SetupMbm => {{Mdm, App}}
    case SetupHso => {{Ctl, App}}
    case SetupGobi => {{Qmi, Mdm, Net}}
    case SetupSierra => {{Mdm, Net}}
    case SetupHuawei => {{Qmi, Net}, {Mdm, Pcui}}
    case SetupSamsung => {{Ctl}, {Net}}
    case _ => {{Aux, Mdm}}
  }

  /** The tail of every setup_*: FALSE when a required role is missing,
      otherwise the modem properties in the order the source sets them. */
  function Finish(c: Classifier, st: Slots, addr: int): (r: Option<seq<Effect>>)
    ensures r.Some? <==> exists alt :: alt in Required(c) && alt <= st.Keys
    ensures r.Some? ==> forall i :: 0 <= i < |r.value| ==> IsProperty(r.value[i])
  {
    var g := (r: Role) => Get(st, r);
    match c
    case SetupIsi =>
      if g(Node).None? then None
      else
        assert {Node} <= st.Keys;
        Some([SetString("Interface", g(Node)), SetInteger("Address", addr)])
    case SetupMbm =>
      if g(Mdm).None? || g(App).None? then None
      else
        assert {Mdm, App} <= st.Keys;
        Some([SetString("ModemDevice", g(Mdm)), SetString("DataDevice", g(App)),
              SetString("GPSDevice", g(Gps)), SetString("NetworkInterface", g(Net))])
    case SetupHso =>
      if g(Ctl).None? || g(App).None? then None
      else
        assert {Ctl, App} <= st.Keys;
        Some([SetString("Control", g(Ctl)), SetString("Application", g(App)),
              SetString("Modem", g(Mdm)), SetString("NetworkInterface", g(Net))])
    case SetupGobi =>
      if g(Qmi).None? || g(Mdm).None? || g(Net).None? then None
      else
        assert {Qmi, Mdm, Net} <= st.Keys;
        Some([SetString("Device", g(Qmi)), SetString("Modem", g(Mdm)),
              SetString("Diag", g(Diag)), SetString("NetworkInterface", g(Net))])
    case SetupSierra =>
      if g(Mdm).None? || g(Net).None? then None
      else
        assert {Mdm, Net} <= st.Keys;
        Some([SetString("Modem", g(Mdm)), SetString("App", g(App)),
              SetString("Diag", g(Diag)), SetString("NetworkInterface", g(Net))])
    case SetupOption =>
      if g(Aux).None? || g(Mdm).None? then None
      else
        assert {Aux, Mdm} <= st.Keys;
        Some([SetString("Aux", g(Aux)), SetString("Modem", g(Mdm)), SetString("Diag", g(Diag))])
    case SetupHuawei =>
      var props := [SetString("Device", g(Qmi)), SetString("Modem", g(Mdm)), SetString("Pcui", g(Pcui)),
                 SetString("Diag", g(Diag)), SetString("NetworkInterface", g(Net))];
      if g(Qmi).Some? && g(Net).Some? then
        assert {Qmi, Net} <= st.Keys;
        Some([SetDriver("gobi")] + props)
      else if g(Mdm).None? || g(Pcui).None? then None
      else
        assert {Mdm, Pcui} <= st.Keys;
        Some(props)
    case SetupIcera =>
      if g(Aux).None? || g(Mdm).None? then None
      else
        assert {Aux, Mdm} <= st.Keys;
        Some([SetString("Aux", g(Aux)), SetString("Modem", g(Mdm)),
              SetString("NetworkInterface", g(Net))])
    case SetupTelit =>
      if g(Aux).None? || g(Mdm).None? then None
      else
        assert {Aux, Mdm} <= st.Keys;
        Some([SetString("Modem", g(Mdm)), SetString("Aux", g(Aux)), SetString("GPS", g(Gps))])
    case SetupGe910 =>
      if g(Aux).None? || g(Mdm).None? then None
      else
        assert {Aux, Mdm} <= st.Keys;
        Some([SetString("Modem", g(Mdm)), SetString("Aux", g(Aux)), SetString("GPS", g(Gps))])
    case SetupHe910 =>
      if g(Aux).None? || g(Mdm).None? then None
      else
        assert {Aux, Mdm} <= st.Keys;
        Some([SetString("Modem", g(Mdm)), SetString("Aux", g(Aux)), SetString("GPS", g(Gps))])
    case SetupSimcom =>
      if g(Aux).None? || g(Mdm).None? then None
      else
        assert {Aux, Mdm} <= st.Keys;
        Some([SetString("Modem", g(Mdm)), SetString("Data", g(Aux)), SetString("GPS", g(Gps))])
    case SetupSamsung =>
      if g(Ctl).None? && g(Net).None? then None
      else
        assert {Ctl} <= st.Keys || {Net} <= st.Keys;
        Some([SetString("ControlPort", g(Ctl)), SetString("NetworkInterface", g(Net))])
    case _ =>
      if g(Aux).None? || g(Mdm).None? then None
      else
        assert {Aux, Mdm} <= st.Keys;
        Some([SetString("Aux", g(Aux)), SetString("Modem", g(Mdm))])
  }

  /** setup_<family>(modem): the modem's product id (zte reads it) and its
      sorted device list in; FALSE, or the properties it sets, out. */
  function Setup(c: Classifier, model: CStr, devs: seq<DeviceInfo>): Option<seq<Effect>>
  {
    Finish(c, Fold(c, model, map[], devs), IsiAddress(devs))
  }

  /** One row of driver_list: a family name, its classifier and the sysfs
      attribute the table records for it (the scanner never reads it). */
  datatype DriverEntry = DriverEntry(name: string, setup: Classifier, sysattr: CStr)

  const DriverCount: nat := 22

  /** Row i of driver_list, in table order. */
  function DriverRow(i: nat): DriverEntry
    requires i < DriverCount
  {
    match i
    case 0 => DriverEntry("isiusb",      SetupIsi,     Some("type"))
    case 1 => DriverEntry("mbm",         SetupMbm,     Some("device/interface"))
    case 2 => DriverEntry("hso",         SetupHso,     Some("hsotype"))
    case 3 => DriverEntry("gobi",        SetupGobi,    None)
    case 4 => DriverEntry("sierra",      SetupSierra,  None)
    case 5 => DriverEntry("option",      SetupOption,  None)
    case 6 => DriverEntry("huawei",      SetupHuawei,  None)
    case 7 => DriverEntry("speedupcdma", SetupSpeedup, None)
    case 8 => DriverEntry("speedup",     SetupSpeedup, None)
    case 9 => DriverEntry("linktop",     SetupLinktop, None)
    case 10 => DriverEntry("alcatel",     SetupAlcatel, None)
    case 11 => DriverEntry("novatel",     SetupNovatel, None)
    case 12 => DriverEntry("nokia",       SetupNokia,   None)
    case 13 => DriverEntry("telit",       SetupTelit,   Some("device/interface"))
    case 14 => DriverEntry("he910",       SetupHe910,   None)
    case 15 => DriverEntry("ge910",       SetupGe910,   None)
    case 16 => DriverEntry("simcom",      SetupSimcom,  None)
    case 17 => DriverEntry("zte",         SetupZte,     None)
    case 18 => DriverEntry("icera",       SetupIcera,   None)
    case 19 => DriverEntry("samsung",     SetupSamsung, None)
    case 20 => DriverEntry("quectel",     SetupQuectel, None)
    case _ => DriverEntry("ublox",       SetupUblox,   None)
  }
}
