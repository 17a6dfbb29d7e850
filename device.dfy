/** One serial interface of the modem (struct device_info), how the scanner
    builds it from the sysfs attribute files of a ttyACM node, and the
    device list kept sorted by interface number. */
module Device {
  import opened CString
  import opened CFormat

  /** struct device_info: every field is a C string that may be NULL. */
  datatype DeviceInfo = DeviceInfo(
    devpath: CStr,
    devnode: CStr,
    interface: CStr,
    number: CStr,
    portLabel: CStr,
    sysattr: CStr)

  /** compare_device: g_strcmp0 on the interface numbers. */
  function CompareDevice(a: DeviceInfo, b: DeviceInfo): (r: int)
    ensures -1 <= r <= 1
    ensures r == 0 <==> a.number == b.number
    ensures a.number.None? && b.number.Some? ==> r < 0
  {
    StrCmp0(a.number, b.number)
  }

  /** The list order compare_device gives: numbers never decrease. */
  predicate Sorted(s: seq<DeviceInfo>)
  {
    forall i, j :: 0 <= i < j < |s| ==> CompareDevice(s[i], s[j]) <= 0
  }

  /** Where g_slist_insert_sorted puts x: before the first element that x
      does not compare greater than, or at the end. */
  function InsertIndex(s: seq<DeviceInfo>, x: DeviceInfo): (k: nat)
    ensures k <= |s|
    ensures forall j :: 0 <= j < k ==> CompareDevice(x, s[j]) > 0
    ensures k < |s| ==> CompareDevice(x, s[k]) <= 0
  {
    if s == [] || CompareDevice(x, s[0]) <= 0 then 0 else 1 + InsertIndex(s[1..], x)
  }

  /** g_slist_insert_sorted with compare_device: an element with an equal
      number is kept, not replaced. */
  function InsertSorted(s: seq<DeviceInfo>, x: DeviceInfo): (r: seq<DeviceInfo>)
    ensures |r| == |s| + 1
    ensures r == s[..InsertIndex(s, x)] + [x] + s[InsertIndex(s, x)..]
  {
    if s == [] || CompareDevice(x, s[0]) <= 0 then
      assert s[..0] == [] && s[0..] == s;
      [x] + s
    else
      var rest := InsertSorted(s[1..], x);
      SpliceCons(s, InsertIndex(s[1..], x), x);
      [s[0]] + rest
  }

  lemma SpliceCons(s: seq<DeviceInfo>, k: nat, x: DeviceInfo)
    requires 0 < |s| && k < |s|
    ensures [s[0]] + (s[1..][..k] + [x] + s[1..][k..]) == s[..k + 1] + [x] + s[k + 1..]
  {
    assert s[..k + 1] == [s[0]] + s[1..][..k];
    assert s[k + 1..] == s[1..][k..];
  }

  /** Insertion adds x and loses nothing: the new list is a permutation of
      the old one with x added. */
  lemma InsertSortedPermutes(s: seq<DeviceInfo>, x: DeviceInfo)
    ensures multiset(InsertSorted(s, x)) == multiset(s) + multiset{x}
  {
    var k := InsertIndex(s, x);
    var front, back := s[..k], s[k..];
    assert InsertSorted(s, x) == front + [x] + back;
    assert front + back == s;
    SpliceMultiset(front, back, x);
  }

  lemma SpliceMultiset(a: seq<DeviceInfo>, b: seq<DeviceInfo>, x: DeviceInfo)
    ensures multiset(a + [x] + b) == multiset(a + b) + multiset{x}
  {
  }

  /** Inserting into a sorted list leaves it sorted. */
  lemma InsertSortedKeepsOrder(s: seq<DeviceInfo>, x: DeviceInfo)
    requires Sorted(s)
    ensures Sorted(InsertSorted(s, x))
  {
    var r := InsertSorted(s, x);
    var k := InsertIndex(s, x);
    forall i, j | 0 <= i < j < |r|
      ensures CompareDevice(r[i], r[j]) <= 0
    {
      InsertedPairOrdered(s, x, i, j);
    }
  }

  /** The element at position i after insertion. */
  lemma InsertSortedAt(s: seq<DeviceInfo>, x: DeviceInfo, i: nat)
    requires i <= |s|
    ensures var k := InsertIndex(s, x);
            InsertSorted(s, x)[i] == if i < k then s[i] else if i == k then x else s[i - 1]
  {
  }

  lemma InsertedPairOrdered(s: seq<DeviceInfo>, x: DeviceInfo, i: nat, j: nat)
    requires Sorted(s) && i < j <= |s|
    ensures CompareDevice(InsertSorted(s, x)[i], InsertSorted(s, x)[j]) <= 0
  {
    var k := InsertIndex(s, x);
    InsertSortedAt(s, x, i);
    InsertSortedAt(s, x, j);
    if i < k && j == k {
      StrCmp0Antisymmetric(x.number, s[i].number);
    } else if i == k && j - 1 > k {
      assert CompareDevice(s[k], s[j - 1]) <= 0;
      StrCmp0Transitive(x.number, s[k].number, s[j - 1].number);
    } else if i < k && j > k {
      assert CompareDevice(s[i], s[j - 1]) <= 0;
    } else if j < k {
      assert CompareDevice(s[i], s[j]) <= 0;
    } else if i > k {
      assert CompareDevice(s[i - 1], s[j - 1]) <= 0;
    }
  }

  /** A second interface with the same number is added beside the first,
      never merged with it. */
  lemma {:induction false} InsertSortedKeepsDuplicates(s: seq<DeviceInfo>, x: DeviceInfo)
    requires x in s
    ensures multiset(InsertSorted(s, x))[x] == multiset(s)[x] + 1 >= 2
  {
    InsertSortedPermutes(s, x);
    assert multiset(s)[x] >= 1;
  }

  /** The attribute files of the sysfs tree: path to content. A path that
      is absent is a file read_data_in_file cannot read. */
  type Files = map<string, string>

  /** read_data_in_file. */
  function ReadFile(files: Files, path: string): CStr
  {
    if path in files then Some(files[path]) else None
  }

  /** The node name the scanner collects: one starting with "ttyACM". */
  predicate IsTtyAcm(base: string)
  {
    StrNEq(base, "ttyACM", 6)
  }

  /** mdev_device_add_devnode. */
  function Devnode(base: string): (r: string)
    ensures HasPrefix(Some(r), "/dev/") && r[5..] == base
  {
    "/dev/" + base
  }

  /** The interface directory: the node path with as many characters cut
      off its end as the devnode has, so ".../1-1:1.2/tty/ttyACM0" loses
      "/tty/ttyACM0" (mdev_device_get_interface and
      mdev_device_add_sysattr). */
  function InterfaceDir(fpath: string, base: string): (r: string)
    ensures |Devnode(base)| <= |fpath| ==> |r| == |fpath| - |base| - 5 && r == fpath[..|r|]
    ensures |Devnode(base)| > |fpath| ==> r == fpath
  {
    Chop(fpath, |Devnode(base)|)
  }

  /** The four attribute files of the interface directory that the scanner
      reads without checking for failure. */
  predicate Readable(files: Files, fpath: string, base: string)
  {
    var dir := InterfaceDir(fpath, base);
    dir + "/bInterfaceClass" in files &&
    dir + "/bInterfaceSubClass" in files &&
    dir + "/bInterfaceProtocol" in files &&
    dir + "/bInterfaceNumber" in files
  }

  /** mdev_device_get_interface: atoi of an attribute of the interface
      directory. */
  function InterfaceValue(files: Files, fpath: string, base: string, attr: string): int
    requires InterfaceDir(fpath, base) + attr in files
  {
    Atoi(files[InterfaceDir(fpath, base) + attr])
  }

  /** mdev_device_add_interface: "%01d/%01d/%01d" of cls, subclass and
      protocol. */
  function InterfaceString(cls: int, subclass: int, protocol: int): string
  {
    FormatInt(cls, 1) + "/" + FormatInt(subclass, 1) + "/" + FormatInt(protocol, 1)
  }

  /** mdev_device_add_number: "%02d" of the interface number. */
  function NumberString(n: int): (r: string)
    ensures IsDecimal(r) && |r| >= 2
    ensures Atoi(r) == n
  {
    FormatIsDecimal(n, 2);
    AtoiFormatInt(n, 2);
    FormatInt(n, 2)
  }

  /** The record find_device_info_file builds for the node base found at
      fpath: devnode, devpath, interface triple, number, a NULL label
      (mdev_device_add_label is unfinished) and the optional "interface"
      description file. */
  function MakeInfo(files: Files, fpath: string, base: string): (r: DeviceInfo)
    requires Readable(files, fpath, base)
    ensures r.devpath == Some(fpath) && r.devnode == Some(Devnode(base))
    ensures r.interface.Some? && r.number.Some? && r.portLabel.None?
    ensures r.sysattr == ReadFile(files, InterfaceDir(fpath, base) + "/interface")
  {
    DeviceInfo(
      Some(fpath),
      Some(Devnode(base)),
      Some(InterfaceString(
        InterfaceValue(files, fpath, base, "/bInterfaceClass"),
        InterfaceValue(files, fpath, base, "/bInterfaceSubClass"),
        InterfaceValue(files, fpath, base, "/bInterfaceProtocol"))),
      Some(NumberString(InterfaceValue(files, fpath, base, "/bInterfaceNumber"))),
      None,
      ReadFile(files, InterfaceDir(fpath, base) + "/interface"))
  }

  /** sysfs prints the interface class, subclass and protocol in
      hexadecimal and atoi stops at the first non-decimal character: a
      vendor-specific interface (ff/ff/ff) is recorded as "0/0/0", so the
      classifiers' "255/255/255" never matches a scanned interface. */
  lemma VendorSpecificReadsAsZero(files: Files, fpath: string, base: string)
    requires Readable(files, fpath, base)
    requires files[InterfaceDir(fpath, base) + "/bInterfaceClass"] == "ff\n"
    requires files[InterfaceDir(fpath, base) + "/bInterfaceSubClass"] == "ff\n"
    requires files[InterfaceDir(fpath, base) + "/bInterfaceProtocol"] == "ff\n"
    ensures MakeInfo(files, fpath, base).interface == Some("0/0/0")
  {
    assert SkipSpace("ff\n") == "ff\n";
    assert !IsDigit('f');
    assert LeadingDigits("ff\n") == "";
    assert Atoi("ff\n") == 0;
    assert Digits(0) == "0";
    assert FormatInt(0, 1) == "0";
    assert InterfaceString(0, 0, 0) == "0/0/0";
    assert InterfaceValue(files, fpath, base, "/bInterfaceClass") == 0;
    assert InterfaceValue(files, fpath, base, "/bInterfaceSubClass") == 0;
    assert InterfaceValue(files, fpath, base, "/bInterfaceProtocol") == 0;
  }

  /** A numeral holds no '/', so the interface string splits back into the
      three numbers it was printed from. */
  lemma InterfaceStringFields(cls: int, subclass: int, protocol: int)
    ensures Split(InterfaceString(cls, subclass, protocol), '/') ==
            [FormatInt(cls, 1), FormatInt(subclass, 1), FormatInt(protocol, 1)]
    ensures Atoi(FormatInt(cls, 1)) == cls && Atoi(FormatInt(subclass, 1)) == subclass &&
            Atoi(FormatInt(protocol, 1)) == protocol
  {
    var a, b, c := FormatInt(cls, 1), FormatInt(subclass, 1), FormatInt(protocol, 1);
    NumeralHasNoSlash(cls, 1);
    NumeralHasNoSlash(subclass, 1);
    NumeralHasNoSlash(protocol, 1);
    assert Fields(b + "/" + c, '/') == [b, c] by {
      FieldsWithoutSeparator(c, '/');
      FieldsSlash(b, c);
    }
    assert Fields(a + "/" + (b + "/" + c), '/') == [a, b, c] by {
      FieldsSlash(a, b + "/" + c);
    }
    assert a + "/" + b + "/" + c == a + "/" + (b + "/" + c);
    AtoiFormatInt(cls, 1);
    AtoiFormatInt(subclass, 1);
    AtoiFormatInt(protocol, 1);
  }

  lemma NumeralHasNoSlash(n: int, w: nat)
    ensures '/' !in FormatInt(n, w)
  {
    FormatIsDecimal(n, w);
    var s := FormatInt(n, w);
    forall i | 0 <= i < |s|
      ensures s[i] != '/'
    {
      if !AllDigits(s) && i > 0 {
        assert s[i] == s[1..][i - 1];
      }
    }
  }
}
