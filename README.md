# mdevng and ge910: modem discovery and the GE910 driver state, in Dafny

This project models two plugins of an oFono fork that runs on boards with
mdev instead of udev.

`plugins/mdevng.c` finds a USB modem without udev. It walks
`/sys/devices/` for `idVendor` and `idProduct` files. It accepts the
first four characters of their contents when they match a row of the
static vendor table. It then resolves the driver family. Next it walks
the modem's own sysfs directory and collects one interface record per
`ttyACM` node, with device node, class/subclass/protocol triple and
two-digit interface number. The records are kept sorted by number.
Finally the family's classifier (`setup_*`) assigns the ports to roles
("Modem", "Aux", ...), which become modem properties before the modem is
registered with oFono. The kernel's hotplug messages (`add@...` and
`remove@...`) schedule a rescan or tear the modem down.

`plugins/ge910.c` is the Telit GE910 modem driver. The model covers the
part of its private data that it updates itself:

- the SIM-presence flag, driven by `#QSS` status codes;
- the two AT channels, the mux and the device channel that shutdown
  releases;
- the single timer slot.

The model is split into these modules:

- `CString` (cstring.dfy): the C string operations the plugin relies on.
  These are `g_strcmp0`, `strncmp`, `g_strndup`-style truncation and
  `g_strsplit`, over `Option<string>` for a possibly NULL `char *`.
- `CFormat` (cformat.dfy): `atoi` and the `"%0Nd"` formatting of
  `g_snprintf`, with their round trip.
- `Identity` (identity.dfy): `vendor_list`, the vendor and product id
  acceptance loops and the driver resolution.
- `Device` (device.dfy): `struct device_info`, `compare_device`, the
  sorted insertion of `g_slist_insert_sorted`, and how one interface
  record is built from its attribute files.
- `Ofono` (ofono.dfy): the calls into the oFono core, kept as values
  (`Effect`).
- `Classify` and `ClassifyProps` (classify.dfy, classify_props.dfy): the
  21 `setup_*` classifiers as one fold over the sorted interface list,
  `driver_list`, and what each family needs to succeed.
- `Uevent` (uevent.dfy): decoding of a hotplug message header.
- `Registry` (registry.dfy): the single `modem` record as a class with the
  scan, creation, event and teardown operations. Each operation is proved
  against a specification function (`Scan`, `Create`, `Handle`,
  `Removal`).
- `Ge910` (ge910.dfy): `struct ge910_data` as a class whose methods are
  the driver callbacks. Each returns the calls it makes into GLib and
  oFono as a `Call` sequence.

Some behaviour depends on the machine or the oFono core: the sysfs tree,
whether a device node exists, and whether `ofono_modem_create` succeeds.
These are parameters. The sysfs tree is a `Sysfs` value: file contents
by path, plus the entries that `nftw` visits under each root, in order,
with its success flag.

Four behaviours of the code are easy to misread:

- Inserting an interface whose number is already in the list adds a
  second record. It does not ignore the duplicate
  (`Device.InsertSortedKeepsDuplicates`).
- A rescan that finds no modem is scheduled again, because
  `try_to_create_modem` returns TRUE. It is not a one-shot. After a
  successful registration the timer keeps firing too
  (`Registry.RetryNeverStopsAfterRegistration`).
- The driver family does not come from the most specific table row.
  `mdev_device_add_driver` compares the table with the fixed Telit ids
  1bc7/0022, not with the ids it read. So every accepted modem gets
  "ge910" (`Identity.TelitDriverIsGe910`).
- `ofono_modem_remove` is called for any created modem, including one
  whose classifier failed and that was never registered
  (`Registry.Removal`).

## Model

| member | source | states |
|---|---|---|
| CString.StrCmp0 | plugins/mdevng.c:1043-1049 | g_strcmp0 is zero exactly when both strings are equal, and NULL sorts before every string |
| CString.StrCmp0Antisymmetric | plugins/mdevng.c:1043-1049 | swapping the two arguments of compare_device negates the result |
| CString.StrCmp0Transitive | plugins/mdevng.c:1043-1049 | the order compare_device induces is transitive |
| CString.StrNEqIsPrefix | plugins/mdevng.c:1231-1233 | strncmp(a, p, strlen(p)) == 0 holds exactly when p is a prefix of a |
| CString.JoinFields | plugins/mdevng.c:1227 | joining the fields g_strsplit produces with the separator gives back the original text |
| CString.FieldsAppend | plugins/mdevng.c:1260 | splitting a + sep + b, where a has no separator, yields a followed by the fields of b |
| CString.FieldsWithoutSeparator | plugins/mdevng.c:1260 | text without the separator is a single field |
| CString.Split | plugins/mdevng.c:1227 | g_strsplit yields no token for the empty string, and otherwise fields that join back to the input |
| CFormat.AtoiOfDigits | plugins/mdevng.c:1165 | atoi of a string of digits is its decimal value |
| CFormat.AtoiOfNegative | plugins/mdevng.c:1165 | atoi of "-" followed by digits is minus their value |
| CFormat.AtoiFormatInt | plugins/mdevng.c:1187-1195 | atoi of the "%0Nd" text of any integer gives that integer back |
| CFormat.FormatIsDecimal | plugins/mdevng.c:1193 | "%0Nd" always prints an optional minus sign followed by digits only |
| CFormat.FormatNonNegative | plugins/mdevng.c:1193 | "%0Nd" of a non-negative number is at least N digits long |
| CFormat.HexInterfaceTenReadsAsZero | plugins/mdevng.c:1191-1193 | a bInterfaceNumber file holding "0a" reads as 0 and is stored as "00" |
| Identity.LookupVendor | plugins/mdevng.c:1073-1087 | the vendor id is accepted exactly when some table row has a vendor id equal to its first four characters |
| Identity.LookupModel | plugins/mdevng.c:1089-1103 | the product id is accepted exactly when some table row has a product id equal to its first four characters |
| Identity.VendorAcceptedByPrefix | plugins/mdevng.c:1073-1087 | acceptance of a vendor id is equivalent to its first four characters being one of the table's vendor ids |
| Identity.ModelAcceptedByPrefix | plugins/mdevng.c:1089-1103 | acceptance of a product id is equivalent to its first four characters being one of the table's product ids |
| Identity.RowIdsWellFormed | plugins/mdevng.c:65-113 | every id in vendor_list is four characters long |
| Identity.DriverFrom | plugins/mdevng.c:1055-1067 | the driver found is that of the first table row matching both ids, and nothing is found only when no row matches |
| Identity.FindDriver | plugins/mdevng.c:1051-1071 | the table loop of mdev_device_add_driver returns the first matching row's driver |
| Identity.TelitIdsSelectGe910 | plugins/mdevng.c:103 | the only row matching vendor 1bc7 with product 0022 is the ge910 row |
| Identity.TelitRowMatches | plugins/mdevng.c:103 | the ge910 row carries the Telit vendor and product ids |
| Identity.TelitDriverIsGe910 | plugins/mdevng.c:1051-1071 | driver resolution, which compares against the fixed Telit ids, always yields "ge910" |
| Identity.TelitAttributeFiles | plugins/mdevng.c:1079 | file contents with a trailing newline are accepted on their first four characters, and an unknown product id is refused |
| Device.CompareDevice | plugins/mdevng.c:1043-1049 | two interfaces compare equal exactly when their numbers are equal, and a missing number sorts first |
| Device.InsertIndex | plugins/mdevng.c:1218-1222 | insertion goes after every element the new record compares greater than and before the first it does not |
| Device.InsertSorted | plugins/mdevng.c:1218-1222 | the new list is the old one with the record spliced in at the insertion index |
| Device.InsertSortedPermutes | plugins/mdevng.c:1218-1222 | the new list is a permutation of the old list plus the record |
| Device.InsertSortedKeepsOrder | plugins/mdevng.c:1218-1222 | inserting into a list sorted by number keeps it sorted |
| Device.InsertSortedKeepsDuplicates | plugins/mdevng.c:1218-1222 | a record already present is inserted again, not merged |
| Device.Devnode | plugins/mdevng.c:1134-1138 | the device node is "/dev/" followed by the entry name |
| Device.InterfaceDir | plugins/mdevng.c:1148 | the interface directory is the node path cut (with Chop, the g_strndup of length minus k) by the device node's length: a prefix of the node path; nftw node paths are always longer than the device node, so the cut never runs past the start |
| Device.NumberString | plugins/mdevng.c:1187-1195 | the stored number is decimal, at least two characters, and reads back as the bInterfaceNumber value |
| Device.MakeInfo | plugins/mdevng.c:1545-1550 | a collected record has devpath, devnode, interface and number set, no label, and as sysattr what read_data_in_file (ReadFile) yields for the "interface" file: its contents when it exists, NULL otherwise |
| Device.VendorSpecificReadsAsZero | plugins/mdevng.c:1174-1185 | class, subclass and protocol files holding the hexadecimal "ff" give the interface string "0/0/0", since atoi stops at the first non-decimal character |
| Device.InterfaceStringFields | plugins/mdevng.c:1174-1185 | the "%01d/%01d/%01d" interface string splits back into the three printed numbers, which read back as class, subclass and protocol |
| Uevent.SubsystemTokenIsPrefix | plugins/mdevng.c:1231-1233 | a path component counts when its first three characters are tty, net or hsi |
| Uevent.FirstSubsystem | plugins/mdevng.c:1224-1242 | the subsystem found is the first matching component, and none is found only when no component matches |
| Uevent.GetSubsystem | plugins/mdevng.c:1224-1242 | the loop over the '/'-split message returns the first matching component |
| Uevent.FirstIsFound | plugins/mdevng.c:1230-1237 | a matching component with no match before it is the one returned |
| Uevent.Action | plugins/mdevng.c:1260-1262 | the action is the text before the first '@' |
| Uevent.Subpath | plugins/mdevng.c:1260-1267 | the subpath is the text between the first and second '@', absent when there is no '@' |
| Uevent.EventDevpath | plugins/mdevng.c:1405 | the compared device path always starts with "/sys" |
| Uevent.DecodeHeader | plugins/mdevng.c:1260-1267 | a message action@path decodes into that action and into the device path "/sys" + path |
| Uevent.DecodeHeaderWithTail | plugins/mdevng.c:1260 | text after a second '@' belongs to neither the action nor the subpath |
| Uevent.NoSeparatorNoSubpath | plugins/mdevng.c:1260 | a message without '@' is all action, has no subpath, and compares as "/sys" |
| Classify.Assign | plugins/mdevng.c:712-727 | setting a role to a device node changes that role only, and a NULL node clears it |
| Classify.ZteModemNumber | plugins/mdevng.c:822-870 | zte's modem port is interface 02 for products 0016, 0017 and 0117 and 03 for any other product |
| Classify.Claim | plugins/mdevng.c:712-719 | in the label families an "aux" or "modem" label decides the role before the interface's signature |
| Classify.Step | plugins/mdevng.c:712-719 | the loop breaks only on a labelled interface, and only once both Aux and Modem are known |
| Classify.IsiAddress | plugins/mdevng.c:123-134 | setup_isi's address is 16 exactly when an "820" interface has signature 2/254/0, otherwise 0 |
| Classify.Finish | plugins/mdevng.c:115-980 | a classifier succeeds exactly when every role of one of its required alternatives is set, and then only sets properties |
| ClassifyProps.FoldFinds | plugins/mdevng.c:115-980 | after the loop a role is set exactly when some interface claims it |
| ClassifyProps.SetupSucceedsIff | plugins/mdevng.c:115-980 | a classifier other than mbm succeeds exactly when some required alternative has every role claimed by an interface |
| ClassifyProps.MbmStep | plugins/mdevng.c:148-192 | in setup_mbm the first modem port becomes the modem and a later one the data port |
| ClassifyProps.MbmFold | plugins/mdevng.c:148-192 | mbm's data port is set exactly when two modem ports exist or a modem was already known |
| ClassifyProps.MbmSucceedsIff | plugins/mdevng.c:148-192 | setup_mbm succeeds exactly when there are at least two modem ports |
| ClassifyProps.HuaweiRedirect | plugins/mdevng.c:347-414 | setup_huawei switches the driver to gobi exactly when both QMI and network ports exist, and otherwise needs modem and PCUI ports |
| ClassifyProps.SamsungNeedsControlOrNetwork | plugins/mdevng.c:872-900 | setup_samsung succeeds exactly when some interface is 10/0/0 or 255/0/0 |
| ClassifyProps.GobiNeverSucceedsOnScannedDevices | plugins/mdevng.c:232-271 | on records the scanner builds, which always carry a number, setup_gobi never finds its QMI port and fails |
| ClassifyProps.He910GpsNeverFoundOnScannedDevices | plugins/mdevng.c:742-775 | on scanned records setup_he910 never finds interface "0a", so GPS is set to NULL |
| ClassifyProps.SpeedupNeverSucceedsOnScannedDevices | plugins/mdevng.c:416-449 | setup_speedup only reads labels and the scanner sets none, so it fails |
| ClassifyProps.LabelPairSuffices | plugins/mdevng.c:712-719 | in a label family an "aux" and a "modem" label are enough to succeed |
| ClassifyProps.ZteModemPortFollowsModel | plugins/mdevng.c:830-835 | a product id read with its trailing newline does not match 0016, so zte uses interface 03 |
| ClassifyProps.Ge910Ports | plugins/mdevng.c:699-740 | GE910 ports 00, 02 and 04 of class 2/2/0 become Modem and Aux, with GPS NULL |
| ClassifyProps.DriverNamesDistinct | plugins/mdevng.c:982-1010 | no two driver_list rows share a name |
| ClassifyProps.EveryFamilyHasClassifier | plugins/mdevng.c:982-1010 | every driver family named in vendor_list has a row in driver_list |
| Registry.ProductNameComparedOnEightCharacters | plugins/mdevng.c:1527 | the eight-character compare accepts "idProduct" and also any name starting with "idProduc" |
| Registry.SyspathOf | plugins/mdevng.c:1105-1109 | the syspath is the idVendor path with the eight-character file name cut off by Chop (g_strndup of the length minus eight) |
| Registry.SyspathIsVendorDirectory | plugins/mdevng.c:1105-1109 | the syspath of dir + "idVendor" is dir |
| Registry.DevnameFields | plugins/mdevng.c:1111-1132 | the devname built by Devname splits into /dev/bus/usb and the two "%03d" numbers, which read back as the devpath and devnum values |
| Registry.UsbPathFields | plugins/mdevng.c:1129 | "/dev/bus/usb/a/b" splits into its six components |
| Registry.VisitModemFile | plugins/mdevng.c:1514-1535 | visiting one entry changes only the identity fields, and keeps accepted vendor and product ids accepted |
| Registry.ScanModemInfo | plugins/mdevng.c:1299-1310 | the walk of /sys/devices/ changes only the identity fields and keeps them accepted |
| Registry.LastAcceptedVendorWins | plugins/mdevng.c:1514-1525 | after the walk the vendor and syspath are those of the last accepted idVendor file visited |
| Registry.NoVendorKeepsVendor | plugins/mdevng.c:1514-1525 | a walk with no accepted idVendor file leaves vendor, syspath and devname as they were |
| Registry.WithDriver | plugins/mdevng.c:1051-1071 | adding the driver changes only the driver, a record with vendor and product gets "ge910", and a record missing either is left unchanged |
| Registry.ModemInfo | plugins/mdevng.c:1299-1310 | get_modem_info keeps the device list and the created flag, and keeps the identity fields accepted |
| Registry.Collect | plugins/mdevng.c:1537-1556 | every collected record carries a device node, a decimal number and no label |
| Registry.ScanDevices | plugins/mdevng.c:1537-1556 | the device walk adds exactly the collected records and keeps the list sorted and well formed |
| Registry.WellFormedIdsAccepted | plugins/mdevng.c:1505-1511 | the vendor and product of a scanned record are accepted ids |
| Registry.Scan | plugins/mdevng.c:1461-1512 | a successful add_devices yields a not yet created record with accepted ids, a syspath, driver "ge910" and a sorted list that is a permutation of the interfaces the walk of the syspath collects |
| Registry.ScanFailures | plugins/mdevng.c:1461-1476 | add_devices fails when the /sys/devices/ walk fails, when vendor or product is missing, or when the syspath walk fails |
| Registry.Dispatch | plugins/mdevng.c:1589-1599 | a result comes from the classifier of a driver_list row with the driver's name and consists of properties only |
| Registry.DispatchSkipsOtherNames | plugins/mdevng.c:1589-1597 | for driver "ge910" the driver_list loop runs setup_ge910 and no other classifier |
| Registry.DispatchOfScannedRecord | plugins/mdevng.c:1585-1597 | a scanned record is always classified by setup_ge910 |
| Registry.Create | plugins/mdevng.c:1558-1600 | create_modem only sets the created flag, a TRUE result means created but not registered, and a created record is left untouched |
| Registry.RegisteredIff | plugins/mdevng.c:1558-1600 | the modem is registered exactly when it was not yet created, has interfaces, all nodes exist, creation succeeds and its classifier succeeds |
| Registry.RegisteredEffects | plugins/mdevng.c:1585-1595 | a registration issues create, then the ge910 properties, then register, in that order |
| Registry.RetryNeverStopsAfterRegistration | plugins/mdevng.c:1441-1451 | after a registration every later create_modem returns FALSE without effect, so try_to_create_modem keeps rescheduling |
| Registry.RetryStopsOnlyWhenUnclassified | plugins/mdevng.c:1441-1451 | create_modem returns TRUE, stopping the timer, exactly when the modem was created but its classifier failed |
| Registry.Removal | plugins/mdevng.c:1337-1344 | device_info_delete removes the oFono modem exactly when one was created |
| Registry.Handle | plugins/mdevng.c:1244-1276 | an event either keeps the record or drops it, and schedules a rescan only on "add" with no record |
| Registry.AddSchedulesOnlyWithoutModem | plugins/mdevng.c:1262-1265 | an "add" event schedules a three-second rescan exactly when no modem is recorded, whatever its path |
| Registry.RemoveDropsOnlyLoggedDevice | plugins/mdevng.c:1266-1269 | a "remove" event drops the record exactly when its path is one of the recorded interfaces, removes the oFono modem only if it was created, and otherwise changes nothing |
| Registry.OtherActionIgnored | plugins/mdevng.c:1262-1270 | an event whose action is neither "add" nor "remove" changes nothing and makes no call |
| Registry.RemoveEventForListedInterface | plugins/mdevng.c:1266-1269 | removing a recorded interface's path tears the whole modem down |
| Registry.IrrelevantEventIgnored | plugins/mdevng.c:1255-1258 | a message with no tty, net or hsi component changes nothing |
| Registry.NodesPresent | plugins/mdevng.c:1574-1583 | the node check succeeds exactly when every interface's device node exists |
| Registry.RunSetups | plugins/mdevng.c:1589-1597 | the driver_list loop gives the result of the row named like the driver |
| Registry.Registry.constructor | plugins/mdevng.c:49 | no modem is recorded at start |
| Registry.Registry.AddVendorId | plugins/mdevng.c:1073-1087 | the vendor is recorded exactly when its first four characters are a known vendor id |
| Registry.Registry.AddModelId | plugins/mdevng.c:1089-1103 | the product is recorded exactly when its first four characters are a known product id |
| Registry.Registry.AddSyspathId | plugins/mdevng.c:1105-1109 | the syspath becomes the idVendor path without its file name |
| Registry.Registry.AddDevname | plugins/mdevng.c:1123-1132 | the devname becomes the "%03d/%03d" USB path |
| Registry.Registry.AddDriver | plugins/mdevng.c:1051-1071 | the driver is set as driver resolution gives it |
| Registry.Registry.FindModemInfoFile | plugins/mdevng.c:1514-1535 | one visited entry updates the record as VisitModemFile says |
| Registry.Registry.GetModemInfo | plugins/mdevng.c:1299-1310 | the record after the walk is ModemInfo's, or none when the walk fails |
| Registry.Registry.AddInfoInList | plugins/mdevng.c:1218-1222 | the record is inserted in sorted position |
| Registry.Registry.FindDeviceInfoFile | plugins/mdevng.c:1537-1556 | a ttyACM entry adds its interface record and any other entry changes nothing |
| Registry.Registry.WalkDevices | plugins/mdevng.c:1317 | the device walk inserts every collected record in visiting order |
| Registry.Registry.GetDeviceInfo | plugins/mdevng.c:1312-1323 | success exactly when the syspath walk succeeds, and on failure the devices are deleted and a created modem is removed |
| Registry.Registry.DeviceInfoDelete | plugins/mdevng.c:1337-1366 | the oFono modem is removed if created, and the interface list is emptied |
| Registry.Registry.ModemInfoDelete | plugins/mdevng.c:1368-1400 | the record is gone |
| Registry.Registry.RemoveDevices | plugins/mdevng.c:1453-1459 | teardown removes a created oFono modem and forgets the record |
| Registry.Registry.AddDevices | plugins/mdevng.c:1461-1512 | the record after add_devices is Scan's, and the result says whether there is one |
| Registry.Registry.CreateModem | plugins/mdevng.c:1558-1600 | result, record and effects are those of Create |
| Registry.Registry.TryToCreateModem | plugins/mdevng.c:1441-1451 | with no record and a failing scan it reschedules, and otherwise it runs create_modem and reschedules unless that returns TRUE |
| Registry.Registry.IsLogged | plugins/mdevng.c:1402-1418 | true exactly when "/sys" + subpath is the devpath of a recorded interface |
| Registry.Registry.IsUnlogged | plugins/mdevng.c:1420-1439 | true exactly when no modem is recorded, whatever the path |
| Registry.Registry.OnEvent | plugins/mdevng.c:1244-1276 | a channel error stops the watch and changes nothing, and otherwise the watch stays and the record and effects are Handle's |
| Registry.Registry.DetectInit | plugins/mdevng.c:1622-1632 | start-up records the scanned modem and runs create_modem on it, or records nothing |
| Registry.Registry.DetectExit | plugins/mdevng.c:1634-1638 | exit removes a created modem and forgets the record |
| Ge910.SimTransition | plugins/ge910.c:274-301 | status 0 clears have_sim, 3 sets it, other statuses keep it, and a change is always announced by a final inserted-notify carrying the new value |
| Ge910.ReadyIsIdempotent | plugins/ge910.c:290-296 | a second "ready" status changes nothing and calls nothing |
| Ge910.NotInsertedClears | plugins/ge910.c:281-286 | status 0 clears the flag and notifies removal only when a SIM was present |
| Ge910.OtherStatusesKeepFlag | plugins/ge910.c:287-299 | statuses other than 0 and 3 keep the flag, notify nothing, never power on, and unknown ones only warn |
| Ge910.PoweredOnlyWhenSimBecomesReady | plugins/ge910.c:290-296 | the modem is powered exactly on status 3 when no SIM was present |
| Ge910.TransitionNotifications | plugins/ge910.c:274-301 | one status emits an inserted-notify exactly when the flag changes, carrying the new value |
| Ge910.NotificationsAlternate | plugins/ge910.c:274-301 | over any sequence of statuses the inserted-notify values alternate, the first differs from the initial flag, and the last equals the final flag |
| Ge910.RemovedSources | plugins/ge910.c:169-172 | exactly the non-zero timeout ids are removed |
| Ge910.UnrefedDlcs | plugins/ge910.c:174-180 | exactly the open channels are released |
| Ge910.ClosedChannelsNotReleased | plugins/ge910.c:174-180 | with every channel closed nothing is released |
| Ge910.SecondShutdownRemovesAgain | plugins/ge910.c:163-195 | a second shutdown releases no channel but removes the same non-zero timeout ids again, since the slots are not cleared |
| Ge910.EnableCalls | plugins/ge910.c:372-410 | enable makes eight calls (seven commands and the SIM detection timer), nine with the status LED, and the last one is AT+CMUX=0,0,5,128 |
| Ge910.Ge910Data.Probe | plugins/ge910.c:519-538 | a new driver state has every timer slot zero, no channel, mux or device, and no SIM |
| Ge910.Ge910Data.SwitchSimStateStatus | plugins/ge910.c:274-301 | the flag and calls follow SimTransition, and nothing else changes |
| Ge910.Ge910Data.RemoveTimeouts | plugins/ge910.c:547-550 | the non-zero timer ids are removed |
| Ge910.Ge910Data.ShutdownDevice | plugins/ge910.c:163-195 | every channel, the mux and the device are released and cleared, the timer slots are left as they were, and the calls are ShutdownCalls |
| Ge910.Ge910Data.EnableSimDet | plugins/ge910.c:342-356 | sends AT#SIMDET=1, clears its timer slot and does not repeat |
| Ge910.OpenReleases | plugins/ge910.c:119-130 | open_device releases the tty channel only when it opened one, and each call it makes in doing so is g_io_channel_unref |
| Ge910.Ge910Data.Enable | plugins/ge910.c:358-413 | on a failed open returns -EIO with have_sim and the timers untouched, data->device kept if no channel was opened and cleared if the chat failed; otherwise holds the channel as data->device, sends the enable sequence ending in CMUX, records the timer, resets have_sim before CMUX and returns -EINPROGRESS |
| Ge910.Ge910Data.Disable | plugins/ge910.c:415-425 | shuts the device down, then powers off and returns -EINPROGRESS |
| Ge910.Ge910Data.SetOnline | plugins/ge910.c:477-488 | sends AT+CFUN=1,0 (full functionality) when going online and AT+CFUN=4,0 (flight mode) when going offline, on the setup channel |
| Ge910.Ge910Data.Remove | plugins/ge910.c:540-555 | removes every non-zero timer id still in the slots |
| Ge910.EnableDisableRemove | plugins/ge910.c:540-555 | after enable and disable, remove calls g_source_remove on the enable timer a second time; and the tty channel is unreferenced both by enable (in open_device) and by disable (in shutdown_device) |

## Left out

- The netlink socket and its GLib watch are not modelled: `mdev_device_get_socket`, `start_usb_detection` and the `recv` into a 1024-byte buffer. A message is given as the text up to its first NUL.
- `nftw` is not performed. Its visit order, entry names and success are data in `Sysfs`.
- `g_file_test` and `g_file_get_contents` become a set of existing nodes and a map of file contents.
- `ofono_modem_create` becomes a boolean parameter. The calls into oFono and GLib are recorded as `Effect` and `Call` values and not performed.
- Allocation failure is not modelled: `g_try_new0`, `g_malloc` and the -ENOMEM path of `ge910_probe`.
- Memory ownership, frees and leaks are not modelled.
- NULL dereferences are not modelled. An unreadable `devpath` or `devnum` file (`atoi(NULL)`), an unreadable `idVendor` or `idProduct` file (`strncmp(NULL, …)`), and a missing `bInterface*` file crash the plugin. In the last case `mdev_device_get_interface` calls `remove_devices` and its callers go on using `modem`. Instead, `DevnameReadable`, `ModemFileReadable` and `Readable` require the files to be present.
- The 255-byte limit (`DEVICES_PATH_MAX`) on `g_snprintf` output and on `g_utf8_strlen` counts is not modelled. Paths and names are taken as shorter than that.
- `g_utf8_strlen` counts code points and the model counts `char`s.
- CString.Chop: a cut longer than the string is not modelled. The source never makes one, since nftw paths end in the entry name and start with the walked root; there GLib would read the negative length as a huge size and abort, while the model returns the string unchanged.
- CFormat.Atoi: the overflow of `atoi` on text beyond the range of `int` is not modelled. Integers are unbounded; the sysfs values read are small numbers.
- Registry.Registry.DeviceInfoDelete: `device_info_delete` leaves `modem->devices` pointing at the freed list. The model empties the list and does not capture the dangling reference.
- Registry.Scan: the device list is stated as a sorted permutation of the collected records. Its exact order among records with equal numbers is not stated.
- mdevng.c is modelled without its `DBG` tracing and its log messages. In ge910.c, `ofono_warn` is kept as a `Warn` call.
- `mdev_device_add_label` is modelled only by its effect, a NULL label. The label it would compute is unfinished in the source.
- `open_device` is modelled only by its outcome (`Ge910.OpenOutcome`): whether a channel was kept as `data->device`, and whether a chat was made on it, together with the channel releases it makes. The AT syntax, the tty options and `OFONO_AT_DEBUG` are not modelled.
- Several ge910.c callbacks are not modelled: `create_chat`, `setup_internal_mux`, `mux_setup_cb`, `ge910_qss_cb`, `ge910_qss_notify`, `ge910_pre_sim`, `ge910_post_sim`, `ge910_post_online`, `set_online_cb`, `ge910_init` and `ge910_exit`. They talk to the AT parser and the oFono atom drivers. Their outcome enters the model as parameters: how `open_device` ended, and the SIM status code.
- Ge910.Ge910Data.Enable: whether `OFONO_TELIT_STATUS` is set, and the timer id `g_timeout_add_seconds` returns, are parameters.
