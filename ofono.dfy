/** The calls the discovery plugin makes into oFono and GLib, recorded as
    values instead of being performed. */
module Ofono {
  import opened CString

  datatype Effect =
    | SetString(key: string, value: CStr)  // ofono_modem_set_string
    | SetInteger(key: string, number: int)  // ofono_modem_set_integer
    | SetDriver(name: string)              // ofono_modem_set_driver
    | ModemCreate(driver: CStr)            // ofono_modem_create
    | ModemRegister                        // ofono_modem_register
    | ModemRemove                          // ofono_modem_remove
    | TimerAdd(seconds: nat)               // g_timeout_add_seconds(try_to_create_modem)

  /** A property set on the modem object, as opposed to a change of the
      modem's lifecycle or a timer. */
  predicate IsProperty(e: Effect)
  {
    e.SetString? || e.SetInteger? || e.SetDriver?
  }
}
