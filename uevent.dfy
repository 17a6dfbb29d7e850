/** Decoding of a kernel uevent header such as
    "add@/devices/.../1-1:1.0/tty/ttyACM0": the subsystem test that decides
    whether the event matters, and the action and device path on either
    side of the first '@'. The header is the text of the received buffer up
    to its first NUL. */
module Uevent {
  import opened CString

  /** A path component the plugin cares about: strncmp(t, x, 3) == 0 for
      one of "tty", "net" and "hsi". */
  predicate SubsystemToken(t: string)
  {
    StrNEq(t, "tty", 3) || StrNEq(t, "net", 3) || StrNEq(t, "hsi", 3)
  }

  lemma SubsystemTokenIsPrefix(t: string)
    ensures SubsystemToken(t) <==> |t| >= 3 && t[..3] in {"tty", "net", "hsi"}
  {
    StrNEqIsPrefix(t, "tty");
    StrNEqIsPrefix(t, "net");
    StrNEqIsPrefix(t, "hsi");
  }

  /** The first component of toks that is a subsystem token. */
  function FirstSubsystem(toks: seq<string>): (r: CStr)
    ensures r.None? <==> forall i :: 0 <= i < |toks| ==> !SubsystemToken(toks[i])
    ensures r.Some? ==> exists i :: 0 <= i < |toks| && toks[i] == r.value && SubsystemToken(toks[i]) &&
                                    forall k :: 0 <= k < i ==> !SubsystemToken(toks[k])
  {
    if toks == [] then None
    else if SubsystemToken(toks[0]) then Some(toks[0])
    else
      var r := FirstSubsystem(toks[1..]);
      assert forall k :: 1 <= k < |toks| ==> toks[k] == toks[1..][k - 1];
      r
  }

  /** mdev_device_get_subsystem: the header split on '/', searched in
      order. */
  method GetSubsystem(msg: string) returns (r: CStr)
    ensures r == FirstSubsystem(Split(msg, '/'))
  {
    var toks := Split(msg, '/');
    var i := 0;
    while i < |toks|
      invariant 0 <= i <= |toks|
      invariant forall k :: 0 <= k < i ==> !SubsystemToken(toks[k])
    {
      if StrNEq(toks[i], "tty", 3) || StrNEq(toks[i], "net", 3) || StrNEq(toks[i], "hsi", 3) {
        FirstIsFound(toks, i);
        return Some(toks[i]);
      }
      i := i + 1;
    }
    return None;
  }

  lemma FirstIsFound(toks: seq<string>, i: nat)
    requires i < |toks| && SubsystemToken(toks[i])
    requires forall k :: 0 <= k < i ==> !SubsystemToken(toks[k])
    ensures FirstSubsystem(toks) == Some(toks[i])
  {
    var r := FirstSubsystem(toks);
    var j :| 0 <= j < |toks| && toks[j] == r.value && SubsystemToken(toks[j]) &&
             forall k :: 0 <= k < j ==> !SubsystemToken(toks[k]);
    assert j == i;
  }

  /** tmp[0] of g_strsplit(msg, "@", 3): the text before the first '@'. */
  function Action(msg: string): (a: string)
    ensures '@' !in a
  {
    Fields(msg, '@')[0]
  }

  /** tmp[1] of g_strsplit(msg, "@", 3): the text between the first and
      the second '@', or NULL when there is no '@'. */
  function Subpath(msg: string): (p: CStr)
    ensures p.Some? ==> '@' !in p.value
  {
    var f := Fields(msg, '@');
    if |f| >= 2 then Some(f[1]) else None
  }

  /** The device path an event names: "/sys" followed by the subpath
      (g_strconcat stops at a NULL subpath, leaving "/sys"). */
  function EventDevpath(msg: string): (p: string)
    ensures HasPrefix(Some(p), "/sys")
  {
    match Subpath(msg)
    case None => "/sys"
    case Some(s) => "/sys" + s
  }

  /** A header built as action@path decodes back into its two parts. */
  lemma DecodeHeader(action: string, path: string)
    requires '@' !in action && '@' !in path
    ensures Action(action + "@" + path) == action
    ensures Subpath(action + "@" + path) == Some(path)
    ensures EventDevpath(action + "@" + path) == "/sys" + path
  {
    FieldsAppend(action, path, '@');
    FieldsWithoutSeparator(path, '@');
  }

  /** Anything after a second '@' is not part of the device path. */
  lemma DecodeHeaderWithTail(action: string, path: string, tail: string)
    requires '@' !in action && '@' !in path
    ensures Action(action + "@" + path + "@" + tail) == action
    ensures Subpath(action + "@" + path + "@" + tail) == Some(path)
  {
    FieldsAppend(path, tail, '@');
    FieldsAppend(action, path + "@" + tail, '@');
    assert action + "@" + path + "@" + tail == action + ['@'] + (path + ['@'] + tail);
  }

  /** A header without '@' has no subpath. */
  lemma NoSeparatorNoSubpath(msg: string)
    requires '@' !in msg
    ensures Action(msg) == msg && Subpath(msg).None? && EventDevpath(msg) == "/sys"
  {
    FieldsWithoutSeparator(msg, '@');
  }
}
