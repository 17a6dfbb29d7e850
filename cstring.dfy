/** C and GLib string primitives as the discovery plugin uses them.
    A C `char *` is a `CStr`: `None` stands for NULL, `Some(s)` for a
    NUL-terminated string whose characters are `s` (no embedded NUL). */
module CString {

  datatype Option<+T> = None | Some(value: T)

  type CStr = Option<string>

  function Min(a: int, b: int): int { if a <= b then a else b }

  /** The sign of strcmp(a, b): characters compare as unsigned codes and a
      proper prefix sorts first. */
  function StrCmp(a: string, b: string): (r: int)
    ensures -1 <= r <= 1
    ensures r == 0 <==> a == b
  {
    if a == [] && b == [] then 0
    else if a == [] then -1
    else if b == [] then 1
    else if a[0] < b[0] then -1
    else if a[0] > b[0] then 1
    else
      assert a == [a[0]] + a[1..] && b == [b[0]] + b[1..];
      StrCmp(a[1..], b[1..])
  }

  lemma {:induction false} StrCmpAntisymmetric(a: string, b: string)
    ensures StrCmp(a, b) == -StrCmp(b, a)
  {
    if a != [] && b != [] && a[0] == b[0] {
      StrCmpAntisymmetric(a[1..], b[1..]);
    }
  }

  lemma {:induction false} StrCmpTransitive(a: string, b: string, c: string)
    requires StrCmp(a, b) <= 0 && StrCmp(b, c) <= 0
    ensures StrCmp(a, c) <= 0
  {
    if a != [] && b != [] && c != [] && a[0] == b[0] && b[0] == c[0] {
      StrCmpTransitive(a[1..], b[1..], c[1..]);
    }
  }

  /** g_strcmp0: like strcmp, but NULL is accepted and sorts before every string. */
  function StrCmp0(a: CStr, b: CStr): (r: int)
    ensures -1 <= r <= 1
    ensures r == 0 <==> a == b
    ensures a == None && b != None ==> r < 0
  {
    match (a, b)
    case (None, None) => 0
    case (None, Some(_)) => -1
    case (Some(_), None) => 1
    case (Some(x), Some(y)) => StrCmp(x, y)
  }

  lemma StrCmp0Antisymmetric(a: CStr, b: CStr)
    ensures StrCmp0(a, b) == -StrCmp0(b, a)
  {
    if a.Some? && b.Some? {
      StrCmpAntisymmetric(a.value, b.value);
    }
  }

  lemma StrCmp0Transitive(a: CStr, b: CStr, c: CStr)
    requires StrCmp0(a, b) <= 0 && StrCmp0(b, c) <= 0
    ensures StrCmp0(a, c) <= 0
  {
    if a.Some? && b.Some? && c.Some? {
      StrCmpTransitive(a.value, b.value, c.value);
    }
  }

  /** The first n characters of s, or all of s when it is shorter. */
  function Take(s: string, n: nat): string { s[..Min(n, |s|)] }

  /** strncmp(a, b, n) == 0. */
  predicate StrNEq(a: string, b: string, n: nat)
  {
    Take(a, n) == Take(b, n)
  }

  /** Against a pattern of exactly n characters, strncmp(a, p, n) == 0 says
      that a starts with p. */
  lemma StrNEqIsPrefix(a: string, p: string)
    ensures StrNEq(a, p, |p|) <==> |p| <= |a| && a[..|p|] == p
  {
  }

  /** g_str_has_prefix; a NULL string has no prefix. */
  predicate HasPrefix(s: CStr, p: string)
  {
    s.Some? && |p| <= |s.value| && s.value[..|p|] == p
  }

  /** g_str_has_suffix; a NULL string has no suffix. */
  predicate HasSuffix(s: CStr, p: string)
  {
    s.Some? && |p| <= |s.value| && s.value[|s.value| - |p|..] == p
  }

  /** g_strndup(s, |s| - k): the first |s| - k characters. The source
      only calls it with k at most |s| (nftw paths end in the entry name
      and start with the walked root); a larger k would turn the signed
      difference into a huge size and GLib would abort, which is not
      modelled: s is returned unchanged there. */
  function Chop(s: string, k: nat): (r: string)
    ensures k <= |s| ==> |r| == |s| - k && r == s[..|s| - k]
    ensures k > |s| ==> r == s
  {
    if k <= |s| then s[..|s| - k] else s
  }

  /** The fields of s between occurrences of sep, empty fields included:
      g_strsplit(s, sep, -1) for a non-empty s. */
  function Fields(s: string, sep: char): (r: seq<string>)
    ensures |r| >= 1
    ensures forall i :: 0 <= i < |r| ==> sep !in r[i]
  {
    if s == [] then [""]
    else
      var rest := Fields(s[1..], sep);
      if s[0] == sep then [""] + rest
      else [[s[0]] + rest[0]] + rest[1..]
  }

  /** Fields joined back with the separator. */
  function Join(fs: seq<string>, sep: char): string
  {
    if fs == [] then ""
    else if |fs| == 1 then fs[0]
    else fs[0] + [sep] + Join(fs[1..], sep)
  }

  lemma {:induction false} JoinFields(s: string, sep: char)
    ensures Join(Fields(s, sep), sep) == s
  {
    if s != [] {
      var rest := Fields(s[1..], sep);
      JoinFields(s[1..], sep);
      if s[0] == sep {
        assert Fields(s, sep) == [""] + rest;
        assert Join([""] + rest, sep) == "" + [sep] + Join(rest, sep);
        assert s == [s[0]] + s[1..];
      } else {
        var r := Fields(s, sep);
        assert r == [[s[0]] + rest[0]] + rest[1..];
        if |rest| == 1 {
          assert Join(rest, sep) == rest[0];
          assert r == [[s[0]] + rest[0]];
        } else {
          assert Join(rest, sep) == rest[0] + [sep] + Join(rest[1..], sep);
          assert r[1..] == rest[1..];
          assert Join(r, sep) == [s[0]] + rest[0] + [sep] + Join(rest[1..], sep);
        }
        assert s == [s[0]] + s[1..];
      }
    }
  }

  /** Splitting a prefix that holds no separator off at a separator. */
  lemma {:induction false} FieldsAppend(a: string, b: string, sep: char)
    requires sep !in a
    ensures Fields(a + [sep] + b, sep) == [a] + Fields(b, sep)
  {
    if a == [] {
      assert a + [sep] + b == [sep] + b;
      assert ([sep] + b)[1..] == b;
    } else {
      var s := a + [sep] + b;
      assert s[0] == a[0];
      assert s[1..] == a[1..] + [sep] + b;
      FieldsAppend(a[1..], b, sep);
      assert [a[0]] + a[1..] == a;
    }
  }

  /** FieldsAppend for a '/'-separated path written with a string literal. */
  lemma FieldsSlash(h: string, t: string)
    requires '/' !in h
    ensures Fields(h + "/" + t, '/') == [h] + Fields(t, '/')
  {
    assert h + "/" + t == h + ['/'] + t;
    FieldsAppend(h, t, '/');
  }

  /** A string without the separator is a single field. */
  lemma {:induction false} FieldsWithoutSeparator(s: string, sep: char)
    requires sep !in s
    ensures Fields(s, sep) == [s]
  {
    if s != [] {
      FieldsWithoutSeparator(s[1..], sep);
      assert s == [s[0]] + s[1..];
    }
  }

  /** g_strsplit(s, sep, max): GLib returns no token at all for an empty string. */
  function Split(s: string, sep: char): (r: seq<string>)
    ensures s == [] <==> r == []
    ensures s != [] ==> Join(r, sep) == s
  {
    if s == [] then [] else JoinFields(s, sep); Fields(s, sep)
  }
}
