/** A model of `unixify` from test/utils/path.js: the tests compare file
    paths after turning Windows separators into `/` and lower-casing an
    upper-case drive letter, so that one expected value serves every host. */
module PathUtil {

  predicate IsUpper(c: char) {
    'A' <= c <= 'Z'
  }

  /** `toLowerCase` on an upper-case ASCII letter; other characters are kept. */
  function ToLower(c: char): (r: char)
    ensures IsUpper(c) ==> 'a' <= r <= 'z' && r as int - c as int == 'a' as int - 'A' as int
    ensures !IsUpper(c) ==> r == c
  {
    if IsUpper(c) then (c as int + ('a' as int - 'A' as int)) as char else c
  }

  /** First step, `replace(/\\/g, '/')`: every backslash becomes a slash and
      every other character stays where it is. */
  function Slashed(s: string): (r: string)
    ensures |r| == |s|
    ensures '\\' !in r
    ensures forall i :: 0 <= i < |s| && s[i] == '\\' ==> r[i] == '/'
    ensures forall i :: 0 <= i < |s| && s[i] != '\\' ==> r[i] == s[i]
  {
    if s == [] then []
    else [if s[0] == '\\' then '/' else s[0]] + Slashed(s[1..])
  }

  /** The regular expression `^[A-Z](?=:\/)` matches: the string starts with
      an upper-case letter followed by `:/`. */
  predicate HasUpperDrive(s: string) {
    |s| >= 3 && IsUpper(s[0]) && s[1] == ':' && s[2] == '/'
  }

  /** Second step, `replace(/^[A-Z](?=:\/)/, letter => letter.toLowerCase())`:
      only the first character can change, and only when it is an upper-case
      drive letter. */
  function LowerDrive(s: string): (r: string)
    ensures |r| == |s|
    ensures !HasUpperDrive(r)
    ensures forall i :: 0 < i < |s| ==> r[i] == s[i]
    ensures |s| > 0 ==> r[0] == (if HasUpperDrive(s) then ToLower(s[0]) else s[0])
  {
    if HasUpperDrive(s) then [ToLower(s[0])] + s[1..] else s
  }

  /** `unixify(file)`: the two replacements in order. */
  function Unixify(p: string): (r: string)
    ensures |r| == |p|
    ensures '\\' !in r
    ensures !HasUpperDrive(r)
  {
    LowerDrive(Slashed(p))
  }

  /** The drive-letter test sees the path after its backslashes are
      converted, so `C:\` counts as a drive just as `C:/` does. */
  predicate DriveInInput(p: string) {
    |p| >= 3 && IsUpper(p[0]) && p[1] == ':' && (p[2] == '/' || p[2] == '\\')
  }

  /** Character by character, `unixify` is one pass over its input: a
      backslash becomes `/`, the first character is lower-cased exactly when
      the input starts with an upper-case drive letter followed by `:/` or
      `:\`, and every other character is kept. */
  lemma UnixifyAt(p: string, i: nat)
    requires i < |p|
    ensures Unixify(p)[i] ==
      if i == 0 && DriveInInput(p) then ToLower(p[0])
      else if p[i] == '\\' then '/'
      else p[i]
  {
    assert HasUpperDrive(Slashed(p)) <==> DriveInInput(p);
  }

  /** Only two kinds of change happen: a backslash becomes `/`, or the first
      character, an upper-case letter, becomes its lower-case form. */
  lemma UnixifyChanges(p: string, i: nat)
    requires i < |p| && Unixify(p)[i] != p[i]
    ensures (p[i] == '\\' && Unixify(p)[i] == '/') ||
            (i == 0 && IsUpper(p[0]) && Unixify(p)[0] == ToLower(p[0]))
  {
    UnixifyAt(p, i);
  }

  /** A Windows path becomes a lower-case-drive path with slashes. */
  lemma UnixifyWindowsPath()
    ensures Unixify("C:\\a\\b") == "c:/a/b"
  {
    assert Slashed("C:\\a\\b") == "C:/a/b";
  }

  /** A path with no backslash and no upper-case drive letter is returned
      unchanged. */
  lemma {:induction false} UnixifyKeeps(p: string)
    requires '\\' !in p && !HasUpperDrive(p)
    ensures Unixify(p) == p
  {
    SlashedKeeps(p);
  }

  /** A string without backslashes is a fixed point of the first step. */
  lemma {:induction false} SlashedKeeps(s: string)
    requires '\\' !in s
    ensures Slashed(s) == s
  {
    if s != [] {
      assert s[0] in s;
      SlashedKeeps(s[1..]);
    }
  }

  /** `unixify` is idempotent. */
  lemma UnixifyIdempotent(p: string)
    ensures Unixify(Unixify(p)) == Unixify(p)
  {
    UnixifyKeeps(Unixify(p));
  }
}
