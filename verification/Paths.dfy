/** File paths as the standard library joins them, on Unix and on Windows. A Windows path can have
    a prefix, such as a drive or a network share, and a root behind it; it is absolute only with
    both. A drive without a root names a directory that the process happens to have on it. */
module Paths {
  import opened Text

  /** On Windows, joining to a path that begins with a verbatim prefix normalises what lies behind
      the prefix; how is left to the host. */
  datatype Platform = Unix | Windows(normalized: (string, string) -> string)

  predicate IsSeparator(c: char) {
    c == '\\' || c == '/'
  }

  predicate IsLetter(c: char) {
    'a' <= c <= 'z' || 'A' <= c <= 'Z'
  }

  /** Where the component that begins at a position ends. */
  function EndOf(path: string, at: nat): (end: nat)
    requires at <= |path|
    ensures at <= end <= |path| && (forall k | at <= k < end :: !IsSeparator(path[k]))
    ensures end < |path| ==> IsSeparator(path[end])
    decreases |path| - at
  {
    if at == |path| || IsSeparator(path[at]) then at else EndOf(path, at + 1)
  }

  /** The prefix of a Windows path. Shares, devices and verbatim prefixes have a root of their own. */
  datatype Prefix = NoPrefix | Drive | Rooted(length: nat) | Verbatim

  const VERBATIM_LENGTH: nat := 4

  predicate IsVerbatim(path: string) {
    VERBATIM_LENGTH <= |path| && path[0] == '\\' && path[1] == '\\' && path[2] == '?' && path[3] == '\\'
  }

  predicate IsDevice(path: string) {
    4 <= |path| && IsSeparator(path[0]) && IsSeparator(path[1]) && path[2] == '.' && IsSeparator(path[3])
  }

  /** A server and a share, both named. */
  function ShareOf(path: string): (p: Prefix)
    requires 2 <= |path|
    ensures p == NoPrefix || (p.Rooted? && 5 <= p.length <= |path|)
  {
    var server := EndOf(path, 2);
    if server == 2 || server == |path| then NoPrefix else
      var share := EndOf(path, server + 1);
      if share == server + 1 then NoPrefix else Rooted(share)
  }

  function PrefixOf(path: string): (p: Prefix)
    ensures p.Rooted? ==> 4 <= p.length <= |path|
    ensures p.Drive? ==> 2 <= |path|
  {
    if IsVerbatim(path) then Verbatim
    else if IsDevice(path) then Rooted(EndOf(path, 4))
    else if 2 <= |path| && IsSeparator(path[0]) && IsSeparator(path[1]) then ShareOf(path)
    else if 2 <= |path| && IsLetter(path[0]) && path[1] == ':' then Drive
    else NoPrefix
  }

  function PrefixLength(path: string): (n: nat)
    ensures n <= |path|
  {
    match PrefixOf(path)
    case NoPrefix => 0
    case Drive => 2
    case Rooted(length) => length
    case Verbatim => VERBATIM_LENGTH
  }

  /** A drive with no root behind it, as in D:vmlinux. */
  predicate DriveRelative(platform: Platform, path: string) {
    platform.Windows? && PrefixOf(path).Drive? && !(2 < |path| && IsSeparator(path[2]))
  }

  predicate IsAbsolute(platform: Platform, path: string) {
    match platform
    case Unix => path != "" && path[0] == '/'
    case Windows(_) => !PrefixOf(path).NoPrefix? && !DriveRelative(platform, path)
  }

  function JoinUnix(base: string, path: string): string {
    if IsAbsolute(Unix, path) || base == "" then path
    else if base[|base| - 1] == '/' then base + path
    else base + "/" + path
  }

  /** A path with a prefix replaces the base; one with only a root keeps the base's prefix. */
  function JoinWindows(normalized: (string, string) -> string, base: string, path: string): string {
    if !PrefixOf(path).NoPrefix? then path
    else if IsVerbatim(base) && path != "" then
      base[..VERBATIM_LENGTH] + normalized(base[VERBATIM_LENGTH..], path)
    else if path != "" && IsSeparator(path[0]) then base[..PrefixLength(base)] + path
    else if base == "" || IsSeparator(base[|base| - 1]) || (PrefixOf(base).Drive? && |base| == 2) then base + path
    else base + "\\" + path
  }

  function JoinPath(platform: Platform, base: string, path: string): string {
    match platform
    case Unix => JoinUnix(base, path)
    case Windows(normalized) => JoinWindows(normalized, base, path)
  }

  /** The path itself if it is absolute, else the base joined with it. */
  function Resolve(platform: Platform, base: string, path: string): string {
    if IsAbsolute(platform, path) then path else JoinPath(platform, base, path)
  }

  // ---- What resolving gives ---------------------------------------------------------------

  /** More text behind a separator does not move the end of a component before it. */
  lemma {:induction false} EndStays(path: string, more: string, at: nat)
    requires at <= |path| && path <= more && (EndOf(path, at) == |path| < |more| ==> IsSeparator(more[|path|]))
    ensures EndOf(more, at) == EndOf(path, at)
    decreases |path| - at
  {
    if at < |path| && !IsSeparator(path[at]) {
      EndStays(path, more, at + 1);
    }
  }

  /** Text added to an absolute path, as a new component, leaves it absolute. */
  lemma ExtendedIsAbsolute(platform: Platform, path: string, more: string)
    requires platform.Windows? && IsAbsolute(platform, path) && path <= more
    requires |path| < |more| ==> IsSeparator(more[|path|]) || IsSeparator(path[|path| - 1])
    ensures IsAbsolute(platform, more)
  {
    if PrefixOf(path).Rooted? && !IsDevice(path) {
      var server := EndOf(path, 2);
      EndStays(path, more, 2);
      EndStays(path, more, server + 1);
    }
  }

  /** The prefix of an absolute path with a root behind it is absolute. */
  lemma RootedIsAbsolute(platform: Platform, base: string, path: string)
    requires platform.Windows? && IsAbsolute(platform, base) && path != "" && IsSeparator(path[0])
    ensures IsAbsolute(platform, base[..PrefixLength(base)] + path)
  {
    var n := PrefixLength(base);
    var joined := base[..n] + path;
    if PrefixOf(base).Rooted? && !IsDevice(base) {
      ShareAlone(base);
      assert PrefixOf(base[..n]) == Rooted(n);
      ExtendedIsAbsolute(platform, base[..n], joined);
    }
  }

  /** A share without what lies behind it is the same share. */
  lemma ShareAlone(path: string)
    requires PrefixOf(path).Rooted? && !IsDevice(path)
    ensures PrefixOf(path[..PrefixOf(path).length]) == PrefixOf(path)
  {
    var n := PrefixOf(path).length;
    var server := EndOf(path, 2);
    EndCut(path, 2, n);
    EndCut(path, server + 1, n);
  }

  lemma {:induction false} EndCut(path: string, at: nat, n: nat)
    requires at <= n <= |path| && EndOf(path, at) <= n
    ensures EndOf(path[..n], at) == EndOf(path, at)
    decreases |path| - at
  {
    if at < n && !IsSeparator(path[at]) {
      EndCut(path, at + 1, n);
    }
  }

  /** A path resolved against an absolute directory is absolute unless it was drive-relative; then
      it stays what it was. */
  lemma ResolvedIsAbsolute(platform: Platform, base: string, path: string)
    requires IsAbsolute(platform, base)
    ensures IsAbsolute(platform, Resolve(platform, base, path)) <==> !DriveRelative(platform, path)
    ensures DriveRelative(platform, path) ==> Resolve(platform, base, path) == path
  {
    if platform.Windows? && PrefixOf(path).NoPrefix? {
      if IsVerbatim(base) && path != "" {
        assert IsVerbatim(JoinPath(platform, base, path));
      } else if path != "" && IsSeparator(path[0]) {
        RootedIsAbsolute(platform, base, path);
      } else {
        ExtendedIsAbsolute(platform, base, JoinPath(platform, base, path));
      }
    }
  }

  /** Resolving again, wherever, changes nothing; and a resolved path is never empty. */
  lemma ResolvedIsFixed(platform: Platform, base: string, path: string, other: string)
    requires IsAbsolute(platform, base)
    ensures var r := Resolve(platform, base, path); r != "" && Resolve(platform, other, r) == r
  {
    ResolvedIsAbsolute(platform, base, path);
  }

  /** A kernel on another drive, named without a root. */
  lemma DriveRelativeInput(platform: Platform, base: string)
    requires platform.Windows?
    ensures DriveRelative(platform, "D:vmlinux") && !IsAbsolute(platform, "D:vmlinux")
    ensures Resolve(platform, base, "D:vmlinux") == "D:vmlinux"
  {
    var path := "D:vmlinux";
    assert path[0] == 'D' && path[1] == ':' && path[2] == 'v';
  }

  // ---- Plain relative paths ---------------------------------------------------------------

  /** A path that begins with the name of a file or directory. */
  predicate Plain(platform: Platform, path: string) {
    path != ""
    && match platform
       case Unix => path[0] != '/'
       case Windows(_) => !IsSeparator(path[0]) && !(2 <= |path| && IsLetter(path[0]) && path[1] == ':')
  }

  predicate EndsInSeparator(platform: Platform, base: string) {
    base != ""
    && match platform
       case Unix => base[|base| - 1] == '/'
       case Windows(_) => IsSeparator(base[|base| - 1])
  }

  /** Such a path resolves to the base, one separator and the path. What a verbatim base makes of it
      on Windows is left to the host. */
  lemma PlainIsBelowBase(platform: Platform, base: string, path: string)
    requires IsAbsolute(platform, base) && Plain(platform, path)
    requires platform.Windows? ==> !IsVerbatim(base)
    ensures var separator := if platform.Windows? then "\\" else "/";
      Resolve(platform, base, path)
      == if EndsInSeparator(platform, base) then base + path else base + separator + path
  {
  }
}
