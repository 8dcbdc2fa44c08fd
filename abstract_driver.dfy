/**
 * The platform predicates every driver inherits.  The PHP code reads the
 * `PHP_OS` constant and the result of `php_uname()`; here both are parameters.
 */
module AbstractDriver {
  import opened Wrappers

  const WINDOWS_OS_NAME := "WINNT"
  const MAC_OS_NAME := "Darwin"
  /** The marker a Windows-hosted Linux kernel puts in its uname string. */
  const MICROSOFT_MARKER := "Microsoft"

  /** `needle` occurs in `haystack` starting at character offset `i`. */
  predicate OccursAt(haystack: string, needle: string, i: nat) {
    i + |needle| <= |haystack| && haystack[i..i + |needle|] == needle
  }

  /** PHP's `strpos`: the first offset at or after `from` where `needle` occurs. */
  function StrposFrom(haystack: string, needle: string, from: nat): (r: Option<nat>)
    decreases |haystack| - from
    ensures r.Some? ==> from <= r.value && OccursAt(haystack, needle, r.value)
    ensures r.Some? ==> forall j :: from <= j < r.value ==> !OccursAt(haystack, needle, j)
    ensures r.None? ==> forall j: nat :: from <= j ==> !OccursAt(haystack, needle, j)
  {
    if from + |needle| > |haystack| then None
    else if haystack[from..from + |needle|] == needle then Some(from)
    else StrposFrom(haystack, needle, from + 1)
  }

  /** PHP's `strpos($haystack, $needle)`: `None` stands for its `false` result. */
  function Strpos(haystack: string, needle: string): (r: Option<nat>)
    ensures r.Some? ==> OccursAt(haystack, needle, r.value)
    ensures r.Some? ==> forall j :: 0 <= j < r.value ==> !OccursAt(haystack, needle, j)
    ensures r.None? <==> forall j: nat :: !OccursAt(haystack, needle, j)
  {
    StrposFrom(haystack, needle, 0)
  }

  /**
   * `is_windows()`: the OS is named exactly "WINNT", or the uname string
   * mentions "Microsoft" anywhere (a Windows-hosted Linux environment).
   */
  function IsWindows(osName: string, uname: string): (r: bool)
    ensures r <==> osName == WINDOWS_OS_NAME || exists i: nat :: OccursAt(uname, MICROSOFT_MARKER, i)
  {
    osName == WINDOWS_OS_NAME || Strpos(uname, MICROSOFT_MARKER) != None
  }

  /** `is_mac()`: the OS is named exactly "Darwin"; the uname string plays no part. */
  function IsMac(osName: string, uname: string): (r: bool)
    ensures r <==> osName == MAC_OS_NAME
  {
    osName == MAC_OS_NAME
  }

  /** `is_mac()` gives the same answer for every uname string. */
  lemma MacIgnoresUname(osName: string, uname: string, other: string)
    ensures IsMac(osName, uname) == IsMac(osName, other)
  {
  }

  /** Any uname string is Windows when the OS name is "WINNT". */
  lemma WinntIsWindows(uname: string)
    ensures IsWindows(WINDOWS_OS_NAME, uname)
  {
  }

  /** A uname string carrying "Microsoft" at offset `i` is Windows whatever the OS name. */
  lemma MicrosoftUnameIsWindows(osName: string, uname: string, i: nat)
    requires OccursAt(uname, MICROSOFT_MARKER, i)
    ensures IsWindows(osName, uname)
  {
  }

  /** Neither a "WINNT" OS name nor a "Microsoft" uname: not Windows. */
  lemma OtherIsNotWindows(osName: string, uname: string)
    requires osName != WINDOWS_OS_NAME
    requires forall i: nat :: !OccursAt(uname, MICROSOFT_MARKER, i)
    ensures !IsWindows(osName, uname)
  {
  }
}
