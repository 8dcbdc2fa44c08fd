/**
 * The chromedriver argument map: a PHP ordered array from switch name to an
 * optional value, and its translation into command-line switches.
 */
module ArgumentMap {
  import opened Wrappers

  /** One entry of the map: a switch name and its value, `None` for PHP `null`. */
  datatype Arg = Arg(name: string, value: Option<string>)

  /** No switch name occurs twice (PHP array keys are unique). */
  predicate UniqueNames(entries: seq<Arg>) {
    forall i, j :: 0 <= i < j < |entries| ==> entries[i].name != entries[j].name
  }

  /** The entries of a PHP array, in its iteration order. */
  type ArgMap = entries: seq<Arg> | UniqueNames(entries) witness []

  /** The switches every chromedriver gets unless overridden. */
  const DEFAULTS: ArgMap := [
    Arg("disable-gpu", None),
    Arg("headless", None),
    Arg("window-size", Some("1920,1080"))
  ]

  predicate HasKey(m: seq<Arg>, k: string) {
    exists i :: 0 <= i < |m| && m[i].name == k
  }

  /** `$m[$k] ?? absent`: `None` when `k` is not a key, else `Some` of its (optional) value. */
  function Get(m: seq<Arg>, k: string): (r: Option<Option<string>>)
    ensures r.None? <==> !HasKey(m, k)
    ensures r.Some? ==> exists i :: 0 <= i < |m| && m[i] == Arg(k, r.value)
  {
    if m == [] then None
    else if m[0].name == k then Some(m[0].value)
    else Get(m[1..], k)
  }

  /**
   * PHP's `$m[$k] = $v`: an existing key keeps its position and takes the new
   * value; a new key is appended at the end; every other entry is untouched.
   */
  function Put(m: ArgMap, k: string, v: Option<string>): (r: ArgMap)
    ensures HasKey(m, k) ==> |r| == |m|
    ensures HasKey(m, k) ==> forall i :: 0 <= i < |m| ==> r[i] == (if m[i].name == k then Arg(k, v) else m[i])
    ensures !HasKey(m, k) ==> r == m + [Arg(k, v)]
  {
    if m == [] then [Arg(k, v)]
    else if m[0].name == k then
      var r := [Arg(k, v)] + m[1..];
      assert forall i :: 1 <= i < |m| ==> r[i] == m[i];
      r
    else
      var tail: ArgMap := m[1..];
      assert forall i :: 0 <= i < |tail| ==> tail[i] == m[i + 1];
      var rest := Put(tail, k, v);
      assert HasKey(m, k) <==> HasKey(tail, k);
      var r := [m[0]] + rest;
      assert forall i :: 1 <= i < |r| ==> r[i].name == m[0].name ==> false;
      r
  }

  /** The command-line switch for one entry: `--name` or `--name=value`. */
  function FlagOf(a: Arg): (r: string)
    ensures |r| >= 2 + |a.name| && r[..2 + |a.name|] == "--" + a.name
    ensures |r| == 2 + |a.name| + (if a.value.Some? then 1 + |a.value.value| else 0)
    ensures a.value.Some? ==> r[2 + |a.name|] == '=' && r[3 + |a.name|..] == a.value.value
  {
    match a.value
    case None => "--" + a.name
    case Some(v) => "--" + a.name + "=" + v
  }

  /** One switch per entry, in the map's order. */
  function Flags(m: seq<Arg>): (r: seq<string>)
    ensures |r| == |m|
    ensures forall i :: 0 <= i < |m| ==> r[i] == FlagOf(m[i])
  {
    if m == [] then [] else Flags(m[..|m| - 1]) + [FlagOf(m[|m| - 1])]
  }

  /** Writing `k` and then reading it gives the new value; other keys read as before. */
  lemma {:induction false} GetPut(m: ArgMap, k: string, v: Option<string>, j: string)
    ensures Get(Put(m, k, v), j) == if j == k then Some(v) else Get(m, j)
  {
    if m != [] && m[0].name != k {
      var tail: ArgMap := m[1..];
      GetPut(tail, k, v, j);
      assert Put(m, k, v) == [m[0]] + Put(tail, k, v);
      assert (([m[0]] + Put(tail, k, v))[1..]) == Put(tail, k, v);
    }
  }

  /** The switch for the entry just written is among the serialised switches. */
  lemma PutFlag(m: ArgMap, k: string, v: Option<string>)
    ensures FlagOf(Arg(k, v)) in Flags(Put(m, k, v))
  {
  }

  /** A new key adds its switch after all existing ones. */
  lemma PutNewKeyFlags(m: ArgMap, k: string, v: Option<string>)
    requires !HasKey(m, k)
    ensures Flags(Put(m, k, v)) == Flags(m) + [FlagOf(Arg(k, v))]
  {
  }

  /** An entry without a value is exactly the bare `--name` switch, and only such an entry is. */
  lemma BareFlag(a: Arg)
    ensures FlagOf(a) == "--" + a.name <==> a.value.None?
  {
  }

  /** The default map has exactly the three baseline keys. */
  lemma DefaultKeys(k: string)
    ensures HasKey(DEFAULTS, k) <==> k == "disable-gpu" || k == "headless" || k == "window-size"
  {
    if HasKey(DEFAULTS, k) {
      var i :| 0 <= i < |DEFAULTS| && DEFAULTS[i].name == k;
      assert i == 0 || i == 1 || i == 2;
    } else {
      assert DEFAULTS[0].name == "disable-gpu" && DEFAULTS[1].name == "headless" && DEFAULTS[2].name == "window-size";
    }
  }

  /** A three-entry map serialises entry by entry. */
  lemma FlagsOfThree(a: Arg, b: Arg, c: Arg)
    ensures Flags([a, b, c]) == [FlagOf(a), FlagOf(b), FlagOf(c)]
  {
  }

  /** The defaults serialise to the three baseline switches, in declaration order. */
  lemma DefaultFlags()
    ensures Flags(DEFAULTS) == ["--disable-gpu", "--headless", "--window-size=1920,1080"]
  {
    FlagsOfThree(DEFAULTS[0], DEFAULTS[1], DEFAULTS[2]);
    assert FlagOf(DEFAULTS[0]) == "--disable-gpu";
    assert FlagOf(DEFAULTS[1]) == "--headless";
    assert FlagOf(DEFAULTS[2]) == "--window-size=1920,1080";
  }
}
