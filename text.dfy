/** The few Python string operations the smoke-test scripts rely on, on
    `seq<char>`. Case mapping covers ASCII letters only. */
module Text {

  /** Python `needle in hay` for two strings. */
  predicate Contains(hay: string, needle: string) {
    exists i :: 0 <= i <= |hay| - |needle| && OccursAt(hay, needle, i)
  }

  /** `needle` occurs in `hay` starting at index i. */
  predicate OccursAt(hay: string, needle: string, i: int)
    requires 0 <= i <= |hay| - |needle|
  {
    hay[i..i + |needle|] == needle
  }

  /** Python `s.endswith(suffix)`. */
  predicate EndsWith(s: string, suffix: string) {
    |suffix| <= |s| && s[|s| - |suffix|..] == suffix
  }

  function LowerChar(c: char): char {
    if 'A' <= c <= 'Z' then (c as int + 32) as char else c
  }

  function UpperChar(c: char): char {
    if 'a' <= c <= 'z' then (c as int - 32) as char else c
  }

  /** Python `s.lower()` (ASCII letters). */
  function Lower(s: string): string {
    seq(|s|, i requires 0 <= i < |s| => LowerChar(s[i]))
  }

  /** Python `s.upper()` (ASCII letters). */
  function Upper(s: string): string {
    seq(|s|, i requires 0 <= i < |s| => UpperChar(s[i]))
  }

  /** The number a string of decimal digits denotes. */
  function DigitsValue(s: string): int {
    if s == [] then 0 else DigitsValue(s[..|s| - 1]) * 10 + (s[|s| - 1] as int - '0' as int)
  }

  /** Python `str(n)` for a natural number: its decimal digits, with no
      leading zero. */
  function NatToString(n: nat): (s: string)
    ensures |s| > 0
    ensures forall i :: 0 <= i < |s| ==> '0' <= s[i] <= '9'
    ensures DigitsValue(s) == n
    ensures |s| > 1 ==> s[0] != '0'
  {
    var digit := [(n % 10 + '0' as int) as char];
    if n < 10 then digit
    else
      var prefix := NatToString(n / 10);
      assert (prefix + digit)[..|prefix + digit| - 1] == prefix;
      prefix + digit
  }

  /** Python `os.path.basename(path)`: the part after the last '/'. */
  function Basename(path: string): (name: string)
    ensures '/' !in name
    ensures EndsWith(path, name)
    ensures |name| == |path| || path[|path| - |name| - 1] == '/'
  {
    if path == [] then []
    else if path[|path| - 1] == '/' then []
    else
      var rest := Basename(path[..|path| - 1]);
      LastSegmentStep(path, rest);
      rest + [path[|path| - 1]]
  }

  /** A last segment of the path without its final character, extended by
      that character (not a '/'), is a last segment of the path. */
  lemma LastSegmentStep(path: string, rest: string)
    requires |path| > 0 && path[|path| - 1] != '/'
    requires '/' !in rest
    requires EndsWith(path[..|path| - 1], rest)
    requires |rest| == |path[..|path| - 1]| || path[..|path| - 1][|path[..|path| - 1]| - |rest| - 1] == '/'
    ensures var name := rest + [path[|path| - 1]];
            && '/' !in name
            && EndsWith(path, name)
            && (|name| == |path| || path[|path| - |name| - 1] == '/')
  {
    var init := path[..|path| - 1];
    assert path[|path| - (|rest| + 1)..] == init[|init| - |rest|..] + [path[|path| - 1]];
  }

  /** The basename of `dir/name` is `name` when `dir` ends in '/' and
      `name` has none. */
  lemma {:induction false} BasenameJoin(dir: string, name: string)
    requires |dir| > 0 && dir[|dir| - 1] == '/' && '/' !in name
    ensures Basename(dir + name) == name
  {
    if name == [] {
      assert dir + name == dir;
    } else {
      var init := name[..|name| - 1];
      assert (dir + name)[..|dir + name| - 1] == dir + init;
      assert '/' !in init by {
        assert forall c :: c in init ==> c in name;
      }
      BasenameJoin(dir, init);
      assert name == init + [name[|name| - 1]];
    }
  }
}
