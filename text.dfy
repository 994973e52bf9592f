/** The Python string and path operations the catalog code uses, on `seq<char>`:
    `sep.join`, `in` on strings, `str.replace`, `str(int)`, string ordering
    (`<` on code points) and `pathlib.PurePosixPath(...).parent.name`. */
module Text {

  /** `sep.join(parts)`. */
  function Join(parts: seq<string>, sep: string): string
    decreases |parts|
  {
    if parts == [] then ""
    else if |parts| == 1 then parts[0]
    else parts[0] + sep + Join(parts[1..], sep)
  }

  predicate OccursAt(s: string, p: string, i: nat) {
    i + |p| <= |s| && s[i..i + |p|] == p
  }

  /** Python's `p in s` for strings. */
  predicate Contains(s: string, p: string) {
    exists i: nat | i <= |s| :: OccursAt(s, p, i)
  }

  predicate StartsWith(s: string, p: string) {
    |p| <= |s| && s[..|p|] == p
  }

  predicate EndsWith(s: string, p: string) {
    |p| <= |s| && s[|s| - |p|..] == p
  }

  // ---------------------------------------------------------------------------
  // str.replace(pat, rep): every non-overlapping occurrence, scanning left to right

  function ReplaceAll(s: string, pat: string, rep: string): string
    requires |pat| > 0
    decreases |s|
  {
    if |s| < |pat| then s
    else if s[..|pat|] == pat then rep + ReplaceAll(s[|pat|..], pat, rep)
    else [s[0]] + ReplaceAll(s[1..], pat, rep)
  }

  /** A string in which `pat` never occurs is returned unchanged. */
  lemma {:induction false} ReplaceAllAbsent(s: string, pat: string, rep: string)
    requires |pat| > 0
    requires !Contains(s, pat)
    ensures ReplaceAll(s, pat, rep) == s
    decreases |s|
  {
    if |s| >= |pat| {
      assert !OccursAt(s, pat, 0);
      assert s[..|pat|] != pat;
      forall i: nat ensures !OccursAt(s[1..], pat, i) {
        if OccursAt(s[1..], pat, i) {
          assert s[1..][i..i + |pat|] == s[i + 1..i + 1 + |pat|];
          assert OccursAt(s, pat, i + 1);
        }
      }
      ReplaceAllAbsent(s[1..], pat, rep);
      assert s == [s[0]] + s[1..];
    }
  }

  /** Removing `pat` from `c + pat` gives back `c` when the only occurrence of
      `pat` in `c + pat` is the final one. */
  lemma {:induction false} ReplaceAllStripsSuffix(c: string, pat: string)
    requires |pat| > 0
    requires forall i: nat :: i < |c| ==> !OccursAt(c + pat, pat, i)
    ensures ReplaceAll(c + pat, pat, "") == c
    decreases |c|
  {
    if c == [] {
      assert c + pat == pat;
      assert pat[|pat|..] == [];
    } else {
      var s := c + pat;
      assert !OccursAt(s, pat, 0);
      assert s[..|pat|] != pat;
      assert s[1..] == c[1..] + pat;
      forall i: nat | i < |c[1..]| ensures !OccursAt(c[1..] + pat, pat, i) {
        assert !OccursAt(s, pat, i + 1);
        if i + |pat| <= |s[1..]| {
          assert s[1..][i..i + |pat|] == s[i + 1..i + 1 + |pat|];
        }
      }
      ReplaceAllStripsSuffix(c[1..], pat);
      assert c == [c[0]] + c[1..];
    }
  }

  // ---------------------------------------------------------------------------
  // str(n) for Python ints

  function DigitChar(d: nat): char
    requires d < 10
  {
    "0123456789"[d]
  }

  function NatToDecimal(n: nat): (r: string)
    ensures |r| > 0
    ensures forall k :: 0 <= k < |r| ==> '0' <= r[k] <= '9'
    decreases n
  {
    if n < 10 then [DigitChar(n)] else NatToDecimal(n / 10) + [DigitChar(n % 10)]
  }

  function IntToDecimal(n: int): string {
    if n < 0 then "-" + NatToDecimal(-n) else NatToDecimal(n)
  }

  // ---------------------------------------------------------------------------
  // Python string comparison: lexicographic on code points, a prefix first

  predicate StrLe(a: string, b: string)
    decreases |a|
  {
    a == [] || (b != [] && (a[0] < b[0] || (a[0] == b[0] && StrLe(a[1..], b[1..]))))
  }

  lemma {:induction false} StrLeTotal(a: string, b: string)
    ensures StrLe(a, b) || StrLe(b, a)
    decreases |a|
  {
    if a != [] && b != [] && a[0] == b[0] {
      StrLeTotal(a[1..], b[1..]);
    }
  }

  lemma {:induction false} StrLeTransitive(a: string, b: string, c: string)
    requires StrLe(a, b) && StrLe(b, c)
    ensures StrLe(a, c)
    decreases |a|
  {
    if a != [] && a[0] == b[0] && b[0] == c[0] {
      StrLeTransitive(a[1..], b[1..], c[1..]);
    }
  }

  lemma {:induction false} StrLeAntisymmetric(a: string, b: string)
    requires StrLe(a, b) && StrLe(b, a)
    ensures a == b
    decreases |a|
  {
    if a != [] {
      StrLeAntisymmetric(a[1..], b[1..]);
      assert a == [a[0]] + a[1..] && b == [b[0]] + b[1..];
    }
  }

  // ---------------------------------------------------------------------------
  // pathlib.PurePosixPath(p).parent.name

  /** `p.split("/")`. */
  function Split(p: string): (r: seq<string>)
    ensures |r| >= 1
    decreases |p|
  {
    if p == [] then [""]
    else
      var rest := Split(p[..|p| - 1]);
      if p[|p| - 1] == '/' then rest + [""]
      else rest[..|rest| - 1] + [rest[|rest| - 1] + [p[|p| - 1]]]
  }

  /** A path's named parts: pathlib drops empty and "." components. */
  function Parts(components: seq<string>): seq<string>
    decreases |components|
  {
    if components == [] then []
    else
      var init := Parts(components[..|components| - 1]);
      var last := components[|components| - 1];
      if last == "" || last == "." then init else init + [last]
  }

  function ParentName(p: string): string {
    var parts := Parts(Split(p));
    if |parts| >= 2 then parts[|parts| - 2] else ""
  }

  predicate IsSegment(s: string) {
    s != "" && s != "." && '/' !in s
  }

  lemma {:induction false} SplitNoSlash(s: string)
    requires '/' !in s
    ensures Split(s) == [s]
    decreases |s|
  {
    if s != [] {
      SplitNoSlash(s[..|s| - 1]);
      assert s[..|s| - 1] + [s[|s| - 1]] == s;
    }
  }

  lemma {:induction false} SplitAppendSegment(a: string, b: string)
    requires '/' !in b
    ensures Split(a + "/" + b) == Split(a) + [b]
    decreases |b|
  {
    if b == [] {
      assert a + "/" + b == a + "/";
      assert (a + "/")[..|a|] == a;
    } else {
      var b' := b[..|b| - 1];
      SplitAppendSegment(a, b');
      assert (a + "/" + b)[..|a + "/" + b| - 1] == a + "/" + b';
      assert b' + [b[|b| - 1]] == b;
    }
  }

  lemma {:induction false} PartsAppend(xs: seq<string>, ys: seq<string>)
    ensures Parts(xs + ys) == Parts(xs) + Parts(ys)
    decreases |ys|
  {
    if ys != [] {
      var ys' := ys[..|ys| - 1];
      PartsAppend(xs, ys');
      assert (xs + ys)[..|xs + ys| - 1] == xs + ys';
    } else {
      assert xs + ys == xs;
    }
  }

  /** The parent's name of `dir/name/file` is `name`, whatever `dir` holds. */
  lemma ParentNameOfNested(dir: string, name: string, file: string)
    requires IsSegment(name) && IsSegment(file)
    ensures ParentName(dir + "/" + name + "/" + file) == name
  {
    var inner := dir + "/" + name;
    SplitAppendSegment(dir, name);
    SplitAppendSegment(inner, file);
    var d := Split(dir);
    assert Split(inner + "/" + file) == (d + [name]) + [file];
    PartsAppend(d, [name]);
    PartsAppend(d + [name], [file]);
    assert Parts([name]) == [name] by { assert [name][..0] == []; }
    assert Parts([file]) == [file] by { assert [file][..0] == []; }
    var parts := Parts((d + [name]) + [file]);
    assert parts == Parts(d) + [name] + [file];
    assert parts[|parts| - 2] == name;
  }

  /** The parent's name of `name/file` is `name`. */
  lemma ParentNameOfChild(name: string, file: string)
    requires IsSegment(name) && IsSegment(file)
    ensures ParentName(name + "/" + file) == name
  {
    SplitNoSlash(name);
    SplitAppendSegment(name, file);
    assert [name, file] == [name] + [file];
    PartsAppend([name], [file]);
    assert Parts([name]) == [name] by { assert [name][..0] == []; }
    assert Parts([file]) == [file] by { assert [file][..0] == []; }
  }
}
