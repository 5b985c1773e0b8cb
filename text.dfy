/**
 * The few pieces of Ruby's String, Array, Integer and File behaviour that the
 * status renderer relies on: `Array#join`, the inverse split, `Integer#to_s`
 * and `File.basename` on POSIX paths.
 */
module Text {

  /** `xs.join(sep)` on an array of strings. */
  function Join(xs: seq<string>, sep: char): (s: string)
  {
    if |xs| == 0 then ""
    else if |xs| == 1 then xs[0]
    else xs[0] + [sep] + Join(xs[1..], sep)
  }

  /** Splits `s` at every `sep`, keeping empty fields (the reference inverse of Join). */
  function Split(s: string, sep: char): (parts: seq<string>)
    ensures |parts| >= 1
  {
    if s == [] then [""]
    else
      var rest := Split(s[1..], sep);
      if s[0] == sep then [""] + rest
      else [[s[0]] + rest[0]] + rest[1..]
  }

  lemma {:induction false} SplitNoSeparator(a: string, sep: char)
    requires sep !in a
    ensures Split(a, sep) == [a]
  {
    if a != [] {
      assert sep !in a[1..];
      SplitNoSeparator(a[1..], sep);
      assert [a[0]] + a[1..] == a;
    }
  }

  lemma {:induction false} SplitAtSeparator(a: string, sep: char, b: string)
    requires sep !in a
    ensures Split(a + [sep] + b, sep) == [a] + Split(b, sep)
  {
    if a == [] {
      assert a + [sep] + b == [sep] + b;
      assert ([sep] + b)[1..] == b;
    } else {
      assert (a + [sep] + b)[1..] == a[1..] + [sep] + b;
      assert sep !in a[1..];
      SplitAtSeparator(a[1..], sep, b);
      assert [a[0]] + a[1..] == a;
    }
  }

  /** Joining with a separator that no field contains can be undone by splitting. */
  lemma {:induction false} SplitJoin(xs: seq<string>, sep: char)
    requires |xs| >= 1
    requires forall i :: 0 <= i < |xs| ==> sep !in xs[i]
    ensures Split(Join(xs, sep), sep) == xs
  {
    if |xs| == 1 {
      SplitNoSeparator(xs[0], sep);
    } else {
      SplitJoin(xs[1..], sep);
      SplitAtSeparator(xs[0], sep, Join(xs[1..], sep));
      assert [xs[0]] + xs[1..] == xs;
    }
  }

  /** The character of a decimal digit. */
  function DigitChar(d: nat): (c: char)
    requires d < 10
    ensures '0' <= c <= '9'
    ensures c as int - '0' as int == d
  {
    ('0' as int + d) as char
  }

  predicate IsDigits(s: string)
  {
    forall i :: 0 <= i < |s| ==> '0' <= s[i] <= '9'
  }

  /** The number a string of decimal digits denotes (reference for NatToString). */
  function DigitsValue(s: string): nat
    requires IsDigits(s)
  {
    if s == [] then 0
    else DigitsValue(s[..|s| - 1]) * 10 + (s[|s| - 1] as int - '0' as int)
  }

  /** `n.to_s` for a non-negative Integer: decimal digits, no leading zero. */
  function NatToString(n: nat): (s: string)
    ensures |s| >= 1 && IsDigits(s)
    ensures n > 0 ==> s[0] != '0'
    ensures n == 0 ==> s == "0"
  {
    if n < 10 then [DigitChar(n)]
    else NatToString(n / 10) + [DigitChar(n % 10)]
  }

  lemma {:induction false} NatToStringValue(n: nat)
    ensures DigitsValue(NatToString(n)) == n
  {
    if n >= 10 {
      NatToStringValue(n / 10);
      var s := NatToString(n);
      assert s[..|s| - 1] == NatToString(n / 10);
    }
  }

  /** Drops every trailing '/'. */
  function TrimTrailingSlashes(p: string): string
  {
    if |p| > 0 && p[|p| - 1] == '/' then TrimTrailingSlashes(p[..|p| - 1]) else p
  }

  /** The trimmed path is a prefix of the path, ends in no '/', and only slashes were dropped. */
  lemma {:induction false} TrimTrailingSlashesSpec(p: string)
    ensures var r := TrimTrailingSlashes(p);
      && r <= p
      && (r == [] || r[|r| - 1] != '/')
      && forall i :: |r| <= i < |p| ==> p[i] == '/'
  {
    if |p| > 0 && p[|p| - 1] == '/' {
      TrimTrailingSlashesSpec(p[..|p| - 1]);
    }
  }

  /** The characters after the last '/' of `p` (all of `p` when it has none). */
  function LastComponent(p: string): string
  {
    if |p| == 0 || p[|p| - 1] == '/' then ""
    else LastComponent(p[..|p| - 1]) + [p[|p| - 1]]
  }

  /** The last component is a slash-free suffix of the path, preceded by a '/' unless it is the whole path. */
  lemma {:induction false} LastComponentSpec(p: string)
    ensures var r := LastComponent(p);
      && '/' !in r
      && |r| <= |p| && p[|p| - |r|..] == r
      && (|r| < |p| ==> p[|p| - |r| - 1] == '/')
  {
    if |p| > 0 && p[|p| - 1] != '/' {
      var q := p[..|p| - 1];
      LastComponentSpec(q);
      var r := LastComponent(q);
      assert LastComponent(p) == r + [p[|p| - 1]];
      assert p[|p| - |r| - 1..] == q[|q| - |r|..] + [p[|p| - 1]];
    }
  }

  /**
   * `File.basename(p)` on POSIX: the last path component, ignoring trailing
   * slashes; "/" for a path made only of slashes, "" for "".
   */
  function Basename(p: string): (r: string)
    ensures p == [] <==> r == []
    ensures r == "/" || '/' !in r
    ensures '/' !in p ==> r == p
  {
    if p == "" then ""
    else
      var t := TrimTrailingSlashes(p);
      TrimTrailingSlashesSpec(p);
      LastComponentSpec(t);
      if t == "" then "/" else LastComponent(t)
  }

  /** The basename of `dir/name`, with any number of trailing slashes, is `name`. */
  lemma BasenameOfChild(dir: string, name: string, slashes: nat)
    requires name != [] && '/' !in name
    ensures Basename(dir + "/" + name + seq(slashes, _ => '/')) == name
  {
    TrimSlashesOf(dir + "/" + name, slashes);
    LastComponentOf(dir, name);
    LastComponentSpec(dir + "/" + name);
  }

  /** The basename of `dir/name` is `name`. */
  lemma BasenameOfPath(dir: string, name: string)
    requires name != [] && '/' !in name
    ensures Basename(dir + "/" + name) == name
  {
    BasenameOfChild(dir, name, 0);
    assert dir + "/" + name + seq(0, _ => '/') == dir + "/" + name;
  }

  lemma {:induction false} TrimSlashesOf(q: string, slashes: nat)
    requires q != [] && q[|q| - 1] != '/'
    ensures TrimTrailingSlashes(q + seq(slashes, _ => '/')) == q
  {
    if slashes > 0 {
      var p := q + seq(slashes, _ => '/');
      assert p[..|p| - 1] == q + seq(slashes - 1, _ => '/');
      TrimSlashesOf(q, slashes - 1);
    } else {
      assert q + seq(0, _ => '/') == q;
    }
  }

  lemma {:induction false} LastComponentOf(dir: string, name: string)
    requires '/' !in name
    ensures LastComponent(dir + "/" + name) == name
  {
    if name == [] {
    } else {
      var p := dir + "/" + name;
      assert p[..|p| - 1] == dir + "/" + name[..|name| - 1];
      assert '/' !in name[..|name| - 1];
      LastComponentOf(dir, name[..|name| - 1]);
    }
  }
}
