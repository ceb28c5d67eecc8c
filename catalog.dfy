/** The theme catalogue: the `*conf` entries of the theme directory, listed
    in ascending order of their lower-cased stems. */
module Catalog {
  import opened Host

  /** `str.lower()` on the ASCII letters. */
  function Lower(s: string): (r: string)
    ensures |r| == |s|
    ensures forall i :: 0 <= i < |s| ==> r[i] == (if 'A' <= s[i] <= 'Z' then s[i] - 'A' + 'a' else s[i])
  {
    if s == [] then []
    else [if 'A' <= s[0] <= 'Z' then s[0] - 'A' + 'a' else s[0]] + Lower(s[1..])
  }

  /** Python's ordering of strings: code point by code point, a proper
      prefix first. */
  predicate StrLe(a: string, b: string) {
    if a == [] then true
    else if b == [] then false
    else if a[0] != b[0] then a[0] < b[0]
    else StrLe(a[1..], b[1..])
  }

  lemma {:induction false} StrLeTotal(a: string, b: string)
    ensures StrLe(a, b) || StrLe(b, a)
  {
    if a != [] && b != [] && a[0] == b[0] {
      StrLeTotal(a[1..], b[1..]);
    }
  }

  lemma {:induction false} StrLeTransitive(a: string, b: string, c: string)
    requires StrLe(a, b) && StrLe(b, c)
    ensures StrLe(a, c)
  {
    if a != [] && b != [] && c != [] && a[0] == b[0] == c[0] {
      StrLeTransitive(a[1..], b[1..], c[1..]);
    }
  }

  /** The sort key of a theme file name: its lower-cased stem. */
  function Key(name: string): string {
    Lower(Stem(name))
  }

  predicate KeySorted(names: seq<string>) {
    forall i, j :: 0 <= i < j < |names| ==> StrLe(Key(names[i]), Key(names[j]))
  }

  /** Inserts `x` after every name whose key is not greater than its own,
      so names with equal keys keep their order, as Python's stable sort does. */
  function Insert(names: seq<string>, x: string): (r: seq<string>)
    requires KeySorted(names)
    ensures KeySorted(r)
    ensures multiset(r) == multiset(names) + multiset{x}
  {
    if names == [] then [x]
    else if !StrLe(Key(names[0]), Key(x)) then
      InsertInFront(names, x);
      [x] + names
    else
      var rest := Insert(names[1..], x);
      InsertBehind(names, x, rest);
      [names[0]] + rest
  }

  lemma InsertInFront(names: seq<string>, x: string)
    requires KeySorted(names) && names != [] && !StrLe(Key(names[0]), Key(x))
    ensures KeySorted([x] + names)
  {
    StrLeTotal(Key(names[0]), Key(x));
    forall j | 0 <= j < |names| ensures StrLe(Key(x), Key(names[j])) {
      if j > 0 { StrLeTransitive(Key(x), Key(names[0]), Key(names[j])); }
    }
  }

  lemma InsertBehind(names: seq<string>, x: string, rest: seq<string>)
    requires KeySorted(names) && names != [] && StrLe(Key(names[0]), Key(x))
    requires KeySorted(rest) && multiset(rest) == multiset(names[1..]) + multiset{x}
    ensures KeySorted([names[0]] + rest)
    ensures multiset([names[0]] + rest) == multiset(names) + multiset{x}
  {
    assert names == [names[0]] + names[1..];
    forall j | 0 <= j < |rest| ensures StrLe(Key(names[0]), Key(rest[j])) {
      FromTail(names, x, rest, j);
    }
  }

  /** Every element of `rest` is `x` or a later element of `names`. */
  lemma FromTail(names: seq<string>, x: string, rest: seq<string>, j: int)
    requires KeySorted(names) && names != [] && StrLe(Key(names[0]), Key(x))
    requires multiset(rest) == multiset(names[1..]) + multiset{x}
    requires 0 <= j < |rest|
    ensures StrLe(Key(names[0]), Key(rest[j]))
  {
    assert rest[j] in multiset(rest);
    if rest[j] != x {
      assert rest[j] in multiset(names[1..]);
      var k :| 0 <= k < |names[1..]| && names[1..][k] == rest[j];
      assert names[k + 1] == rest[j];
    }
  }

  /** `sorted(names, key=lambda s: s.stem.lower())`. */
  method SortByKey(names: seq<string>) returns (sorted: seq<string>)
    ensures multiset(sorted) == multiset(names)
    ensures KeySorted(sorted)
  {
    sorted := [];
    for i := 0 to |names|
      invariant multiset(sorted) == multiset(names[..i])
      invariant KeySorted(sorted)
    {
      assert names[..i + 1] == names[..i] + [names[i]];
      sorted := Insert(sorted, names[i]);
    }
    assert names[..|names|] == names;
  }

  predicate EndsWithConf(name: string) {
    |name| >= 4 && name[|name| - 4..] == "conf"
  }

  /** The names of the entries directly inside `dir`. */
  function Children(fs: FileTable, dir: Path): set<string> {
    set p | p in fs && |p| == |dir| + 1 && p[..|dir|] == dir :: p[|dir|]
  }

  /** What `dir.glob('*conf')` yields: the entries whose name ends in "conf". */
  function ThemeEntries(fs: FileTable, dir: Path): set<string> {
    set n | n in Children(fs, dir) && EndsWithConf(n)
  }

  /** Enumerates the theme entries of `dir` once each, in an unspecified order. */
  method Glob(m: Machine, dir: Path) returns (names: seq<string>)
    ensures multiset(names) == multiset(ThemeEntries(m.links, dir))
  {
    var rest := ThemeEntries(m.links, dir);
    names := [];
    while rest != {}
      invariant multiset(names) + multiset(rest) == multiset(ThemeEntries(m.links, dir))
      decreases rest
    {
      var n :| n in rest;
      assert multiset(rest) == multiset(rest - {n}) + multiset{n};
      names := names + [n];
      rest := rest - {n};
    }
  }
}
