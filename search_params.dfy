/**
 * The application/x-www-form-urlencoded name-value list behind `URLSearchParams`
 * (section 5.2 of the WHATWG URL Standard): an ordered list of pairs, its
 * `append` and `set` operations, and its serialisation `toString()`, with the
 * byte-level percent-encoding of names and values left as a parameter `enc`.
 */
module Form {

  /** One name-value pair of a query string or of a form body. */
  datatype Param = Param(name: string, value: string)

  /** Some pair of `ps` is named `n`. */
  predicate Named(ps: seq<Param>, n: string) {
    exists i :: 0 <= i < |ps| && ps[i].name == n
  }

  /** Number of pairs of `ps` named `n`. */
  function Count(ps: seq<Param>, n: string): nat {
    if ps == [] then 0 else (if ps[0].name == n then 1 else 0) + Count(ps[1..], n)
  }

  /** The pairs of `ps` that are not named `n`, in their order. */
  function Without(ps: seq<Param>, n: string): (r: seq<Param>)
    ensures !Named(r, n)
    ensures |r| <= |ps|
  {
    if ps == [] then []
    else if ps[0].name == n then Without(ps[1..], n)
    else [ps[0]] + Without(ps[1..], n)
  }

  lemma {:induction false} CountWithout(ps: seq<Param>, n: string)
    ensures Count(Without(ps, n), n) == 0
  {
    if ps != [] {
      CountWithout(ps[1..], n);
      if ps[0].name != n {
        assert ([ps[0]] + Without(ps[1..], n))[1..] == Without(ps[1..], n);
      }
    }
  }

  lemma {:induction false} WithoutUnnamed(ps: seq<Param>, n: string)
    requires !Named(ps, n)
    ensures Without(ps, n) == ps
  {
    if ps != [] {
      assert ps[0].name != n;
      WithoutUnnamed(ps[1..], n);
    }
  }

  lemma {:induction false} NamedCount(ps: seq<Param>, n: string)
    ensures Named(ps, n) <==> Count(ps, n) > 0
  {
    if ps != [] {
      NamedCount(ps[1..], n);
      if Named(ps, n) && ps[0].name != n {
        var i :| 0 <= i < |ps| && ps[i].name == n;
        assert ps[1..][i - 1].name == n;
      }
      if Named(ps[1..], n) {
        var i :| 0 <= i < |ps[1..]| && ps[1..][i].name == n;
        assert ps[i + 1].name == n;
      }
    }
  }

  /** The position of the first pair named `n`. */
  function FirstNamed(ps: seq<Param>, n: string): (k: nat)
    requires Count(ps, n) > 0
    ensures k < |ps| && ps[k].name == n && !Named(ps[..k], n)
  {
    if ps[0].name == n then 0
    else
      var k := 1 + FirstNamed(ps[1..], n);
      assert forall i :: 0 < i < k ==> ps[..k][i] == ps[1..][..k - 1][i - 1];
      k
  }

  lemma {:induction false} CountConcat(a: seq<Param>, b: seq<Param>, n: string)
    ensures Count(a + b, n) == Count(a, n) + Count(b, n)
  {
    if a != [] {
      assert (a + b)[1..] == a[1..] + b;
      CountConcat(a[1..], b, n);
    } else {
      assert a + b == b;
    }
  }

  lemma {:induction false} WithoutConcat(a: seq<Param>, b: seq<Param>, n: string)
    ensures Without(a + b, n) == Without(a, n) + Without(b, n)
  {
    if a != [] {
      assert (a + b)[1..] == a[1..] + b;
      WithoutConcat(a[1..], b, n);
    } else {
      assert a + b == b;
    }
  }

  /** The first pair named `p.name` becomes `p` where it stands; the later ones are dropped. */
  function ReplaceFirst(ps: seq<Param>, p: Param): (r: seq<Param>)
    requires Count(ps, p.name) > 0
    ensures Count(r, p.name) == 1
    ensures p in r
    ensures Without(r, p.name) == Without(ps, p.name)
  {
    var k := FirstNamed(ps, p.name);
    ReplacedAt(ps, p, k);
    ps[..k] + [p] + Without(ps[k + 1..], p.name)
  }

  lemma ReplacedAt(ps: seq<Param>, p: Param, k: nat)
    requires k < |ps| && ps[k].name == p.name && !Named(ps[..k], p.name)
    ensures var r := ps[..k] + [p] + Without(ps[k + 1..], p.name);
      Count(r, p.name) == 1 && p in r && Without(r, p.name) == Without(ps, p.name)
  {
    ReplacedCount(ps[..k], p, ps[k + 1..]);
    var w := Without(ps[k + 1..], p.name);
    ReplacedWithout(ps[..k], p, w);
    WithoutUnnamed(w, p.name);
    ReplacedWithout(ps[..k], ps[k], ps[k + 1..]);
    assert ps == ps[..k] + [ps[k]] + ps[k + 1..];
  }

  lemma ReplacedCount(a: seq<Param>, p: Param, b: seq<Param>)
    requires !Named(a, p.name)
    ensures Count(a + [p] + Without(b, p.name), p.name) == 1
  {
    var w := Without(b, p.name);
    NamedCount(a, p.name);
    CountConcat(a, [p], p.name);
    CountConcat(a + [p], w, p.name);
    CountWithout(b, p.name);
    assert [p][1..] == [];
  }

  lemma ReplacedWithout(a: seq<Param>, p: Param, b: seq<Param>)
    requires !Named(a, p.name)
    ensures Without(a + [p] + b, p.name) == a + Without(b, p.name)
  {
    WithoutUnnamed(a, p.name);
    WithoutConcat(a, [p], p.name);
    assert Without([p], p.name) == [] by { assert [p][1..] == []; }
    assert Without(a + [p], p.name) == a;
    WithoutConcat(a + [p], b, p.name);
  }

  /**
   * `URLSearchParams.set(name, value)`: when some pair is named `name`, the
   * first one takes the new value and the others are removed; otherwise the
   * pair is appended.
   */
  function SetPair(ps: seq<Param>, name: string, value: string): seq<Param> {
    if Count(ps, name) > 0 then ReplaceFirst(ps, Param(name, value)) else ps + [Param(name, value)]
  }

  /**
   * After `set`, exactly one pair has the name and it carries the value; pairs with other
   * names are untouched; a new name is appended; an old one is replaced where it first stands.
   */
  lemma SetPairSpec(ps: seq<Param>, name: string, value: string)
    ensures !Named(ps, name) ==> SetPair(ps, name, value) == ps + [Param(name, value)]
    ensures Count(ps, name) > 0 ==> var k := FirstNamed(ps, name);
      SetPair(ps, name, value) == ps[..k] + [Param(name, value)] + Without(ps[k + 1..], name)
    ensures Count(SetPair(ps, name, value), name) == 1 && Param(name, value) in SetPair(ps, name, value)
    ensures Without(SetPair(ps, name, value), name) == Without(ps, name)
  {
    var p := Param(name, value);
    NamedCount(ps, name);
    if Count(ps, name) > 0 {
      assert SetPair(ps, name, value) == ReplaceFirst(ps, p);
    } else {
      assert SetPair(ps, name, value) == ps + [p];
      CountAppended(ps, p, name);
      WithoutAppended(ps, p, name);
      assert (ps + [p])[|ps|] == p;
    }
  }

  lemma {:induction false} CountAppended(ps: seq<Param>, p: Param, n: string)
    ensures Count(ps + [p], n) == Count(ps, n) + (if p.name == n then 1 else 0)
  {
    if ps != [] {
      assert (ps + [p])[1..] == ps[1..] + [p];
      CountAppended(ps[1..], p, n);
    } else {
      assert [p][1..] == [];
    }
  }

  lemma {:induction false} WithoutAppended(ps: seq<Param>, p: Param, n: string)
    ensures Without(ps + [p], n) == Without(ps, n) + (if p.name == n then [] else [p])
  {
    if ps != [] {
      assert (ps + [p])[1..] == ps[1..] + [p];
      WithoutAppended(ps[1..], p, n);
    } else {
      assert [p][1..] == [];
    }
  }

  /** The pairs of `ps` named `n`, in their order. */
  function Only(ps: seq<Param>, n: string): (r: seq<Param>)
    ensures |r| <= |ps|
  {
    if ps == [] then []
    else if ps[0].name == n then [ps[0]] + Only(ps[1..], n)
    else Only(ps[1..], n)
  }

  lemma {:induction false} OnlyConcat(a: seq<Param>, b: seq<Param>, n: string)
    ensures Only(a + b, n) == Only(a, n) + Only(b, n)
  {
    if a != [] {
      assert (a + b)[1..] == a[1..] + b;
      OnlyConcat(a[1..], b, n);
    } else {
      assert a + b == b;
    }
  }

  /** Every pair of `g` is named `n`. */
  predicate Uniform(g: seq<Param>, n: string) {
    forall i :: 0 <= i < |g| ==> g[i].name == n
  }

  lemma {:induction false} OnlyUniform(g: seq<Param>, m: string, n: string)
    requires Uniform(g, m)
    ensures Only(g, n) == if m == n then g else []
  {
    if g != [] {
      OnlyUniform(g[1..], m, n);
      if m == n {
        assert [g[0]] + g[1..] == g;
      }
    }
  }

  /** A list built as consecutive groups of pairs, group `k` holding only pairs named `names[k]`. */
  ghost predicate Grouped(gs: seq<seq<Param>>, names: seq<string>) {
    |gs| == |names| && forall k :: 0 <= k < |gs| ==> Uniform(gs[k], names[k])
  }

  predicate Distinct(names: seq<string>) {
    forall a, b :: 0 <= a < b < |names| ==> names[a] != names[b]
  }

  /** The first `k` groups laid end to end. */
  function Prefix(gs: seq<seq<Param>>, k: nat): seq<Param>
    requires k <= |gs|
  {
    if k == 0 then [] else Prefix(gs, k - 1) + gs[k - 1]
  }

  /** All the groups laid end to end. */
  function Flatten(gs: seq<seq<Param>>): seq<Param> {
    Prefix(gs, |gs|)
  }

  lemma {:induction false} PrefixNames(gs: seq<seq<Param>>, names: seq<string>, k: nat)
    requires Grouped(gs, names) && k <= |gs|
    ensures forall i :: 0 <= i < |Prefix(gs, k)| ==> Prefix(gs, k)[i].name in names[..k]
  {
    if k > 0 {
      PrefixNames(gs, names, k - 1);
      var front := Prefix(gs, k - 1);
      forall i | 0 <= i < |Prefix(gs, k)| ensures Prefix(gs, k)[i].name in names[..k] {
        if i < |front| {
          assert Prefix(gs, k)[i] == front[i];
          assert front[i].name in names[..k - 1];
          assert names[..k - 1] <= names[..k];
        } else {
          assert Prefix(gs, k)[i] == gs[k - 1][i - |front|];
          assert names[..k][k - 1] == names[k - 1];
        }
      }
    }
  }

  /** Before group `k` is added, no pair carries its name. */
  lemma PrefixFresh(gs: seq<seq<Param>>, names: seq<string>, k: nat)
    requires Grouped(gs, names) && Distinct(names) && k < |gs|
    ensures !Named(Prefix(gs, k), names[k])
  {
    PrefixNames(gs, names, k);
  }

  /** Adding group `k` by `set` when it is one fresh pair extends the prefix by that pair. */
  lemma SetFreshStep(gs: seq<seq<Param>>, names: seq<string>, k: nat, value: string)
    requires Grouped(gs, names) && Distinct(names) && k < |gs|
    requires gs[k] == [Param(names[k], value)]
    ensures SetPair(Prefix(gs, k), names[k], value) == Prefix(gs, k + 1)
  {
    PrefixFresh(gs, names, k);
    SetPairSpec(Prefix(gs, k), names[k], value);
  }

  lemma {:induction false} OnlyUnnamed(ps: seq<Param>, n: string)
    requires !Named(ps, n)
    ensures Only(ps, n) == []
  {
    if ps != [] {
      assert ps[0].name != n;
      OnlyUnnamed(ps[1..], n);
    }
  }

  /** Among the first `k` groups, the pairs named `names[j]` are exactly group `j`, in its order. */
  lemma {:induction false} PrefixOnly(gs: seq<seq<Param>>, names: seq<string>, k: nat, j: nat)
    requires Grouped(gs, names) && Distinct(names) && k <= |gs| && j < |gs|
    ensures Only(Prefix(gs, k), names[j]) == if j < k then gs[j] else []
  {
    if k > 0 {
      PrefixOnly(gs, names, k - 1, j);
      assert Prefix(gs, k) == Prefix(gs, k - 1) + gs[k - 1];
      OnlyConcat(Prefix(gs, k - 1), gs[k - 1], names[j]);
      assert Uniform(gs[k - 1], names[k - 1]);
      OnlyUniform(gs[k - 1], names[k - 1], names[j]);
      if j == k - 1 {
        PrefixFresh(gs, names, j);
        OnlyUnnamed(Prefix(gs, k - 1), names[j]);
        assert Only(Prefix(gs, k), names[j]) == [] + gs[j];
      } else {
        assert names[k - 1] != names[j] by {
          if j < k - 1 { assert names[j] != names[k - 1]; } else { assert names[k - 1] != names[j]; }
        }
      }
    }
  }

  /** The pairs named `names[j]` are exactly group `j`, in its order. */
  lemma FlattenOnly(gs: seq<seq<Param>>, names: seq<string>, j: nat)
    requires Grouped(gs, names) && Distinct(names) && j < |gs|
    ensures Only(Flatten(gs), names[j]) == gs[j]
  {
    PrefixOnly(gs, names, |gs|, j);
  }

  /** Group order is kept: a pair of an earlier group never follows one of a later group. */
  lemma {:induction false} PrefixOrdered(gs: seq<seq<Param>>, names: seq<string>, k: nat)
    requires Grouped(gs, names) && Distinct(names) && k <= |gs|
    ensures forall i, j, a, b ::
      (0 <= i < j < |Prefix(gs, k)| && 0 <= a < |names| && 0 <= b < |names| &&
       Prefix(gs, k)[i].name == names[a] && Prefix(gs, k)[j].name == names[b]) ==> a <= b
  {
    if k > 0 {
      var front := Prefix(gs, k - 1);
      var r := Prefix(gs, k);
      PrefixOrdered(gs, names, k - 1);
      PrefixNames(gs, names, k - 1);
      forall i, j, a, b |
        0 <= i < j < |r| && 0 <= a < |names| && 0 <= b < |names| &&
        r[i].name == names[a] && r[j].name == names[b]
        ensures a <= b
      {
        if j < |front| {
          assert r[i] == front[i] && r[j] == front[j];
        } else {
          assert r[j] == gs[k - 1][j - |front|];
          assert b == k - 1;
          if i < |front| {
            assert r[i] == front[i];
            assert front[i].name in names[..k - 1];
            var a' :| 0 <= a' < k - 1 && names[..k - 1][a'] == front[i].name;
            assert a == a';
          } else {
            assert r[i] == gs[k - 1][i - |front|];
          }
        }
      }
    }
  }

  lemma FlattenOrdered(gs: seq<seq<Param>>, names: seq<string>)
    requires Grouped(gs, names) && Distinct(names)
    ensures forall i, j, a, b ::
      (0 <= i < j < |Flatten(gs)| && 0 <= a < |names| && 0 <= b < |names| &&
       Flatten(gs)[i].name == names[a] && Flatten(gs)[j].name == names[b]) ==> a <= b
  {
    PrefixOrdered(gs, names, |gs|);
  }

  lemma {:induction false} PrefixEmpty(gs: seq<seq<Param>>, k: nat)
    requires k <= |gs|
    ensures Prefix(gs, k) == [] <==> forall j :: 0 <= j < k ==> gs[j] == []
  {
    if k > 0 {
      PrefixEmpty(gs, k - 1);
    }
  }

  /** A shorter prefix is a prefix of a longer one. */
  /** Every pair of the whole list carries one of the group names. */
  lemma FlattenNames(gs: seq<seq<Param>>, names: seq<string>)
    requires Grouped(gs, names)
    ensures forall i :: 0 <= i < |Flatten(gs)| ==> Flatten(gs)[i].name in names
  {
    PrefixNames(gs, names, |gs|);
    assert names[..|gs|] == names;
  }

  /** Seven groups laid end to end. */
  lemma FlattenSeven(gs: seq<seq<Param>>)
    requires |gs| == 7
    ensures Flatten(gs) == gs[0] + gs[1] + gs[2] + gs[3] + gs[4] + gs[5] + gs[6]
  {
    assert Prefix(gs, 1) == gs[0] by { assert [] + gs[0] == gs[0]; }
    assert Prefix(gs, 2) == gs[0] + gs[1];
    assert Prefix(gs, 3) == gs[0] + gs[1] + gs[2];
    assert Prefix(gs, 4) == gs[0] + gs[1] + gs[2] + gs[3];
    assert Prefix(gs, 5) == gs[0] + gs[1] + gs[2] + gs[3] + gs[4];
    assert Prefix(gs, 6) == gs[0] + gs[1] + gs[2] + gs[3] + gs[4] + gs[5];
  }

  /** Eight groups laid end to end. */
  lemma FlattenEight(gs: seq<seq<Param>>)
    requires |gs| == 8
    ensures Flatten(gs) == gs[0] + gs[1] + gs[2] + gs[3] + gs[4] + gs[5] + gs[6] + gs[7]
  {
    assert Prefix(gs, 1) == gs[0] by { assert [] + gs[0] == gs[0]; }
    assert Prefix(gs, 2) == gs[0] + gs[1];
    assert Prefix(gs, 3) == gs[0] + gs[1] + gs[2];
    assert Prefix(gs, 4) == gs[0] + gs[1] + gs[2] + gs[3];
    assert Prefix(gs, 5) == gs[0] + gs[1] + gs[2] + gs[3] + gs[4];
    assert Prefix(gs, 6) == gs[0] + gs[1] + gs[2] + gs[3] + gs[4] + gs[5];
    assert Prefix(gs, 7) == gs[0] + gs[1] + gs[2] + gs[3] + gs[4] + gs[5] + gs[6];
  }

  lemma {:induction false} PrefixGrows(gs: seq<seq<Param>>, k: nat, m: nat)
    requires k <= m <= |gs|
    ensures |Prefix(gs, k)| <= |Prefix(gs, m)| && Prefix(gs, m)[..|Prefix(gs, k)|] == Prefix(gs, k)
  {
    if k < m {
      PrefixGrows(gs, k, m - 1);
      assert Prefix(gs, m) == Prefix(gs, m - 1) + gs[m - 1];
    }
  }

  /** The characters the form serializer leaves as they are: ASCII alphanumerics and `*-._`. */
  predicate Unreserved(s: string) {
    forall i :: 0 <= i < |s| ==>
      ('a' <= s[i] <= 'z') || ('A' <= s[i] <= 'Z') || ('0' <= s[i] <= '9') ||
      s[i] == '*' || s[i] == '-' || s[i] == '.' || s[i] == '_'
  }

  /** What the model assumes of a percent-encoder when it compares with literal text: unreserved text is unchanged. */
  ghost predicate FixesUnreserved(enc: string -> string) {
    forall s :: Unreserved(s) ==> enc(s) == s
  }

  function PairText(enc: string -> string, p: Param): (t: string)
    ensures |t| > 0
  {
    enc(p.name) + "=" + enc(p.value)
  }

  /** `URLSearchParams.toString()`: the pairs as `name=value`, joined by `&`. */
  function Serialize(enc: string -> string, ps: seq<Param>): (t: string)
    ensures t == "" <==> ps == []
  {
    if |ps| == 0 then ""
    else if |ps| == 1 then PairText(enc, ps[0])
    else Serialize(enc, ps[..|ps| - 1]) + "&" + PairText(enc, ps[|ps| - 1])
  }

  /** One pair of unreserved text serializes to `name=value`. */
  lemma SinglePairText(enc: string -> string, name: string, value: string)
    requires FixesUnreserved(enc) && Unreserved(name) && Unreserved(value)
    ensures Serialize(enc, [Param(name, value)]) == name + "=" + value
  {
  }

  /** Appending a pair to a non-empty list adds `&name=value` to its text. */
  lemma SerializeAppended(enc: string -> string, ps: seq<Param>, p: Param)
    ensures Serialize(enc, ps + [p]) ==
            (if ps == [] then PairText(enc, p) else Serialize(enc, ps) + "&" + PairText(enc, p))
  {
    assert (ps + [p])[..|ps|] == ps;
  }

  /** The mutable `URLSearchParams` object the client fills in. */
  class SearchParams {
    var list: seq<Param>

    constructor ()
      ensures list == []
    {
      list := [];
    }

    method Append(name: string, value: string)
      modifies this
      ensures list == old(list) + [Param(name, value)]
    {
      list := list + [Param(name, value)];
    }

    method Set(name: string, value: string)
      modifies this
      ensures list == SetPair(old(list), name, value)
    {
      list := SetPair(list, name, value);
    }
  }
}
