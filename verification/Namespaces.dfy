// Authorization namespaces (`NamespaceSet`, crates/biei-core/src/types.rs): the
// normal form, the linear/binary-search coverage test, and what it means.
module Namespaces {
  import opened Types

  const MAX_NAMESPACES: nat := 1024
  const MAX_NAMESPACE_BYTES: nat := 256
  const STAR: string := "*"

  predicate StrLess(a: string, b: string)
  {
    b != [] && (a == [] || a[0] < b[0] || (a[0] == b[0] && StrLess(a[1..], b[1..])))
  }

  lemma {:induction false} StrTrichotomy(a: string, b: string)
    ensures StrLess(a, b) || StrLess(b, a) || a == b
    ensures !(StrLess(a, b) && StrLess(b, a)) && !StrLess(a, a)
    decreases |a|
  {
    if a != [] {
      assert a == [a[0]] + a[1..];
      StrTrichotomy(a[1..], a[1..]);
      if b != [] {
        assert b == [b[0]] + b[1..];
        StrTrichotomy(a[1..], b[1..]);
      }
    }
  }

  lemma {:induction false} StrTransitive(a: string, b: string, c: string)
    requires StrLess(a, b) && StrLess(b, c)
    ensures StrLess(a, c)
    decreases |a|
  {
    if a != [] && a[0] == b[0] && b[0] == c[0] {
      StrTransitive(a[1..], b[1..], c[1..]);
    }
  }

  ghost predicate StrictlySorted(s: seq<string>)
  {
    forall i, j :: 0 <= i < j < |s| ==> StrLess(s[i], s[j])
  }

  // The normal form every `NamespaceSet` is in.
  ghost predicate Canonical(s: seq<string>)
  {
    s != [] && StrictlySorted(s) && (STAR in s ==> s == [STAR])
  }

  // `slice::binary_search(..).is_ok()`
  method BinarySearch(s: seq<string>, key: string) returns (found: bool)
    requires StrictlySorted(s)
    ensures found <==> key in s
  {
    var lo, hi := 0, |s|;
    while lo < hi
      invariant 0 <= lo <= hi <= |s|
      invariant forall k :: 0 <= k < |s| && (k < lo || hi <= k) ==> s[k] != key
    {
      var mid := (lo + hi) / 2;
      StrTrichotomy(s[mid], key);
      if s[mid] == key {
        return true;
      } else if StrLess(s[mid], key) {
        forall k | 0 <= k <= mid ensures s[k] != key {
          StrTrichotomy(s[k], s[mid]);
        }
        lo := mid + 1;
      } else {
        forall k | mid <= k < |s| ensures s[k] != key {
          StrTrichotomy(s[mid], s[k]);
        }
        hi := mid;
      }
    }
    found := false;
  }

  // Insert into a sorted, duplicate-free list; equal names collapse.
  function InsertName(s: seq<string>, x: string): (r: seq<string>)
  {
    if s == [] then [x]
    else if x == s[0] then s
    else if StrLess(x, s[0]) then [x] + s
    else [s[0]] + InsertName(s[1..], x)
  }

  lemma {:induction false} InsertNameSorted(s: seq<string>, x: string)
    requires StrictlySorted(s)
    ensures StrictlySorted(InsertName(s, x))
    ensures forall y :: y in InsertName(s, x) <==> y == x || y in s
  {
    if s != [] {
      StrTrichotomy(x, s[0]);
      if StrLess(x, s[0]) {
        forall j | 0 <= j < |s| ensures StrLess(x, s[j]) {
          if j > 0 {
            StrTransitive(x, s[0], s[j]);
          }
        }
      } else if x != s[0] {
        InsertNameSorted(s[1..], x);
        assert forall y :: y in s[1..] ==> StrLess(s[0], y);
      }
      assert s == [s[0]] + s[1..];
    }
  }

  // `control` says whether a name holds a control character.
  predicate ValidName(name: string, control: string -> bool)
  {
    name != [] && |name| <= MAX_NAMESPACE_BYTES && !control(name)
  }

  // Normalization: sorted, duplicate-free, and the wildcard absorbs the rest.
  method TryNew(names: seq<string>, control: string -> bool) returns (r: Option<seq<string>>)
    ensures r.Some? <==>
      1 <= |names| <= 1024 && forall i :: 0 <= i < |names| ==> 1 <= |names[i]| <= 256 && !control(names[i])
    ensures r.Some? ==> Canonical(r.value)
    ensures r.Some? ==> if STAR in names then r.value == [STAR] else forall y :: y in r.value <==> y in names
  {
    if names == [] || |names| > MAX_NAMESPACES {
      return None;
    }
    for i := 0 to |names|
      invariant forall k :: 0 <= k < i ==> ValidName(names[k], control)
    {
      if !ValidName(names[i], control) {
        return None;
      }
    }
    var sorted: seq<string> := [];
    for i := 0 to |names|
      invariant StrictlySorted(sorted)
      invariant forall y :: y in sorted <==> y in names[..i]
    {
      InsertNameSorted(sorted, names[i]);
      assert names[..i + 1] == names[..i] + [names[i]];
      sorted := InsertName(sorted, names[i]);
    }
    assert names[..|names|] == names;
    assert names[0] in sorted;
    var wild := BinarySearch(sorted, STAR);
    if wild {
      return Some([STAR]);
    }
    return Some(sorted);
  }

  // A shared list is accepted exactly when it is already in normal form.
  method TryFromShared(names: seq<string>, control: string -> bool) returns (ok: bool)
    ensures ok <==> |names| <= 1024 && Canonical(names) && forall i :: 0 <= i < |names| ==> 1 <= |names[i]| <= 256 && !control(names[i])
  {
    if names == [] || |names| > MAX_NAMESPACES {
      return false;
    }
    for i := 0 to |names|
      invariant forall k :: 0 <= k < i ==> ValidName(names[k], control)
    {
      if !ValidName(names[i], control) {
        return false;
      }
    }
    for i := 1 to |names|
      invariant forall j, k :: 0 <= j < k < i ==> StrLess(names[j], names[k])
    {
      if !StrLess(names[i - 1], names[i]) {
        return false;
      }
      forall j | 0 <= j < i ensures StrLess(names[j], names[i]) {
        if j < i - 1 {
          StrTransitive(names[j], names[i - 1], names[i]);
        }
      }
    }
    if STAR in names && !(|names| == 1 && names[0] == STAR) {
      return false;
    }
    return true;
  }

  // ---- coverage ----

  ghost predicate Covers(readable: seq<string>, required: seq<string>)
  {
    STAR in readable || forall n :: n in required ==> n != STAR && n in readable
  }

  method Allows(readable: seq<string>, required: seq<string>) returns (ok: bool)
    requires Canonical(readable)
    ensures ok <==> Covers(readable, required)
  {
    if readable[0] == STAR {
      return true;
    }
    for i := 0 to |required|
      invariant forall k :: 0 <= k < i ==> required[k] != STAR && required[k] in readable
    {
      if required[i] == STAR {
        return false;
      }
      var found := BinarySearch(readable, required[i]);
      if !found {
        return false;
      }
    }
    ok := true;
  }

  // A grant opens a namespace when it names it or is the wildcard.
  ghost predicate Opens(grant: seq<string>, name: string)
  {
    STAR in grant || name in grant
  }

  function LongestLength(s: seq<string>): (n: nat)
    ensures forall x :: x in s ==> |x| <= n
  {
    if s == [] then 0
    else
      var rest := LongestLength(s[1..]);
      assert s == [s[0]] + s[1..];
      if |s[0]| <= rest then rest else |s[0]|
  }

  // The coverage test is exactly inclusion of what the two grants open.
  lemma CoversIsInclusion(readable: seq<string>, required: seq<string>)
    requires STAR in required ==> required == [STAR]
    ensures Covers(readable, required) <==> forall name: string :: name != STAR && Opens(required, name) ==> Opens(readable, name)
  {
    if forall name: string :: name != STAR && Opens(required, name) ==> Opens(readable, name) {
      if STAR !in readable {
        var unseen := seq(LongestLength(readable) + 2, _ => 'x');
        assert |unseen| >= 2 && unseen != STAR;
        assert unseen !in readable;
        assert !Opens(readable, unseen);
        assert STAR !in required;
        forall n | n in required ensures n != STAR && n in readable {
          assert Opens(required, n);
        }
      }
    }
  }

  // Hence coverage composes: reading through two covering grants is covered.
  lemma CoversTransitive(a: seq<string>, b: seq<string>, c: seq<string>)
    requires Covers(a, b) && Covers(b, c)
    ensures Covers(a, c)
  {
    if STAR !in a {
      assert STAR !in b;
    }
  }
}
