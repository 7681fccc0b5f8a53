/**
 * The array updates the application writes with `map`, `filter`, `find`
 * and `splice`, over records identified by a string key.
 */
module Sequences {
  import opened Wrappers

  /** `s.map(y => key(y) === key(x) ? x : y)`. */
  function Replace<T>(s: seq<T>, key: T -> string, x: T): (r: seq<T>)
    ensures |r| == |s|
    ensures forall i :: 0 <= i < |s| && key(s[i]) == key(x) ==> r[i] == x
    ensures forall i :: 0 <= i < |s| && key(s[i]) != key(x) ==> r[i] == s[i]
  {
    if s == [] then [] else [if key(s[0]) == key(x) then x else s[0]] + Replace(s[1..], key, x)
  }

  /** The keys of `s`, in order. */
  function Keys<T>(s: seq<T>, key: T -> string): (ks: seq<string>)
    ensures |ks| == |s|
  {
    seq(|s|, i requires 0 <= i < |s| => key(s[i]))
  }

  /** No key occurs twice. */
  predicate UniqueKeys<T>(s: seq<T>, key: T -> string) {
    forall i, j :: 0 <= i < j < |s| ==> key(s[i]) != key(s[j])
  }

  /** With no element carrying x's key, replacing changes nothing. */
  lemma ReplaceNoMatch<T>(s: seq<T>, key: T -> string, x: T)
    requires key(x) !in Keys(s, key)
    ensures Replace(s, key, x) == s
  {
    var r := Replace(s, key, x);
    forall i | 0 <= i < |s|
      ensures r[i] == s[i]
    {
      assert Keys(s, key)[i] == key(s[i]);
    }
  }

  /** Replacing keeps every key in its place, so unique keys stay unique. */
  lemma ReplaceKeepsKeys<T>(s: seq<T>, key: T -> string, x: T)
    ensures Keys(Replace(s, key, x), key) == Keys(s, key)
    ensures UniqueKeys(s, key) ==> UniqueKeys(Replace(s, key, x), key)
  {
    var r := Replace(s, key, x);
    assert forall i :: 0 <= i < |s| ==> key(r[i]) == key(s[i]);
    assert Keys(r, key) == Keys(s, key);
  }

  /** Replacing twice with the same record is replacing once. */
  lemma ReplaceIdempotent<T>(s: seq<T>, key: T -> string, x: T)
    ensures Replace(Replace(s, key, x), key, x) == Replace(s, key, x)
  {
  }

  /** `s.filter(y => key(y) !== k)`. */
  function Without<T>(s: seq<T>, key: T -> string, k: string): (r: seq<T>)
    ensures |r| <= |s|
    ensures forall i :: 0 <= i < |r| ==> r[i] in s && key(r[i]) != k
    ensures forall i :: 0 <= i < |s| && key(s[i]) != k ==> s[i] in r
  {
    if s == [] then []
    else (if key(s[0]) == k then [] else [s[0]]) + Without(s[1..], key, k)
  }

  /** Filtering keeps the relative order of the survivors: it distributes over concatenation. */
  lemma {:induction false} WithoutConcat<T>(a: seq<T>, b: seq<T>, key: T -> string, k: string)
    ensures Without(a + b, key, k) == Without(a, key, k) + Without(b, key, k)
  {
    if a == [] {
      assert a + b == b;
    } else {
      assert (a + b)[0] == a[0];
      assert (a + b)[1..] == a[1..] + b;
      WithoutConcat(a[1..], b, key, k);
    }
  }

  /** Filtering out a key nobody carries changes nothing. */
  lemma {:induction false} WithoutNoMatch<T>(s: seq<T>, key: T -> string, k: string)
    requires k !in Keys(s, key)
    ensures Without(s, key, k) == s
  {
    if s != [] {
      assert Keys(s, key)[0] == key(s[0]);
      assert Keys(s[1..], key) == Keys(s, key)[1..];
      WithoutNoMatch(s[1..], key, k);
    }
  }

  /** Filtering keeps keys unique. */
  lemma {:induction false} WithoutUnique<T>(s: seq<T>, key: T -> string, k: string)
    requires UniqueKeys(s, key)
    ensures UniqueKeys(Without(s, key, k), key)
  {
    if s != [] {
      var tail := Without(s[1..], key, k);
      WithoutUnique(s[1..], key, k);
      if key(s[0]) != k {
        forall j | 0 <= j < |tail|
          ensures key(s[0]) != key(tail[j])
        {
          assert tail[j] in s[1..];
        }
        assert Without(s, key, k) == [s[0]] + tail;
      }
    }
  }

  /** Appending a record with a fresh key keeps keys unique. */
  lemma AppendFresh<T>(s: seq<T>, key: T -> string, x: T)
    requires UniqueKeys(s, key)
    requires key(x) !in Keys(s, key)
    ensures UniqueKeys(s + [x], key)
  {
    forall i | 0 <= i < |s|
      ensures key(s[i]) != key(x)
    {
      assert Keys(s, key)[i] == key(s[i]);
    }
  }

  /** `s.findIndex(y => key(y) === k)`; -1 when there is none. */
  function FindIndex<T>(s: seq<T>, key: T -> string, k: string): (i: int)
    ensures -1 <= i < |s|
    ensures i == -1 <==> k !in Keys(s, key)
    ensures i >= 0 ==> key(s[i]) == k && k !in Keys(s[..i], key)
  {
    if s == [] then -1
    else if key(s[0]) == k then
      assert Keys(s[..0], key) == [];
      assert Keys(s, key)[0] == k;
      0
    else
      var j := FindIndex(s[1..], key, k);
      assert Keys(s, key) == [key(s[0])] + Keys(s[1..], key);
      if j == -1 then -1
      else
        assert Keys(s[..j + 1], key) == [key(s[0])] + Keys(s[1..][..j], key);
        j + 1
  }

  /** The index found depends on the keys alone. */
  lemma {:induction false} FindIndexOfKeys<T>(s: seq<T>, t: seq<T>, key: T -> string, k: string)
    requires Keys(s, key) == Keys(t, key)
    ensures FindIndex(s, key, k) == FindIndex(t, key, k)
  {
    if s != [] {
      assert key(s[0]) == Keys(s, key)[0] == key(t[0]);
      assert Keys(s[1..], key) == Keys(s, key)[1..];
      assert Keys(t[1..], key) == Keys(t, key)[1..];
      FindIndexOfKeys(s[1..], t[1..], key, k);
    }
  }

  /** `s.find(y => key(y) === k)`: the first element with key k. */
  function Find<T>(s: seq<T>, key: T -> string, k: string): (r: Option<T>)
    ensures r.None? <==> k !in Keys(s, key)
    ensures r.Some? ==> exists i :: 0 <= i < |s| && s[i] == r.value && key(s[i]) == k && k !in Keys(s[..i], key)
  {
    var i := FindIndex(s, key, k);
    if i == -1 then None else Some(s[i])
  }

  /** `find` reads the keys from the front: none matches, or the one found is preceded by no match. */
  lemma FindIsFirst<T>(s: seq<T>, key: T -> string, k: string)
    ensures Find(s, key, k).None? <==> forall i :: 0 <= i < |s| ==> key(s[i]) != k
    ensures Find(s, key, k).Some? ==> exists i :: (0 <= i < |s| && s[i] == Find(s, key, k).value && key(s[i]) == k
      && forall j :: 0 <= j < i ==> key(s[j]) != k)
  {
    var r := Find(s, key, k);
    if r.Some? {
      var i :| 0 <= i < |s| && s[i] == r.value && key(s[i]) == k && k !in Keys(s[..i], key);
      forall j | 0 <= j < i
        ensures key(s[j]) != k
      {
        assert Keys(s[..i], key)[j] == key(s[j]);
      }
    } else {
      forall i | 0 <= i < |s|
        ensures key(s[i]) != k
      {
        assert Keys(s, key)[i] == key(s[i]);
      }
    }
  }

  /** `s.splice(i, 1)` on a copy: index i removed when it exists, otherwise nothing. */
  function RemoveAt<T>(s: seq<T>, i: nat): (r: seq<T>)
    ensures i < |s| ==> |r| == |s| - 1
    ensures i < |s| ==> forall j :: 0 <= j < i ==> r[j] == s[j]
    ensures i < |s| ==> forall j :: i <= j < |r| ==> r[j] == s[j + 1]
    ensures i >= |s| ==> r == s
  {
    if i < |s| then s[..i] + s[i + 1..] else s
  }
}
