/**
 * Header lists. A header map is modelled as the sequence of (name, value)
 * entries its iterator yields, duplicates included. Names are held in the
 * canonical lower-case form the `http` crate gives every `HeaderName`, so the
 * comparisons below with lower-case literals are exact.
 */
module Headers {
  import opened Results

  datatype Header = Header(name: string, value: string)

  const HostName := "host"
  const ConnectionName := "connection"
  const ContentTypeName := "content-type"
  const XForwardedForName := "x-forwarded-for"
  const LocationName := "location"

  /** Entry `i` is the first entry called `name`. */
  predicate IsFirstNamed(hs: seq<Header>, name: string, i: int)
  {
    0 <= i < |hs| && hs[i].name == name && forall j :: 0 <= j < i ==> hs[j].name != name
  }

  /** `HeaderMap::get`: the first value stored under `name`, if any. */
  function Get(hs: seq<Header>, name: string): (r: Option<string>)
    ensures r.None? <==> forall i :: 0 <= i < |hs| ==> hs[i].name != name
    ensures forall i :: IsFirstNamed(hs, name, i) ==> r == Some(hs[i].value)
  {
    if hs == [] then None
    else if hs[0].name == name then Some(hs[0].value)
    else
      assert forall i :: IsFirstNamed(hs, name, i) ==> IsFirstNamed(hs[1..], name, i - 1);
      Get(hs[1..], name)
  }

  /** The entries not called `name`, in their original order. */
  function Without(hs: seq<Header>, name: string): (r: seq<Header>)
    ensures |r| <= |hs|
    ensures forall i :: 0 <= i < |r| ==> r[i].name != name
    ensures forall h :: h in r ==> h in hs
  {
    if hs == [] then []
    else if hs[0].name == name then Without(hs[1..], name)
    else [hs[0]] + Without(hs[1..], name)
  }

  /** Filtering distributes over concatenation, so the order of the kept entries is the original one. */
  lemma {:induction false} WithoutAppend(a: seq<Header>, b: seq<Header>, name: string)
    ensures Without(a + b, name) == Without(a, name) + Without(b, name)
    decreases |a|
  {
    if a == [] {
      assert a + b == b;
    } else {
      assert (a + b)[1..] == a[1..] + b;
      WithoutAppend(a[1..], b, name);
    }
  }

  /**
   * Every entry called `name` is dropped, and every other entry is kept
   * exactly as often as it occurs (duplicates included).
   */
  lemma {:induction false} WithoutCount(hs: seq<Header>, name: string, h: Header)
    ensures multiset(Without(hs, name))[h] == if h.name == name then 0 else multiset(hs)[h]
    decreases |hs|
  {
    if hs != [] {
      assert hs == [hs[0]] + hs[1..];
      WithoutCount(hs[1..], name, h);
    }
  }

  /** `WithoutCount` for every entry at once. */
  lemma WithoutCounts(hs: seq<Header>, name: string)
    ensures forall h :: multiset(Without(hs, name))[h] == if h.name == name then 0 else multiset(hs)[h]
  {
    forall h {
      WithoutCount(hs, name, h);
    }
  }

  /** Removing the same name twice removes nothing more. */
  lemma {:induction false} WithoutIdempotent(hs: seq<Header>, name: string)
    ensures Without(Without(hs, name), name) == Without(hs, name)
    decreases |hs|
  {
    if hs != [] {
      WithoutIdempotent(hs[1..], name);
      if hs[0].name != name {
        assert ([hs[0]] + Without(hs[1..], name))[1..] == Without(hs[1..], name);
      }
    }
  }

  /** `HeaderMap::insert`: every previous value of `name` is replaced by the single new one. */
  function Insert(hs: seq<Header>, name: string, value: string): (r: seq<Header>)
    ensures Get(r, name) == Some(value)
    ensures forall i :: 0 <= i < |r| && r[i].name == name ==> r[i].value == value
    ensures multiset(r)[Header(name, value)] == 1
    ensures Without(r, name) == Without(hs, name)
  {
    var kept := Without(hs, name);
    assert Header(name, value) !in kept;
    WithoutAppend(kept, [Header(name, value)], name);
    WithoutIdempotent(hs, name);
    assert Without([Header(name, value)], name) == [];
    assert IsFirstNamed(kept + [Header(name, value)], name, |kept|);
    kept + [Header(name, value)]
  }
}
