/** Index-based editing of arrays as the components write it:
    `list.filter((_, i) => i !== idx)` and `[...list, x]`. */
module Lists {

  /** `s.filter((_, i) => i !== idx)` where `offset` is the index of `s[0]`
      in the array being filtered. */
  function WithoutFrom<T>(s: seq<T>, idx: int, offset: int): (r: seq<T>)
    decreases |s|
  {
    if |s| == 0 then []
    else (if offset == idx then [] else [s[0]]) + WithoutFrom(s[1..], idx, offset + 1)
  }

  /** `s.filter((_, i) => i !== idx)`: drop the element at `idx`, if any. */
  function Without<T>(s: seq<T>, idx: int): seq<T> {
    WithoutFrom(s, idx, 0)
  }

  /** The index filter equals cutting out one element when the index is in
      range, and keeps the sequence whole otherwise. */
  lemma {:induction false} WithoutFromIsCut<T>(s: seq<T>, idx: int, offset: int)
    ensures WithoutFrom(s, idx, offset) ==
      if offset <= idx < offset + |s| then s[..idx - offset] + s[idx - offset + 1..] else s
    decreases |s|
  {
    if |s| > 0 {
      WithoutFromIsCut(s[1..], idx, offset + 1);
      if offset == idx {
        assert s[idx - offset + 1..] == s[1..];
      } else if offset < idx < offset + |s| {
        var k := idx - offset;
        assert s[1..][..k - 1] == s[1..k];
        assert s[1..][k..] == s[k + 1..];
        assert [s[0]] + s[1..k] == s[..k];
      } else {
        assert [s[0]] + s[1..] == s;
      }
    }
  }

  /** Removing at an in-range index shortens by one and keeps every other
      element in order; an out-of-range index leaves the sequence unchanged. */
  lemma WithoutSpec<T>(s: seq<T>, idx: int)
    ensures 0 <= idx < |s| ==> |Without(s, idx)| == |s| - 1
    ensures 0 <= idx < |s| ==> forall k :: 0 <= k < idx ==> Without(s, idx)[k] == s[k]
    ensures 0 <= idx < |s| ==> forall k :: idx <= k < |s| - 1 ==> Without(s, idx)[k] == s[k + 1]
    ensures !(0 <= idx < |s|) ==> Without(s, idx) == s
  {
    WithoutFromIsCut(s, idx, 0);
  }

  /** Appending an element and removing the last index restores the sequence. */
  lemma AppendThenWithoutLast<T>(s: seq<T>, x: T)
    ensures Without(s + [x], |s|) == s
  {
    WithoutFromIsCut(s + [x], |s|, 0);
    assert (s + [x])[..|s|] == s;
  }
}
