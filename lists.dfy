/** Index-based list edits used by the admin pages: `map` with a test on the
    index and `filter` on the index. */
module Lists {

  /** `s.map((x, i) => i === index ? f(x) : x)`; an index outside the list
      matches nothing. */
  function UpdateAt<T>(s: seq<T>, index: int, f: T -> T): (r: seq<T>)
    ensures |r| == |s|
  {
    seq(|s|, k requires 0 <= k < |s| => if k == index then f(s[k]) else s[k])
  }

  /** `s.filter((_, i) => i !== index)`, walking the list from the left. */
  function WithoutIndex<T>(s: seq<T>, index: int): (r: seq<T>)
    ensures |r| <= |s|
  {
    if s == [] then []
    else WithoutIndex(s[..|s| - 1], index) + (if |s| - 1 == index then [] else [s[|s| - 1]])
  }

  /** Updating entry i replaces exactly that entry and keeps the rest in
      place; an index outside the list leaves it unchanged. */
  lemma UpdateAtSplit<T>(s: seq<T>, index: int, f: T -> T)
    ensures 0 <= index < |s| ==> UpdateAt(s, index, f) == s[..index] + [f(s[index])] + s[index + 1..]
    ensures !(0 <= index < |s|) ==> UpdateAt(s, index, f) == s
  {
    var r := UpdateAt(s, index, f);
    if 0 <= index < |s| {
      var t := s[..index] + [f(s[index])] + s[index + 1..];
      assert |r| == |t|;
      forall k | 0 <= k < |r|
        ensures r[k] == t[k]
      {
        if k < index {
          assert t[k] == s[k];
        } else if k > index {
          assert t[k] == s[k];
        }
      }
    } else {
      assert |r| == |s|;
      forall k | 0 <= k < |r|
        ensures r[k] == s[k]
      {
      }
    }
  }

  /** Removing entry i drops exactly that entry and keeps the order of the
      others; an index outside the list removes nothing. */
  lemma {:induction false} WithoutIndexSplit<T>(s: seq<T>, index: int)
    ensures 0 <= index < |s| ==> WithoutIndex(s, index) == s[..index] + s[index + 1..]
    ensures !(0 <= index < |s|) ==> WithoutIndex(s, index) == s
  {
    if s != [] {
      var init := s[..|s| - 1];
      WithoutIndexSplit(init, index);
      if |s| - 1 == index {
        assert s[..index] == init;
        assert s[index + 1..] == [];
      } else if 0 <= index < |s| - 1 {
        assert init[..index] == s[..index];
        assert init[index + 1..] + [s[|s| - 1]] == s[index + 1..];
      } else {
        assert init + [s[|s| - 1]] == s;
      }
    }
  }
}
