/** The two java.util.List operations that look an element up by identity. */
module Lists {

  /** List.indexOf: the first index holding x, or -1. */
  function IndexOf<T(==)>(s: seq<T>, x: T): (i: int)
    ensures -1 <= i < |s|
    ensures i >= 0 ==> s[i] == x && x !in s[..i]
    ensures i == -1 <==> x !in s
  {
    if s == [] then -1
    else if s[0] == x then 0
    else
      var j := IndexOf(s[1..], x);
      if j == -1 then -1 else j + 1
  }

  /** List.remove(Object): the first occurrence of x goes, the rest keeps its order. */
  function RemoveFirst<T(==)>(s: seq<T>, x: T): (r: seq<T>)
    ensures x !in s ==> r == s
    ensures x in s ==> |r| == |s| - 1 && exists i :: 0 <= i < |s| && s[i] == x && x !in s[..i] && r == s[..i] + s[i + 1..]
    ensures multiset(r) == multiset(s) - multiset{x}
  {
    var i := IndexOf(s, x);
    if i == -1 then s
    else
      assert s == s[..i] + [x] + s[i + 1..];
      s[..i] + s[i + 1..]
  }
}
