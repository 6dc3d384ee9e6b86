/** Vocabulary shared by all modules. */
module Base {
  datatype Option<+T> = None | Some(value: T)

  type byte = x: int | 0 <= x < 256

  /** A recipient's serial: the user part of a SIP URI. */
  type Serial = string

  const INT_MAX: int := 0x7FFF_FFFF

  /** Narrowing of a wider integer to a 32-bit two's-complement `int`. */
  function NarrowToInt(x: int): (r: int)
    ensures -INT_MAX - 1 <= r <= INT_MAX
    ensures (r - x) % 0x1_0000_0000 == 0
    ensures -INT_MAX - 1 <= x <= INT_MAX ==> r == x
  {
    var y := x % 0x1_0000_0000;
    if y > INT_MAX then y - 0x1_0000_0000 else y
  }

  ghost predicate NoDup<T(!new)>(s: seq<T>) {
    forall i, j :: 0 <= i < j < |s| ==> s[i] != s[j]
  }

  /** Removes the first occurrence of `x`, as the search-and-erase loops over a vector do. */
  function RemoveFirst<T(==)>(s: seq<T>, x: T): seq<T> {
    if s == [] then []
    else if s[0] == x then s[1..]
    else [s[0]] + RemoveFirst(s[1..], x)
  }

  lemma {:induction false} RemoveFirstFacts<T(!new)>(s: seq<T>, x: T)
    requires NoDup(s)
    ensures NoDup(RemoveFirst(s, x))
    ensures forall y :: y in RemoveFirst(s, x) <==> y in s && y != x
  {
    if s != [] {
      if s[0] != x {
        RemoveFirstFacts(s[1..], x);
        assert s == [s[0]] + s[1..];
        var t := RemoveFirst(s[1..], x);
        assert s[0] !in t;
      } else {
        assert s == [s[0]] + s[1..];
        assert x !in s[1..];
      }
    }
  }

  /** What a search loop that stops at `k` and erases there leaves. */
  lemma {:induction false} RemoveFirstAt<T>(s: seq<T>, x: T, k: nat)
    requires k <= |s| && x !in s[..k] && (k < |s| ==> s[k] == x)
    ensures RemoveFirst(s, x) == if k < |s| then s[..k] + s[k + 1..] else s
  {
    if s != [] && k > 0 {
      assert s[0] == s[..k][0];
      assert s[1..][..k - 1] == s[..k][1..];
      RemoveFirstAt(s[1..], x, k - 1);
      assert s[..k] == [s[0]] + s[1..][..k - 1];
      if k < |s| { assert s[1..][k..] == s[k + 1..]; }
    }
  }
}
