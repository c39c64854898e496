/** Datatypes and sequence facts that several components share. */
module Common {

  /** Failure-compatible, so `:-` reads like the early return on a missing value. */
  datatype Option<+T> = None | Some(value: T) {
    predicate IsFailure() {
      None?
    }

    function PropagateFailure<U>(): Option<U>
      requires None?
    {
      None
    }

    function Extract(): T
      requires Some?
    {
      value
    }
  }

  datatype Result<+T, +E> = Ok(value: T) | Err(error: E)

  /** The last `n` elements of `s`, or all of them when there are fewer. */
  function TakeLast<T>(s: seq<T>, n: nat): (r: seq<T>)
    ensures |r| == if |s| <= n then |s| else n
  {
    if |s| <= n then s else s[|s| - n..]
  }

  predicate NoDuplicates<T(==)>(s: seq<T>) {
    forall i, j :: 0 <= i < j < |s| ==> s[i] != s[j]
  }

  /** `s` without the first occurrence of `x`. */
  function WithoutFirst<T(==)>(s: seq<T>, x: T): seq<T> {
    if s == [] then []
    else if s[0] == x then s[1..]
    else [s[0]] + WithoutFirst(s[1..], x)
  }

  /** How many elements of `s` satisfy `counted`. */
  function Count<T>(s: seq<T>, counted: T -> bool): nat {
    if s == [] then 0
    else Count(s[..|s| - 1], counted) + if counted(s[|s| - 1]) then 1 else 0
  }

  lemma CountPush<T>(s: seq<T>, x: T, counted: T -> bool)
    ensures Count(s + [x], counted) == Count(s, counted) + if counted(x) then 1 else 0
  {
    assert (s + [x])[..|s|] == s;
  }

  lemma {:induction false} CountGrows<T(!new)>(s: seq<T>, some: T -> bool, more: T -> bool)
    requires forall i :: 0 <= i < |s| && some(s[i]) ==> more(s[i])
    ensures Count(s, some) <= Count(s, more)
  {
    if s == [] {
    } else {
      CountGrows(s[..|s| - 1], some, more);
    }
  }

  function RemoveAt<T>(s: seq<T>, index: nat): seq<T>
    requires index < |s|
  {
    s[..index] + s[index + 1..]
  }

  lemma {:induction false} CountRemoved<T>(s: seq<T>, index: nat, counted: T -> bool)
    requires index < |s|
    ensures Count(s, counted) == Count(RemoveAt(s, index), counted) + if counted(s[index]) then 1 else 0
  {
    var front := s[..|s| - 1];
    if index == |s| - 1 {
      assert RemoveAt(s, index) == front;
    } else {
      CountRemoved(front, index, counted);
      assert RemoveAt(s, index) == RemoveAt(front, index) + [s[|s| - 1]];
      CountPush(RemoveAt(front, index), s[|s| - 1], counted);
    }
  }

  /** `n` copies of `x`. */
  function Repeat<T>(x: T, n: nat): (s: seq<T>)
    ensures |s| == n && forall i :: 0 <= i < n ==> s[i] == x
  {
    if n == 0 then [] else Repeat(x, n - 1) + [x]
  }

  lemma {:induction false} CountRepeat<T>(x: T, n: nat, counted: T -> bool)
    ensures Count(Repeat(x, n), counted) == if counted(x) then n else 0
  {
    if n == 0 {
    } else {
      CountRepeat(x, n - 1, counted);
      CountPush(Repeat(x, n - 1), x, counted);
    }
  }
}
