/** Types and list operations shared by the modules of the model. */
module Basics {

  datatype Option<+T> = None | Some(value: T)

  /** One octet, as stored in the data array of a packet. */
  type Byte = x: int | 0 <= x < 256

  type Bytes = seq<Byte>

  /** The largest payload of one packet. */
  const MAX_PAYLOAD := 4096

  function Min(a: nat, b: nat): (r: nat)
  {
    if a <= b then a else b
  }

  function Flag(b: bool): (r: nat)
  {
    if b then 1 else 0
  }

  lemma Regroup<T>(a: seq<T>, b: seq<T>, c: seq<T>)
    ensures a + (b + c) == a + b + c
  {
  }

  // ----- lists without duplicates

  function Minus<T(==)>(list: seq<T>, r: T): (m: seq<T>)
  {
    if list == [] then []
    else if list[0] == r then Minus(list[1..], r)
    else [list[0]] + Minus(list[1..], r)
  }

  ghost predicate NoDup<T>(s: seq<T>)
  {
    forall i, j :: 0 <= i < j < |s| ==> s[i] != s[j]
  }

  lemma {:induction false} MinusMember<T>(list: seq<T>, r: T, x: T)
    ensures x in Minus(list, r) <==> x in list && x != r
  {
    if list != [] {
      MinusMember(list[1..], r, x);
    }
  }

  lemma {:induction false} MinusNoDup<T>(list: seq<T>, r: T)
    requires NoDup(list)
    ensures NoDup(Minus(list, r)) && |Minus(list, r)| == |list| - Flag(r in list)
  {
    if list != [] {
      MinusNoDup(list[1..], r);
      MinusMember(list[1..], r, list[0]);
      assert NoDup(list[1..]);
    }
  }
}
