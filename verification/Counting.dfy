// Counting and sums over sequences.
module Counting {
  // With the one-element update laws that the ledger and the termination measure rest on.

  function Bit(b: bool): nat {
    if b then 1 else 0
  }

  function Max(a: int, b: int): int {
    if a < b then b else a
  }

  function Min(a: int, b: int): int {
    if a < b then a else b
  }

  /** Number of true entries. */
  function CountTrue(bits: seq<bool>): nat {
    if bits == [] then 0 else Bit(bits[0]) + CountTrue(bits[1..])
  }

  lemma {:induction false} CountUpdate(bits: seq<bool>, i: nat, b: bool)
    requires i < |bits|
    ensures CountTrue(bits[i := b]) + Bit(bits[i]) == CountTrue(bits) + Bit(b)
  {
    if i == 0 {
      assert bits[0 := b][1..] == bits[1..];
    } else {
      assert bits[i := b][1..] == bits[1..][i - 1 := b];
      CountUpdate(bits[1..], i - 1, b);
    }
  }

  lemma {:induction false} CountZero(bits: seq<bool>)
    ensures CountTrue(bits) == 0 <==> forall i :: 0 <= i < |bits| ==> !bits[i]
    ensures CountTrue(bits) <= |bits|
  {
    if bits == [] {
    } else {
      CountZero(bits[1..]);
      assert forall i :: 0 <= i < |bits[1..]| ==> bits[1..][i] == bits[i + 1];
      if forall i :: 0 <= i < |bits[1..]| ==> !bits[1..][i] {
        forall i | 0 <= i < |bits| && i != 0 ensures !bits[i] {
          assert !bits[1..][i - 1];
        }
      }
    }
  }

  lemma {:induction false} CountMono(less: seq<bool>, more: seq<bool>)
    requires |less| == |more|
    requires forall i :: 0 <= i < |less| && less[i] ==> more[i]
    ensures CountTrue(less) <= CountTrue(more)
  {
    if less == [] {
    } else {
      CountMono(less[1..], more[1..]);
    }
  }

  lemma {:induction false} CountAll(bits: seq<bool>)
    requires forall i :: 0 <= i < |bits| ==> bits[i]
    ensures CountTrue(bits) == |bits|
  {
    if bits == [] {
    } else {
      CountAll(bits[1..]);
    }
  }

  /** Sum of the entries. */
  function Sum(s: seq<nat>): nat {
    if s == [] then 0 else s[0] + Sum(s[1..])
  }

  lemma {:induction false} SumUpdate(s: seq<nat>, i: nat, x: nat)
    requires i < |s|
    ensures Sum(s[i := x]) + s[i] == Sum(s) + x
  {
    if i == 0 {
      assert s[0 := x][1..] == s[1..];
    } else {
      assert s[i := x][1..] == s[1..][i - 1 := x];
      SumUpdate(s[1..], i - 1, x);
    }
  }
}
