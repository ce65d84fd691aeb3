/** A run of stores into one body of memory, at word offsets from its base. */
module Stores {
  import opened Bits

  datatype Put = Put(offset: nat, value: Word)

  predicate Fits(m: seq<Word>, at: nat, puts: seq<Put>) {
    forall k :: 0 <= k < |puts| ==> at + puts[k].offset < |m|
  }

  function StoreAll(m: seq<Word>, at: nat, puts: seq<Put>): (n: seq<Word>)
    requires Fits(m, at, puts)
    ensures |n| == |m|
  {
    if puts == [] then m
    else
      var last := puts[|puts| - 1];
      StoreAll(m, at, puts[..|puts| - 1])[at + last.offset := last.value]
  }

  ghost predicate Distinct(puts: seq<Put>) {
    forall i, j :: 0 <= i < j < |puts| ==> puts[i].offset != puts[j].offset
  }

  lemma StoreStep(m: seq<Word>, at: nat, puts: seq<Put>, k: nat)
    requires Fits(m, at, puts) && k < |puts|
    ensures Fits(m, at, puts[..k]) && Fits(m, at, puts[..k + 1])
    ensures StoreAll(m, at, puts[..k + 1]) == StoreAll(m, at, puts[..k])[at + puts[k].offset := puts[k].value]
  {
    assert puts[..k + 1][..k] == puts[..k];
  }

  /** Words no store names keep their value. */
  lemma {:induction false} Untouched(m: seq<Word>, at: nat, puts: seq<Put>, j: nat)
    requires Fits(m, at, puts) && j < |m|
    requires forall k :: 0 <= k < |puts| ==> at + puts[k].offset != j
    ensures StoreAll(m, at, puts)[j] == m[j]
  {
    if puts != [] {
      Untouched(m, at, puts[..|puts| - 1], j);
    }
  }

  /** With distinct offsets every store survives to the end. */
  lemma {:induction false} Stored(m: seq<Word>, at: nat, puts: seq<Put>, k: nat)
    requires Fits(m, at, puts) && Distinct(puts) && k < |puts|
    ensures StoreAll(m, at, puts)[at + puts[k].offset] == puts[k].value
  {
    if k < |puts| - 1 {
      Stored(m, at, puts[..|puts| - 1], k);
    }
  }
}
