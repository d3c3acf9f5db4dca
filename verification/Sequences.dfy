/** Notions shared by all models. */
module Sequences {

  ghost predicate Distinct(s: seq<int>) {
    forall a, b :: 0 <= a < b < |s| ==> s[a] != s[b]
  }

  function Min(a: nat, b: nat): nat { if a <= b then a else b }
}
