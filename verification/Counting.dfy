/** Counting rows, and parts of sequences. */
module Counting {
  import opened Common

  function Elements<T>(items: seq<T>): set<T> {
    set i | 0 <= i < |items| :: items[i]
  }

  lemma {:induction false} ElementCount<T>(items: seq<T>)
    ensures |Elements(items)| <= |items|
    ensures |Elements(items)| == |items| <==> Distinct(items)
  {
    if items == [] {
    } else {
      var n := |items| - 1;
      var rest := items[..n];
      ElementCount(rest);
      assert Elements(items) == Elements(rest) + {items[n]};
      if items[n] in Elements(rest) {
        var i :| 0 <= i < n && rest[i] == items[n];
        assert items[i] == items[n] && Elements(items) == Elements(rest);
      } else {
        assert Distinct(items) <==> Distinct(rest) by {
          forall i | 0 <= i < n ensures items[i] != items[n] { assert rest[i] in Elements(rest); }
        }
      }
    }
  }

  lemma {:induction false} SubsetCount<T>(a: set<T>, b: set<T>)
    requires a <= b
    ensures |a| <= |b| && (|a| == |b| ==> a == b)
  {
    if x :| x in a {
      SubsetCount(a - {x}, b - {x});
    }
  }

  /** As many distinct rows came back as ids were asked for: so the ids are
    distinct and every one of them was found. */
  lemma CountDecides<T>(vs: seq<T>, rows: seq<T>)
    requires Distinct(rows) && forall v :: v in rows ==> v in vs
    ensures |rows| == |vs| ==> Distinct(vs) && forall v :: v in vs ==> v in rows
  {
    ElementCount(vs);
    ElementCount(rows);
    forall v | v in Elements(rows) ensures v in Elements(vs) { assert v in vs; }
    SubsetCount(Elements(rows), Elements(vs));
    if |rows| == |vs| {
      forall v | v in vs ensures v in rows { assert v in Elements(rows); }
    }
  }

  /** `part` is `whole` with some elements left out: element k of the part is
    element at[k] of the whole, and the positions increase. */
  ghost predicate Embeds<T(!new)>(part: seq<T>, whole: seq<T>, at: seq<nat>) {
    && |at| == |part|
    && (forall k :: 0 <= k < |part| ==> at[k] < |whole| && whole[at[k]] == part[k])
    && (forall j, k :: 0 <= j < k < |part| ==> at[j] < at[k])
  }

  ghost predicate IsSubsequence<T(!new)>(part: seq<T>, whole: seq<T>) {
    exists at: seq<nat> :: Embeds(part, whole, at)
  }
}
