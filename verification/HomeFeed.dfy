/** The three rows of the home page, picked from overlapping candidate lists. */
module HomeFeed {
  import opened Common
  import opened Counting
  import opened Text

  const DEFAULT_ROW := 12
  const MAX_ROW := 24
  const OWNER_CAP := 2

  datatype Card = Card(cardType: string, id: string, owner: string)

  function Key(c: Card): string {
    c.cardType + ":" + c.id
  }

  function RowSize(requested: int): nat {
    if requested <= 0 || requested > MAX_ROW then DEFAULT_ROW else requested
  }

  // ------------------------------------------------------------ what a row is

  predicate IsOpen(c: Card, seen: set<string>, excluded: set<string>) {
    Key(c) !in seen && c.id !in excluded
  }

  /** The keys a row could be filled with. */
  function OpenKeys(candidates: seq<Card>, seen: set<string>, excluded: set<string>): set<string> {
    set i | 0 <= i < |candidates| && IsOpen(candidates[i], seen, excluded) :: Key(candidates[i])
  }

  function Keys(cards: seq<Card>): set<string> {
    set i | 0 <= i < |cards| :: Key(cards[i])
  }

  function OwnedBy(cards: seq<Card>, owner: string): nat {
    if cards == [] then 0
    else OwnedBy(cards[..|cards| - 1], owner) + if Trim(cards[|cards| - 1].owner) == owner then 1 else 0
  }

  /** No named owner has more than `cap` cards; 0 means no cap. */
  ghost predicate WithinCap(cards: seq<Card>, cap: nat) {
    cap > 0 ==> forall owner {:trigger OwnedBy(cards, owner)} :: owner != "" ==> OwnedBy(cards, owner) <= cap
  }

  ghost predicate AtCap(cards: seq<Card>, cap: nat, c: Card) {
    cap > 0 && Trim(c.owner) != "" && OwnedBy(cards, Trim(c.owner)) == cap
  }

  /** All cards come from the candidates, are open, and differ in key. */
  ghost predicate Picks(cards: seq<Card>, candidates: seq<Card>, seen: set<string>, excluded: set<string>) {
    && (forall i :: 0 <= i < |cards| ==> cards[i] in candidates && IsOpen(cards[i], seen, excluded))
    && forall i, j :: 0 <= i < j < |cards| ==> Key(cards[i]) != Key(cards[j])
  }

  /** `fair` cards picked under the cap, then a fill that the cap had held back;
    both in candidate order. There is a fill only if the fair part ran short. */
  ghost predicate IsRow(row: seq<Card>, fair: nat, candidates: seq<Card>, seen: set<string>, excluded: set<string>,
                        size: nat, cap: nat) {
    && fair <= |row| <= size
    && Picks(row, candidates, seen, excluded)
    && IsSubsequence(row[..fair], candidates) && IsSubsequence(row[fair..], candidates)
    && WithinCap(row[..fair], cap)
    && (forall i :: fair <= i < |row| ==> AtCap(row[..fair], cap, row[i]))
    && (|row| < size ==> forall i :: 0 <= i < |candidates| && IsOpen(candidates[i], seen, excluded) ==>
                                       Key(candidates[i]) in Keys(row))
  }

  lemma {:induction false} KeyCount(cards: seq<Card>)
    requires forall i, j :: 0 <= i < j < |cards| ==> Key(cards[i]) != Key(cards[j])
    ensures |Keys(cards)| == |cards|
  {
    if cards == [] {
    } else {
      var n := |cards| - 1;
      KeyCount(cards[..n]);
      assert Keys(cards) == Keys(cards[..n]) + {Key(cards[n])};
      assert Key(cards[n]) !in Keys(cards[..n]);
    }
  }

  /** A row is as long as it can be: as its size, or as there are distinct cards
    left to show. */
  lemma RowIsFull(row: seq<Card>, fair: nat, candidates: seq<Card>, seen: set<string>, excluded: set<string>,
                  size: nat, cap: nat)
    requires IsRow(row, fair, candidates, seen, excluded, size, cap)
    ensures var open := |OpenKeys(candidates, seen, excluded)|; |row| == if open < size then open else size
  {
    var open := OpenKeys(candidates, seen, excluded);
    KeyCount(row);
    forall k | k in Keys(row) ensures k in open {
      var i :| 0 <= i < |row| && Key(row[i]) == k;
      var j :| 0 <= j < |candidates| && candidates[j] == row[i];
    }
    SubsetCount(Keys(row), open);
    if |row| < size {
      assert open == Keys(row);
    }
  }

  /** A row that is not full has every candidate that is not excluded and not shown
    before. */
  lemma NothingIsMissed(row: seq<Card>, fair: nat, candidates: seq<Card>, seen: set<string>, excluded: set<string>,
                        size: nat, cap: nat, c: Card)
    requires IsRow(row, fair, candidates, seen, excluded, size, cap) && |row| < size
    requires c in candidates && c.id !in excluded && c.cardType + ":" + c.id !in seen
    ensures exists i :: 0 <= i < |row| && row[i].cardType + ":" + row[i].id == c.cardType + ":" + c.id
  {
    var j :| 0 <= j < |candidates| && candidates[j] == c;
    assert Key(c) in Keys(row);
  }

  lemma OneMorePick(cards: seq<Card>, item: Card)
    ensures Keys(cards + [item]) == Keys(cards) + {Key(item)}
    ensures forall owner {:trigger OwnedBy(cards + [item], owner)} ::
              OwnedBy(cards + [item], owner) == OwnedBy(cards, owner) + if Trim(item.owner) == owner then 1 else 0
  {
    assert (cards + [item])[..|cards|] == cards;
    forall k | k in Keys(cards) + {Key(item)} ensures k in Keys(cards + [item]) {
      if k in Keys(cards) {
        var i :| 0 <= i < |cards| && Key(cards[i]) == k;
        assert (cards + [item])[i] == cards[i];
      } else {
        assert (cards + [item])[|cards|] == item;
      }
    }
  }

  /** Picking the open card at index `i`, after earlier ones. */
  lemma PickAt(cards: seq<Card>, candidates: seq<Card>, seen: set<string>, excluded: set<string>, at: seq<nat>, i: nat)
    requires i < |candidates| && IsOpen(candidates[i], seen + Keys(cards), excluded)
    requires Picks(cards, candidates, seen, excluded) && Embeds(cards, candidates, at)
             && forall k :: 0 <= k < |at| ==> at[k] < i
    ensures Picks(cards + [candidates[i]], candidates, seen, excluded)
    ensures Embeds(cards + [candidates[i]], candidates, at + [i]) && IsSubsequence(cards + [candidates[i]], candidates)
  {
  }

  function CountOf(ownerCounts: map<string, nat>, owner: string): nat {
    if owner in ownerCounts then ownerCounts[owner] else 0
  }

  ghost predicate Counts(ownerCounts: map<string, nat>, cards: seq<Card>) {
    forall owner {:trigger OwnedBy(cards, owner)} :: owner != "" ==>
                                                       CountOf(ownerCounts, owner) == OwnedBy(cards, owner)
  }

  lemma CountOneMore(ownerCounts: map<string, nat>, cards: seq<Card>, item: Card, cap: nat)
    requires Counts(ownerCounts, cards) && WithinCap(cards, cap)
    requires !(cap > 0 && Trim(item.owner) != "" && CountOf(ownerCounts, Trim(item.owner)) >= cap)
    ensures var owner := Trim(item.owner);
            Counts(if owner != "" then ownerCounts[owner := CountOf(ownerCounts, owner) + 1]
                   else ownerCounts, cards + [item])
    ensures WithinCap(cards + [item], cap)
    ensures forall c {:trigger AtCap(cards, cap, c)} :: AtCap(cards, cap, c) ==> AtCap(cards + [item], cap, c)
  {
  }

  lemma PicksJoin(row: seq<Card>, fill: seq<Card>, candidates: seq<Card>, seen: set<string>, excluded: set<string>)
    requires Picks(row, candidates, seen, excluded) && Picks(fill, candidates, seen + Keys(row), excluded)
    ensures Picks(row + fill, candidates, seen, excluded)
    ensures Keys(row + fill) == Keys(row) + Keys(fill)
  {
    var whole := row + fill;
    forall i, j | 0 <= i < j < |whole| ensures Key(whole[i]) != Key(whole[j]) {
      if i < |row| && j >= |row| {
        assert Key(row[i]) in Keys(row) && IsOpen(fill[j - |row|], seen + Keys(row), excluded);
      }
    }
    forall k ensures k in Keys(whole) <==> k in Keys(row) + Keys(fill) {
      if k in Keys(row) {
        var i :| 0 <= i < |row| && Key(row[i]) == k;
        assert whole[i] == row[i];
      }
      if k in Keys(fill) {
        var i :| 0 <= i < |fill| && Key(fill[i]) == k;
        assert whole[|row| + i] == fill[i];
      }
    }
  }

  // ------------------------------------------------------------------ the code

  class Feed {
    var seen: set<string>
    const excluded: set<string>
    const rowSize: nat

    constructor (requested: int, excludeIds: seq<string>)
      ensures seen == {} && rowSize == (if 1 <= requested <= 24 then requested else 12)
      ensures forall id :: id in excluded <==> && id != ""
                                               && exists i :: 0 <= i < |excludeIds| && Trim(excludeIds[i]) == id
    {
      seen := {};
      rowSize := RowSize(requested);
      excluded := set i | 0 <= i < |excludeIds| && Trim(excludeIds[i]) != "" :: Trim(excludeIds[i]);
    }

    /** selectRow. */
    method SelectRow(candidates: seq<Card>, cap: nat) returns (row: seq<Card>, ghost fair: nat)
      requires rowSize >= 1
      modifies this
      ensures IsRow(row, fair, candidates, old(seen), excluded, rowSize, cap)
      ensures seen == old(seen) + Keys(row)
    {
      row := Fair(candidates, cap);
      fair := |row|;
      if |row| < rowSize && cap > 0 {
        ghost var first, after := row, seen;
        var fill := Fill(candidates, rowSize - |row|);
        PicksJoin(first, fill, candidates, old(seen), excluded);
        forall i | 0 <= i < |fill| ensures AtCap(first, cap, fill[i]) {
          var j :| 0 <= j < |candidates| && candidates[j] == fill[i];
          assert IsOpen(candidates[j], after, excluded);
        }
        row := row + fill;
        assert row[..fair] == first && row[fair..] == fill;
      } else {
        assert row[..fair] == row && row[fair..] == [];
        assert Embeds([], candidates, []);
      }
    }

    /** The first pass: at most `cap` cards per named owner. */
    method Fair(candidates: seq<Card>, cap: nat) returns (result: seq<Card>)
      requires rowSize >= 1
      modifies this
      ensures |result| <= rowSize && Picks(result, candidates, old(seen), excluded) && IsSubsequence(result, candidates)
      ensures WithinCap(result, cap) && seen == old(seen) + Keys(result)
      ensures |result| < rowSize ==> forall i :: 0 <= i < |candidates| && IsOpen(candidates[i], seen, excluded) ==>
                                                   AtCap(result, cap, candidates[i])
    {
      result := [];
      var ownerCounts: map<string, nat> := map[];
      ghost var at: seq<nat> := [];
      var i := 0;
      assert Keys([]) == {};
      while i < |candidates|
        invariant 0 <= i <= |candidates| && |result| < rowSize
        invariant Picks(result, candidates, old(seen), excluded)
        invariant Embeds(result, candidates, at) && forall k :: 0 <= k < |at| ==> at[k] < i
        invariant seen == old(seen) + Keys(result)
        invariant Counts(ownerCounts, result) && WithinCap(result, cap)
        invariant forall j :: 0 <= j < i && IsOpen(candidates[j], seen, excluded) ==> AtCap(result, cap, candidates[j])
      {
        var item := candidates[i];
        var owner := Trim(item.owner);
        var count := CountOf(ownerCounts, owner);
        if IsOpen(item, seen, excluded) && !(cap > 0 && owner != "" && count >= cap) {
          OneMorePick(result, item);
          CountOneMore(ownerCounts, result, item, cap);
          PickAt(result, candidates, old(seen), excluded, at, i);
          seen := seen + {Key(item)};
          if owner != "" {
            ownerCounts := ownerCounts[owner := count + 1];
          }
          at := at + [i];
          result := result + [item];
          if |result| == rowSize {
            return;
          }
        }
        i := i + 1;
      }
    }

    /** The second pass: whatever is still open, regardless of its owner. */
    method Fill(candidates: seq<Card>, room: nat) returns (result: seq<Card>)
      requires room >= 1
      modifies this
      ensures |result| <= room && Picks(result, candidates, old(seen), excluded) && IsSubsequence(result, candidates)
      ensures seen == old(seen) + Keys(result)
      ensures |result| < room ==> forall i :: 0 <= i < |candidates| ==> !IsOpen(candidates[i], seen, excluded)
    {
      result := [];
      ghost var at: seq<nat> := [];
      var i := 0;
      assert Keys([]) == {};
      while i < |candidates|
        invariant 0 <= i <= |candidates| && |result| < room
        invariant Picks(result, candidates, old(seen), excluded)
        invariant Embeds(result, candidates, at) && forall k :: 0 <= k < |at| ==> at[k] < i
        invariant seen == old(seen) + Keys(result)
        invariant forall j :: 0 <= j < i ==> !IsOpen(candidates[j], seen, excluded)
      {
        var item := candidates[i];
        if IsOpen(item, seen, excluded) {
          OneMorePick(result, item);
          PickAt(result, candidates, old(seen), excluded, at, i);
          seen := seen + {Key(item)};
          at := at + [i];
          result := result + [item];
          if |result| == room {
            return;
          }
        }
        i := i + 1;
      }
    }

    /** The three rows, in the order in which the page shows them. */
    method PublicHomeFeed(latest: seq<Card>, recommended: seq<Card>, featured: seq<Card>)
      returns (rows: seq<seq<Card>>, ghost fair: seq<nat>)
      requires seen == {} && rowSize >= 1
      modifies this
      ensures |rows| == 3 && |fair| == 3
      ensures IsRow(rows[0], fair[0], latest, {}, excluded, rowSize, OWNER_CAP)
      ensures IsRow(rows[1], fair[1], recommended, Keys(rows[0]), excluded, rowSize, OWNER_CAP)
      ensures IsRow(rows[2], fair[2], featured, Keys(rows[0]) + Keys(rows[1]), excluded, rowSize, 0)
    {
      var first, fair0 := SelectRow(latest, OWNER_CAP);
      assert seen == Keys(first);
      var second, fair1 := SelectRow(recommended, OWNER_CAP);
      assert seen == Keys(first) + Keys(second);
      var third, fair2 := SelectRow(featured, 0);
      rows, fair := [first, second, third], [fair0, fair1, fair2];
    }
  }

  /** No card is shown twice on the page, within a row or across rows, and no
    excluded id is shown. */
  lemma PageHasNoDuplicates(latest: seq<Card>, recommended: seq<Card>, featured: seq<Card>, excluded: set<string>,
                            size: nat, rows: seq<seq<Card>>, fair: seq<nat>)
    requires |rows| == 3 && |fair| == 3
    requires IsRow(rows[0], fair[0], latest, {}, excluded, size, OWNER_CAP)
    requires IsRow(rows[1], fair[1], recommended, Keys(rows[0]), excluded, size, OWNER_CAP)
    requires IsRow(rows[2], fair[2], featured, Keys(rows[0]) + Keys(rows[1]), excluded, size, 0)
    ensures forall a, i, b, j ::
              0 <= a < 3 && 0 <= b < 3 && 0 <= i < |rows[a]| && 0 <= j < |rows[b]| && (a != b || i != j) ==>
                rows[a][i].cardType != rows[b][j].cardType || rows[a][i].id != rows[b][j].id
    ensures forall a, i :: 0 <= a < 3 && 0 <= i < |rows[a]| ==> rows[a][i].id !in excluded
  {
  }
}
