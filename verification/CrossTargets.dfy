/** Cross-examination targets (infra/pipeline/hwax-deliberate.js, crossTargets).

    Every seat is given a few other seats to question: first its highest scored
    ones, then a repair pass hands each seat nobody questions a place taken from a
    seat that is questioned more than once. Seats are numbered in the order of the
    keys of `texts`, so the index a seat has there is the seat itself. */
module CrossTargets {

  /** The score table: `score(a, b)` is how close the terms of a and b are. */
  type Scores = (nat, nat) -> real

  // ---------------------------------------------------------------- ranking

  /** x comes before y in the source's sort: larger key first, then smaller index. */
  predicate Before(key: nat -> real, x: nat, y: nat) {
    key(x) > key(y) || (key(x) == key(y) && x < y)
  }

  predicate Sorted(key: nat -> real, s: seq<nat>) {
    forall i, j :: 0 <= i < j < |s| ==> Before(key, s[i], s[j])
  }

  function Insert(key: nat -> real, x: nat, s: seq<nat>): (r: seq<nat>)
    requires Sorted(key, s) && x !in s
    ensures |r| == |s| + 1 && Sorted(key, r)
    ensures forall y :: y in r <==> y == x || y in s
  {
    if s == [] || Before(key, x, s[0]) then [x] + s
    else
      assert s == [s[0]] + s[1..];
      var rest := Insert(key, x, s[1..]);
      assert forall i :: 0 <= i < |rest| ==> rest[i] in rest;
      [s[0]] + rest
  }

  /** Every seat below n except `skip`, best first. */
  function Ranking(key: nat -> real, n: nat, skip: nat): (r: seq<nat>)
    ensures Sorted(key, r)
    ensures |r| == if skip < n then n - 1 else n
    ensures forall i :: 0 <= i < |r| ==> r[i] < n && r[i] != skip
    ensures forall x: nat :: x < n && x != skip ==> x in r
  {
    if n == 0 then []
    else
      var rest := Ranking(key, n - 1, skip);
      if n - 1 == skip then rest
      else
        var r := Insert(key, n - 1, rest);
        assert forall i :: 0 <= i < |r| ==> r[i] in r;
        r
  }

  function TargetKey(score: Scores, a: nat): nat -> real { (b: nat) => score(a, b) }

  function GiverKey(score: Scores, b: nat): nat -> real { (a: nat) => score(a, b) }

  // ---------------------------------------------------------------- counting

  /** How many lists name b. */
  function Targeting(lists: seq<seq<nat>>, b: nat): nat {
    if lists == [] then 0
    else Targeting(lists[..|lists| - 1], b) + (if b in lists[|lists| - 1] then 1 else 0)
  }

  ghost predicate Distinct(s: seq<nat>) {
    forall i, j :: 0 <= i < j < |s| ==> s[i] != s[j]
  }

  /** One seat's list: m different seats, none of them the seat itself. */
  ghost predicate ValidList(s: seq<nat>, a: nat, n: nat, m: nat) {
    |s| == m && Distinct(s) && forall i :: 0 <= i < |s| ==> s[i] < n && s[i] != a
  }

  ghost predicate ValidLists(lists: seq<seq<nat>>, n: nat, m: nat) {
    |lists| == n && forall a :: 0 <= a < n ==> ValidList(lists[a], a, n, m)
  }

  function ListSize(n: nat, k: int): nat
    requires n >= 2
  {
    var m := if k > 1 then k else 1;
    if m < n - 1 then m else n - 1
  }

  // ---------------------------------------------------------------- the assignment

  /** The greedy lists of the first `upto` seats. */
  function Greedy(score: Scores, n: nat, k: int, upto: nat): (r: seq<seq<nat>>)
    requires n >= 2 && upto <= n
    ensures |r| == upto
    ensures forall a :: 0 <= a < upto ==> r[a] == Ranking(TargetKey(score, a), n, a)[..ListSize(n, k)]
  {
    if upto == 0 then []
    else Greedy(score, n, k, upto - 1)
         + [Ranking(TargetKey(score, upto - 1), n, upto - 1)[..ListSize(n, k)]]
  }

  /** The last of the first `upto` places of `list` that names a seat somebody else names too; -1 if none. */
  function SpareSlot(lists: seq<seq<nat>>, list: seq<nat>, upto: nat): (slot: int)
    requires upto <= |list|
    ensures -1 <= slot < upto
    ensures slot >= 0 ==> Targeting(lists, list[slot]) > 1
    ensures forall i :: slot < i < upto ==> Targeting(lists, list[i]) <= 1
  {
    if upto == 0 then -1
    else if Targeting(lists, list[upto - 1]) > 1 then upto - 1
    else SpareSlot(lists, list, upto - 1)
  }

  /** A list has a place to spare. */
  predicate Spares(lists: seq<seq<nat>>, list: seq<nat>) { SpareSlot(lists, list, |list|) >= 0 }

  /** The position in `cands` of the first seat with a place to spare; |cands| if none. */
  function Giver(lists: seq<seq<nat>>, cands: seq<nat>): (g: nat)
    requires forall i :: 0 <= i < |cands| ==> cands[i] < |lists|
    ensures g <= |cands|
    ensures g < |cands| ==> Spares(lists, lists[cands[g]])
    ensures forall i :: 0 <= i < g ==> !Spares(lists, lists[cands[i]])
  {
    if cands == [] || Spares(lists, lists[cands[0]]) then 0
    else 1 + Giver(lists, cands[1..])
  }

  /** One turn of the repair loop: an unnamed seat takes over a spare place. The source's
      last resort, pushing onto a list, is shown never to run (ASpareSlotExists). */
  function RepairOne(score: Scores, lists: seq<seq<nat>>, b: nat): (r: seq<seq<nat>>)
    requires b < |lists|
    ensures |r| == |lists|
  {
    if Targeting(lists, b) > 0 then lists
    else
      var cands := Ranking(GiverKey(score, b), |lists|, b);
      var g := Giver(lists, cands);
      if g == |cands| then lists
      else
        var a := cands[g];
        var list: seq<nat> := lists[a][SpareSlot(lists, lists[a], |lists[a]|) := b];
        lists[a := list]
  }

  function RepairFrom(score: Scores, lists: seq<seq<nat>>, b: nat): seq<seq<nat>>
    requires b <= |lists|
    decreases |lists| - b
  {
    if b == |lists| then lists else RepairFrom(score, RepairOne(score, lists, b), b + 1)
  }

  function Assignment(score: Scores, n: nat, k: int): seq<seq<nat>> {
    if n < 2 then seq(n, _ => []) else RepairFrom(score, Greedy(score, n, k, n), 0)
  }

  // ---------------------------------------------------------------- lemmas on counting

  lemma {:induction false} TargetingUpdate(lists: seq<seq<nat>>, a: nat, list: seq<nat>, c: nat)
    requires a < |lists|
    ensures Targeting(lists[a := list], c)
         == Targeting(lists, c) - (if c in lists[a] then 1 else 0) + (if c in list then 1 else 0)
  {
    var n := |lists| - 1;
    if a == n {
      assert lists[a := list][..n] == lists[..n];
    } else {
      assert lists[a := list][..n] == lists[..n][a := list];
      TargetingUpdate(lists[..n], a, list, c);
    }
  }

  lemma {:induction false} TargetingPositive(lists: seq<seq<nat>>, c: nat)
    ensures Targeting(lists, c) > 0 <==> exists a :: 0 <= a < |lists| && c in lists[a]
  {
    if lists != [] {
      var n := |lists| - 1;
      TargetingPositive(lists[..n], c);
      if Targeting(lists[..n], c) > 0 {
        var a :| 0 <= a < n && c in lists[..n][a];
        assert c in lists[a];
      }
      if a :| 0 <= a < |lists| && c in lists[a] && a < n {
        assert c in lists[..n][a];
      }
    }
  }

  /** A seat named more than once is named by somebody other than x. */
  lemma {:induction false} NamedByAnother(lists: seq<seq<nat>>, c: nat, x: nat) returns (a: nat)
    requires Targeting(lists, c) > 1
    ensures a < |lists| && a != x && c in lists[a]
  {
    if x < |lists| {
      TargetingUpdate(lists, x, [], c);
      var others := lists[x := []];
      TargetingPositive(others, c);
      a :| 0 <= a < |lists| && c in others[a];
    } else {
      TargetingPositive(lists, c);
      a :| 0 <= a < |lists| && c in lists[a];
    }
  }

  function CountSum(lists: seq<seq<nat>>, n: nat): nat {
    if n == 0 then 0 else CountSum(lists, n - 1) + Targeting(lists, n - 1)
  }

  function InSum(list: seq<nat>, n: nat): nat {
    if n == 0 then 0 else InSum(list, n - 1) + (if n - 1 in list then 1 else 0)
  }

  lemma {:induction false} CountSumSplit(lists: seq<seq<nat>>, n: nat)
    requires lists != []
    ensures CountSum(lists, n) == CountSum(lists[..|lists| - 1], n) + InSum(lists[|lists| - 1], n)
  {
    if n > 0 {
      CountSumSplit(lists, n - 1);
    }
  }

  lemma {:induction false} InSumSnoc(list: seq<nat>, x: nat, n: nat)
    requires x !in list
    ensures InSum(list + [x], n) == InSum(list, n) + (if x < n then 1 else 0)
  {
    if n > 0 {
      InSumSnoc(list, x, n - 1);
    }
  }

  lemma {:induction false} InSumIsLength(list: seq<nat>, n: nat)
    requires Distinct(list) && forall i :: 0 <= i < |list| ==> list[i] < n
    ensures InSum(list, n) == |list|
  {
    if list == [] {
      InSumNil(n);
    } else {
      var m := |list| - 1;
      assert list == list[..m] + [list[m]];
      InSumIsLength(list[..m], n);
      InSumSnoc(list[..m], list[m], n);
    }
  }

  lemma {:induction false} InSumNil(n: nat)
    ensures InSum([], n) == 0
  {
    if n > 0 {
      InSumNil(n - 1);
    }
  }

  lemma {:induction false} CountSumNil(n: nat)
    ensures CountSum([], n) == 0
  {
    if n > 0 {
      CountSumNil(n - 1);
    }
  }

  /** Counting the places seat by seat or list by list gives the same total. */
  lemma {:induction false} CountSumIsPlaces(lists: seq<seq<nat>>, n: nat, m: nat)
    requires forall a :: 0 <= a < |lists| ==> ValidList(lists[a], a, n, m)
    ensures CountSum(lists, n) == |lists| * m
  {
    if lists == [] {
      CountSumNil(n);
    } else {
      CountSumSplit(lists, n);
      CountSumIsPlaces(lists[..|lists| - 1], n, m);
      InSumIsLength(lists[|lists| - 1], n);
    }
  }

  lemma {:induction false} CountSumBound(lists: seq<seq<nat>>, n: nat, b: nat)
    requires forall c :: 0 <= c < n ==> Targeting(lists, c) <= 1
    requires Targeting(lists, b) == 0
    ensures CountSum(lists, n) <= if b < n then n - 1 else n
  {
    if n > 0 {
      CountSumBound(lists, n - 1, b);
    }
  }

  /** n lists of m >= 1 places over fewer than n seats name some seat twice. */
  lemma SomebodyNamedTwice(lists: seq<seq<nat>>, n: nat, m: nat, b: nat) returns (c: nat)
    requires m >= 1 && b < n && ValidLists(lists, n, m) && Targeting(lists, b) == 0
    ensures c < n && Targeting(lists, c) > 1
  {
    if forall c: nat :: c < n ==> Targeting(lists, c) <= 1 {
      CountSumIsPlaces(lists, n, m);
      CountSumBound(lists, n, b);
      TimesAtLeast(n, m);
      assert false;
    }
    c :| c < n && Targeting(lists, c) > 1;
  }

  lemma TimesAtLeast(n: nat, m: nat)
    requires m >= 1
    ensures n * m >= n
  {
  }

  /** The pigeonhole step: while some seat is named by nobody, a seat other than it can
      give up a place, so the push branch is never reached. */
  lemma ASpareSlotExists(score: Scores, lists: seq<seq<nat>>, n: nat, m: nat, b: nat)
    requires n >= 2 && m >= 1 && b < n && ValidLists(lists, n, m)
    requires Targeting(lists, b) == 0
    ensures var cands := Ranking(GiverKey(score, b), n, b);
            Giver(lists, cands) < |cands|
  {
    var cands := Ranking(GiverKey(score, b), n, b);
    var c := SomebodyNamedTwice(lists, n, m, b);
    var a := NamedByAnother(lists, c, b);
    assert a in cands;
    var i :| 0 <= i < |lists[a]| && lists[a][i] == c;
    assert SpareSlot(lists, lists[a], |lists[a]|) >= 0;
  }

  // ---------------------------------------------------------------- the repair

  /** One slot given to a seat that the list does not name: its old seat loses one, the new one gains one. */
  lemma SlotChange(lists: seq<seq<nat>>, a: nat, list: seq<nat>, slot: nat, b: nat, n: nat, m: nat, c: nat)
    requires a < n && slot < m && ValidLists(lists, n, m) && b !in lists[a] && list == lists[a][slot := b]
    ensures Targeting(lists[a := list], c)
         == Targeting(lists, c) - (if c == lists[a][slot] then 1 else 0) + (if c == b then 1 else 0)
  {
    assert ValidList(lists[a], a, n, m);
    TargetingUpdate(lists, a, list, c);
    assert list[slot] == b;
    if c in list && c != b {
      var i :| 0 <= i < m && list[i] == c;
      assert i != slot && lists[a][i] == c;
    }
    if c in lists[a] && c != lists[a][slot] {
      var i :| 0 <= i < m && lists[a][i] == c;
      assert list[i] == c;
    }
  }

  /** What one turn changes: it names b once if b was unnamed, takes that place from a seat
      that stays named, and touches nothing else. */
  lemma RepairOneEffect(score: Scores, lists: seq<seq<nat>>, n: nat, m: nat, b: nat)
    requires n >= 2 && m >= 1 && b < n && ValidLists(lists, n, m)
    ensures ValidLists(RepairOne(score, lists, b), n, m)
    ensures Targeting(lists, b) > 0 ==> RepairOne(score, lists, b) == lists
    ensures Targeting(lists, b) == 0 ==> Targeting(RepairOne(score, lists, b), b) == 1
    ensures forall c: nat :: c != b && Targeting(lists, c) <= 1
              ==> Targeting(RepairOne(score, lists, b), c) == Targeting(lists, c)
    ensures forall c: nat :: Targeting(lists, c) > 0 ==> Targeting(RepairOne(score, lists, b), c) > 0
    ensures forall a, i :: 0 <= a < n && 0 <= i < m ==>
              RepairOne(score, lists, b)[a][i] == lists[a][i]
              || (RepairOne(score, lists, b)[a][i] == b && Targeting(lists, b) == 0
                  && Targeting(lists, lists[a][i]) > 1)
  {
    if Targeting(lists, b) == 0 {
      ASpareSlotExists(score, lists, n, m, b);
      var cands := Ranking(GiverKey(score, b), n, b);
      var a := cands[Giver(lists, cands)];
      var slot := SpareSlot(lists, lists[a], m);
      var list: seq<nat> := lists[a][slot := b];
      TargetingPositive(lists, b);
      assert b !in lists[a];
      assert ValidList(lists[a], a, n, m);
      assert ValidList(list, a, n, m);
      assert RepairOne(score, lists, b) == lists[a := list];
      forall c: nat {
        SlotChange(lists, a, list, slot, b, n, m, c);
      }
    }
  }

  lemma RepairOneIsValid(score: Scores, lists: seq<seq<nat>>, n: nat, m: nat, b: nat)
    requires n >= 2 && m >= 1 && b < n && ValidLists(lists, n, m)
    ensures ValidLists(RepairOne(score, lists, b), n, m)
  {
    RepairOneEffect(score, lists, n, m, b);
  }

  /** The repair pass from seat b on names every seat from b on and keeps the rest; a place
      changes only to a seat that was named by nobody, and such a seat is named exactly once. */
  lemma {:induction false} RepairFromEffect(score: Scores, lists: seq<seq<nat>>, n: nat, m: nat, b: nat)
    requires n >= 2 && m >= 1 && b <= n && ValidLists(lists, n, m)
    requires forall c :: 0 <= c < b ==> Targeting(lists, c) > 0
    ensures ValidLists(RepairFrom(score, lists, b), n, m)
    ensures forall c :: 0 <= c < n ==> Targeting(RepairFrom(score, lists, b), c) > 0
    ensures forall c :: 0 <= c < n && Targeting(lists, c) <= 1
              ==> Targeting(RepairFrom(score, lists, b), c) == 1
    ensures forall a, i :: 0 <= a < n && 0 <= i < m ==>
              RepairFrom(score, lists, b)[a][i] == lists[a][i]
              || Targeting(lists, RepairFrom(score, lists, b)[a][i]) == 0
    decreases n - b
  {
    if b < n {
      var next := RepairOne(score, lists, b);
      RepairOneEffect(score, lists, n, m, b);
      RepairFromEffect(score, next, n, m, b + 1);
      var last := RepairFrom(score, next, b + 1);
      forall a, i | 0 <= a < n && 0 <= i < m
        ensures last[a][i] == lists[a][i] || Targeting(lists, last[a][i]) == 0
      {
        assert ValidList(last[a], a, n, m) && ValidList(next[a], a, n, m);
      }
    }
  }

  lemma GreedyIsValid(score: Scores, n: nat, k: int)
    requires n >= 2
    ensures ValidLists(Greedy(score, n, k, n), n, ListSize(n, k))
  {
    var lists := Greedy(score, n, k, n);
    forall a | 0 <= a < n
      ensures ValidList(lists[a], a, n, ListSize(n, k))
    {
      var rank := Ranking(TargetKey(score, a), n, a);
      assert forall i :: 0 <= i < |lists[a]| ==> lists[a][i] == rank[i];
    }
  }

  /** The seat that a seat has chosen is closer to it than one that it left out, or as close and earlier; and it lists
      the closest first. */
  lemma GreedyIsClosest(score: Scores, n: nat, k: int, a: nat, i: nat, c: nat)
    requires n >= 2 && a < n && c < n && c != a && i < ListSize(n, k)
    requires var list := Greedy(score, n, k, n)[a]; c !in list[..i + 1]
    ensures var b := Greedy(score, n, k, n)[a][i];
            score(a, c) < score(a, b) || (score(a, c) == score(a, b) && b < c)
  {
    var rank, list := Ranking(TargetKey(score, a), n, a), Greedy(score, n, k, n)[a];
    assert c in rank;
    var j :| 0 <= j < |rank| && rank[j] == c;
    assert list[..i + 1] == rank[..i + 1];
    assert Before(TargetKey(score, a), rank[i], rank[j]);
  }

  lemma SparesIf(lists: seq<seq<nat>>, list: seq<nat>, i: nat)
    requires i < |list| && Targeting(lists, list[i]) > 1
    ensures Spares(lists, list)
  {
  }

  lemma GiverIsNoLater(lists: seq<seq<nat>>, cands: seq<nat>, j: nat)
    requires (forall i :: 0 <= i < |cands| ==> cands[i] < |lists|) && j < |cands| && Spares(lists, lists[cands[j]])
    ensures Giver(lists, cands) <= j
  {
  }

  lemma GiverIsFirst(score: Scores, lists: seq<seq<nat>>, b: nat, c: nat, i: nat)
    requires b < |lists| && c < |lists| && c != b && i < |lists[c]| && Targeting(lists, lists[c][i]) > 1
    ensures var cands := Ranking(GiverKey(score, b), |lists|, b);
            var g := Giver(lists, cands);
            g < |cands| && (c == cands[g] || Before(GiverKey(score, b), cands[g], c))
  {
    var cands := Ranking(GiverKey(score, b), |lists|, b);
    assert c in cands;
    var j :| 0 <= j < |cands| && cands[j] == c;
    SparesIf(lists, lists[c], i);
    GiverIsNoLater(lists, cands, j);
  }

  /** Who gives up a place, and which: of the seats that name one which others name too, the closest to the seat that
      nobody names; and of its places the last such. */
  lemma GiverIsClosest(score: Scores, lists: seq<seq<nat>>, n: nat, m: nat, b: nat) returns (a: nat, slot: nat)
    requires n >= 2 && m >= 1 && b < n && ValidLists(lists, n, m) && Targeting(lists, b) == 0
    ensures a < n && a != b && slot < m && |lists[a]| == m && Targeting(lists, lists[a][slot]) > 1
    ensures var list: seq<nat> := lists[a][slot := b]; RepairOne(score, lists, b) == lists[a := list]
    ensures forall i :: slot < i < m ==> Targeting(lists, lists[a][i]) <= 1
    ensures forall c, i :: 0 <= c < n && c != a && c != b && 0 <= i < |lists[c]|
                               && Targeting(lists, lists[c][i]) > 1 ==>
              score(c, b) < score(a, b) || (score(c, b) == score(a, b) && a < c)
  {
    ASpareSlotExists(score, lists, n, m, b);
    var cands := Ranking(GiverKey(score, b), n, b);
    a := cands[Giver(lists, cands)];
    assert ValidList(lists[a], a, n, m);
    slot := SpareSlot(lists, lists[a], m);
    forall c, i | 0 <= c < n && c != a && c != b && 0 <= i < |lists[c]| && Targeting(lists, lists[c][i]) > 1
      ensures score(c, b) < score(a, b) || (score(c, b) == score(a, b) && a < c)
    {
      GiverIsFirst(score, lists, b, c, i);
    }
  }

  ghost predicate IsNamed(lists: seq<seq<nat>>, b: nat) { exists a :: 0 <= a < |lists| && b in lists[a] }

  lemma AllAreNamed(lists: seq<seq<nat>>, n: nat)
    requires forall b :: 0 <= b < n ==> Targeting(lists, b) > 0
    ensures forall b :: 0 <= b < n ==> IsNamed(lists, b)
  {
    forall b: nat | b < n
      ensures IsNamed(lists, b)
    {
      TargetingPositive(lists, b);
    }
  }

  /** The promise of crossTargets, for any scores and any k: every seat questions exactly
      min(max(1, k), n - 1) different other seats and every seat is questioned. Beyond that
      the repair is as small as it can be: a list keeps its greedy choices except where it
      takes in a seat the greedy choice left out, and each such seat is questioned once. */
  lemma EverySeatIsQuestioned(score: Scores, n: nat, k: int)
    requires n >= 2
    ensures var out := Assignment(score, n, k);
            var greedy := Greedy(score, n, k, n);
            && ValidLists(out, n, ListSize(n, k))
            && (ListSize(n, k) == n - 1 || (ListSize(n, k) < n - 1 && ListSize(n, k) == if k < 1 then 1 else k))
            && (forall b :: 0 <= b < n ==> IsNamed(out, b))
            && (forall b :: 0 <= b < n && Targeting(greedy, b) == 0 ==> Targeting(out, b) == 1)
            && (forall a, i :: 0 <= a < n && 0 <= i < ListSize(n, k) ==>
                  out[a][i] == greedy[a][i] || Targeting(greedy, out[a][i]) == 0)
  {
    GreedyIsValid(score, n, k);
    RepairFromEffect(score, Greedy(score, n, k, n), n, ListSize(n, k), 0);
    AllAreNamed(Assignment(score, n, k), n);
  }

  // ---------------------------------------------------------------- the method

  /** `cnt` says for every seat how many lists name it. */
  ghost predicate Counts(cnt: seq<nat>, lists: seq<seq<nat>>) {
    forall c :: 0 <= c < |cnt| ==> cnt[c] == Targeting(lists, c)
  }

  lemma CountsAddEmpty(cnt: seq<nat>, lists: seq<seq<nat>>)
    requires Counts(cnt, lists)
    ensures Counts(cnt, lists + [[]])
  {
    assert (lists + [[]])[..|lists|] == lists;
  }

  lemma CountsSnoc(cnt: seq<nat>, lists: seq<seq<nat>>, list: seq<nat>, x: nat)
    requires Counts(cnt, lists + [list]) && x < |cnt| && x !in list
    ensures Counts(cnt[x := cnt[x] + 1], lists + [list + [x]])
  {
    assert (lists + [list])[..|lists|] == lists == (lists + [list + [x]])[..|lists|];
  }

  lemma CountsReplace(cnt: seq<nat>, lists: seq<seq<nat>>, a: nat, slot: nat, b: nat)
    requires Counts(cnt, lists) && a < |lists| && slot < |lists[a]| && b < |cnt|
    requires b !in lists[a] && Distinct(lists[a]) && lists[a][slot] < |cnt|
    requires cnt[b] == 0 && cnt[lists[a][slot]] > 0
    ensures var taken := lists[a][slot];
            var list: seq<nat> := lists[a][slot := b];
            var after: seq<nat> := cnt[taken := cnt[taken] - 1];
            Counts(after[b := 1], lists[a := list])
  {
    var taken := lists[a][slot];
    var list: seq<nat> := lists[a][slot := b];
    var after: seq<nat> := cnt[taken := cnt[taken] - 1];
    after := after[b := 1];
    forall c | 0 <= c < |cnt|
      ensures after[c] == Targeting(lists[a := list], c)
    {
      TargetingUpdate(lists, a, list, c);
      assert list[slot] == b;
      if c in list && c != b {
        var i :| 0 <= i < |list| && list[i] == c;
        assert i != slot && lists[a][i] == c;
      }
      if c in lists[a] && c != taken {
        var i :| 0 <= i < |list| && lists[a][i] == c;
        assert list[i] == c;
      }
    }
  }

  /** The inner loop of the greedy pass: every seat of a new list is counted. */
  method CountList(cnt: array<nat>, ghost lists: seq<seq<nat>>, list: seq<nat>)
    requires Counts(cnt[..], lists) && Distinct(list)
    requires forall i :: 0 <= i < |list| ==> list[i] < cnt.Length
    modifies cnt
    ensures Counts(cnt[..], lists + [list])
  {
    CountsAddEmpty(cnt[..], lists);
    for i := 0 to |list|
      invariant Counts(cnt[..], lists + [list[..i]])
    {
      CountsSnoc(cnt[..], lists, list[..i], list[i]);
      cnt[list[i]] := cnt[list[i]] + 1;
      assert list[..i] + [list[i]] == list[..i + 1];
    }
    assert list[..|list|] == list;
  }

  /** The first pass: every seat takes its highest scored others. */
  method GreedyPass(score: Scores, n: nat, k: int, out: array<seq<nat>>, cnt: array<nat>)
    requires n >= 2 && out.Length == cnt.Length == n
    requires forall b :: 0 <= b < n ==> cnt[b] == 0
    modifies out, cnt
    ensures out[..] == Greedy(score, n, k, n) && Counts(cnt[..], out[..])
  {
    for a := 0 to n
      invariant out[..a] == Greedy(score, n, k, a)
      invariant Counts(cnt[..], out[..a])
    {
      ghost var lists := out[..a];
      var ranking := Ranking(TargetKey(score, a), n, a);
      var list := ranking[..ListSize(n, k)];
      CountList(cnt, lists, list);
      out[a] := list;
      assert out[..a + 1] == lists + [list];
    }
    assert out[..n] == out[..];
  }

  /** The backward search through one list for a seat somebody else names too. */
  method LastSpare(out: array<seq<nat>>, cnt: array<nat>, ghost m: nat, a: nat) returns (slot: int)
    requires out.Length == cnt.Length && a < out.Length
    requires ValidLists(out[..], out.Length, m) && Counts(cnt[..], out[..])
    ensures slot == SpareSlot(out[..], out[a], |out[a]|)
  {
    slot := |out[a]| - 1;
    assert ValidList(out[..][a], a, out.Length, m);
    while slot >= 0 && cnt[out[a][slot]] <= 1
      invariant -1 <= slot < |out[a]|
      invariant SpareSlot(out[..], out[a], slot + 1) == SpareSlot(out[..], out[a], |out[a]|)
    {
      slot := slot - 1;
    }
  }

  lemma FirstIsGiver(lists: seq<seq<nat>>, cands: seq<nat>, g: nat)
    requires forall i :: 0 <= i < |cands| ==> cands[i] < |lists|
    requires g <= |cands| && (forall i :: 0 <= i < g ==> !Spares(lists, lists[cands[i]]))
    requires g < |cands| ==> Spares(lists, lists[cands[g]])
    ensures g == Giver(lists, cands)
  {
  }

  /** The search of the repair loop: the first candidate with a place to spare. */
  method FirstGiver(out: array<seq<nat>>, cnt: array<nat>, ghost m: nat, cands: seq<nat>)
    returns (g: nat, slot: int)
    requires out.Length == cnt.Length
    requires ValidLists(out[..], out.Length, m) && Counts(cnt[..], out[..])
    requires forall i :: 0 <= i < |cands| ==> cands[i] < out.Length
    ensures g == Giver(out[..], cands)
    ensures g < |cands| ==> slot == SpareSlot(out[..], out[cands[g]], |out[cands[g]]|)
  {
    g, slot := 0, -1;
    ghost var lists := out[..];
    while g < |cands|
      invariant g <= |cands|
      invariant forall i :: 0 <= i < g ==> !Spares(lists, lists[cands[i]])
    {
      slot := LastSpare(out, cnt, m, cands[g]);
      assert lists[cands[g]] == out[cands[g]];
      if slot >= 0 {
        FirstIsGiver(lists, cands, g);
        return;
      }
      g := g + 1;
    }
    FirstIsGiver(lists, cands, g);
  }

  /** Seat b takes over place `slot` of seat a's list. */
  method Place(out: array<seq<nat>>, cnt: array<nat>, ghost m: nat, a: nat, slot: nat, b: nat)
    requires out.Length == cnt.Length && a < out.Length && b < out.Length && slot < |out[a]|
    requires ValidLists(out[..], out.Length, m) && Counts(cnt[..], out[..])
    requires cnt[b] == 0 && cnt[out[a][slot]] > 1
    modifies out, cnt
    ensures out[..] == old(out[..])[a := old(out[a])[slot := b]] && Counts(cnt[..], out[..])
  {
    assert ValidList(out[..][a], a, out.Length, m);
    TargetingPositive(out[..], b);
    CountsReplace(cnt[..], out[..], a, slot, b);
    cnt[out[a][slot]] := cnt[out[a][slot]] - 1;
    out[a] := out[a][slot := b];
    cnt[b] := cnt[b] + 1;
  }

  /** One turn of the repair loop: a seat nobody questions takes over a place. The source
      pushes onto a list when no candidate has a spare place; that branch never runs. */
  method RepairSeat(score: Scores, out: array<seq<nat>>, cnt: array<nat>, ghost m: nat, b: nat)
    requires out.Length >= 2 && m >= 1 && out.Length == cnt.Length && b < out.Length
    requires ValidLists(out[..], out.Length, m) && Counts(cnt[..], out[..])
    modifies out, cnt
    ensures out[..] == RepairOne(score, old(out[..]), b) && Counts(cnt[..], out[..])
  {
    if cnt[b] > 0 {
      return;
    }
    ghost var lists := out[..];
    var cands := Ranking(GiverKey(score, b), out.Length, b);
    var g, slot := FirstGiver(out, cnt, m, cands);
    ASpareSlotExists(score, lists, out.Length, m, b);
    if g == |cands| {
      assert false;
    }
    assert out[..][cands[g]] == out[cands[g]];
    Place(out, cnt, m, cands[g], slot, b);
  }

  /** The repair pass over all seats. */
  method RepairPass(score: Scores, out: array<seq<nat>>, cnt: array<nat>, ghost m: nat)
    requires out.Length >= 2 && m >= 1 && out.Length == cnt.Length
    requires ValidLists(out[..], out.Length, m) && Counts(cnt[..], out[..])
    modifies out, cnt
    ensures out[..] == RepairFrom(score, old(out[..]), 0)
  {
    for b := 0 to out.Length
      invariant ValidLists(out[..], out.Length, m) && Counts(cnt[..], out[..])
      invariant RepairFrom(score, out[..], b) == RepairFrom(score, old(out[..]), 0)
    {
      RepairOneIsValid(score, out[..], out.Length, m, b);
      RepairSeat(score, out, cnt, m, b);
    }
  }

  /** crossTargets: `out` and `cnt` are updated in place, as in the source. */
  method AssignTargets(score: Scores, n: nat, k: int) returns (r: seq<seq<nat>>)
    ensures r == Assignment(score, n, k)
  {
    if n < 2 {
      return seq(n, _ => []);
    }
    var out := new seq<nat>[n](_ => []);
    var cnt := new nat[n](_ => 0);
    GreedyPass(score, n, k, out, cnt);
    GreedyIsValid(score, n, k);
    RepairPass(score, out, cnt, ListSize(n, k));
    r := out[..];
  }
}
