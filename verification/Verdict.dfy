/** The winner of a court round: the revealed item with strictly the most weight. */
module Verdict {
  import opened Collections
  import opened CourtTypes

  /** Total weight revealed for an item. */
  function Score(draws: seq<Draw>, item: VoteItem): nat {
    if |draws| == 0 then 0 else
      var d := draws[|draws| - 1];
      Score(draws[..|draws| - 1], item) + if d.vote.Revealed? && d.vote.item == item then d.weight else 0
  }

  function RevealedItems(draws: seq<Draw>): set<VoteItem> {
    set d | d in draws && d.vote.Revealed? :: d.vote.item
  }

  predicate Leads(draws: seq<Draw>, x: VoteItem) {
    && x in RevealedItems(draws)
    && forall y :: y in RevealedItems(draws) && y != x ==> Score(draws, y) < Score(draws, x)
  }

  /** The item that leads on its own; the last winner on a tie; nothing if nothing was revealed. */
  function GetWinner(draws: seq<Draw>, lastWinner: Option<VoteItem>): (r: Option<VoteItem>)
    ensures forall x :: Leads(draws, x) ==> r == Some(x)
    ensures RevealedItems(draws) != {} && (forall x :: x in RevealedItems(draws) ==> !Leads(draws, x)) ==>
              r == lastWinner
    ensures RevealedItems(draws) == {} ==> r == None
  {
    if RevealedItems(draws) == {} then None
    else if exists x :: x in RevealedItems(draws) && Leads(draws, x) then
      var x :| x in RevealedItems(draws) && Leads(draws, x);
      Some(x)
    else lastWinner
  }

  method TallyScores(draws: seq<Draw>) returns (scores: map<VoteItem, nat>)
    ensures scores.Keys == RevealedItems(draws)
    ensures forall x :: x in scores ==> scores[x] == Score(draws, x)
  {
    scores := map[];
    for i := 0 to |draws|
      invariant scores.Keys == RevealedItems(draws[..i])
      invariant forall x :: x in scores ==> scores[x] == Score(draws[..i], x)
    {
      var draw := draws[i];
      assert draws[..i + 1] == draws[..i] + [draw];
      assert draws[..i + 1][..i] == draws[..i];
      if draw.vote.Revealed? {
        UnrevealedScoresNothing(draws[..i], draw.vote.item);
        if draw.vote.item in scores {
          scores := scores[draw.vote.item := scores[draw.vote.item] + draw.weight];
        } else {
          scores := scores[draw.vote.item := draw.weight];
        }
      }
    }
    assert draws[..|draws|] == draws;
  }

  lemma {:induction false} UnrevealedScoresNothing(draws: seq<Draw>, item: VoteItem)
    ensures item !in RevealedItems(draws) ==> Score(draws, item) == 0
  {
    if |draws| > 0 {
      var rest := draws[..|draws| - 1];
      UnrevealedScoresNothing(rest, item);
      assert draws[|draws| - 1] in draws;
      assert forall d :: d in rest ==> d in draws;
    }
  }

  /** The best and the second best of what has been scanned. */
  ghost predicate BestTwo(scores: map<VoteItem, nat>, seen: set<VoteItem>, best: VoteItem, second: VoteItem) {
    && seen <= scores.Keys
    && best in seen && second in seen && best != second
    && (forall x :: x in seen ==> scores[x] <= scores[best])
    && (forall x :: x in seen && x != best ==> scores[x] <= scores[second])
  }

  /** After the whole scan: equal scores mean nobody leads, different ones that the best leads. */
  lemma BestTwoDecide(draws: seq<Draw>, scores: map<VoteItem, nat>, best: VoteItem, second: VoteItem)
    requires scores.Keys == RevealedItems(draws)
    requires forall x :: x in scores ==> scores[x] == Score(draws, x)
    requires BestTwo(scores, scores.Keys, best, second)
    ensures scores[best] == scores[second] ==> forall x :: x in RevealedItems(draws) ==> !Leads(draws, x)
    ensures scores[best] != scores[second] ==> Leads(draws, best)
  {
    if scores[best] == scores[second] {
      forall x | x in RevealedItems(draws) ensures !Leads(draws, x) {
        var rival := if x == best then second else best;
        assert rival in RevealedItems(draws) && rival != x && Score(draws, x) <= Score(draws, rival);
      }
    }
  }

  /** One more score: it becomes the best, the second best, or neither. */
  method Insert(scores: map<VoteItem, nat>, ghost seen: set<VoteItem>, el: VoteItem, best: VoteItem, second: VoteItem)
    returns (best': VoteItem, second': VoteItem)
    requires BestTwo(scores, seen, best, second)
    requires el in scores && el !in seen
    ensures BestTwo(scores, seen + {el}, best', second')
  {
    best', second' := best, second;
    if scores[el] > scores[best] {
      second' := best;
      best' := el;
    } else if scores[el] > scores[second] {
      second' := el;
    }
  }

  method FirstTwo(scores: map<VoteItem, nat>, first: VoteItem) returns (best: VoteItem, second: VoteItem)
    requires first in scores && scores.Keys != {first}
    ensures BestTwo(scores, {best, second}, best, second)
  {
    var rest := scores.Keys - {first};
    assert scores.Keys == rest + {first};
    best := first;
    second :| second in rest;
    if scores[second] > scores[best] {
      best, second := second, best;
    }
  }

  /** The best/second-best scan, in whatever order the scores are visited. */
  method ScanScores(scores: map<VoteItem, nat>, first: VoteItem) returns (best: VoteItem, second: VoteItem)
    requires first in scores && scores.Keys != {first}
    ensures BestTwo(scores, scores.Keys, best, second)
  {
    best, second := FirstTwo(scores, first);
    var rest := scores.Keys - {best, second};
    ghost var seen := {best, second};
    while rest != {}
      invariant rest == scores.Keys - seen
      invariant BestTwo(scores, seen, best, second)
      decreases rest
    {
      var el :| el in rest;
      best, second := Insert(scores, seen, el, best, second);
      rest, seen := rest - {el}, seen + {el};
    }
    assert seen == scores.Keys;
  }

  method ComputeWinner(draws: seq<Draw>, lastWinner: Option<VoteItem>) returns (r: Option<VoteItem>)
    ensures r == GetWinner(draws, lastWinner)
  {
    var scores := TallyScores(draws);
    if scores.Keys == {} {
      return None;
    }
    var first :| first in scores;
    if scores.Keys == {first} {
      assert Leads(draws, first);
      return Some(first);
    }
    var best, second := ScanScores(scores, first);
    BestTwoDecide(draws, scores, best, second);
    if scores[best] == scores[second] {
      return lastWinner;
    }
    r := Some(best);
  }

  // ---------- the verdict does not depend on the order of the draws ----------

  lemma {:induction false} ScoreConcat(a: seq<Draw>, b: seq<Draw>, item: VoteItem)
    ensures Score(a + b, item) == Score(a, item) + Score(b, item)
    decreases |b|
  {
    if |b| == 0 {
      assert a + b == a;
    } else {
      ScoreConcat(a, b[..|b| - 1], item);
      assert (a + b)[..|a + b| - 1] == a + b[..|b| - 1];
    }
  }

  lemma {:induction false} ScoreOfPermutation(a: seq<Draw>, b: seq<Draw>, item: VoteItem)
    requires multiset(a) == multiset(b)
    ensures Score(a, item) == Score(b, item)
    decreases |a|
  {
    assert |a| == |multiset(a)| == |b|;
    if |a| > 0 {
      var x, a' := a[|a| - 1], a[..|a| - 1];
      assert a == a' + [x];
      assert x in multiset(a);
      var j :| 0 <= j < |b| && b[j] == x;
      var b1, b2 := b[..j], b[j + 1..];
      assert b == b1 + ([x] + b2);
      assert multiset(a) == multiset(a') + multiset{x};
      assert multiset(b) == multiset(b1 + b2) + multiset{x};
      MultisetCancel(multiset(a'), multiset(b1 + b2), x);
      ScoreOfPermutation(a', b1 + b2, item);
      ScoreConcat(b1, b2, item);
      ScoreConcat(b1, [x] + b2, item);
      ScoreConcat([x], b2, item);
      ScoreConcat(a', [x], item);
    }
  }

  /** The winner is determined by the multiset of draws. */
  lemma WinnerIgnoresOrder(a: seq<Draw>, b: seq<Draw>, lastWinner: Option<VoteItem>)
    requires multiset(a) == multiset(b)
    ensures GetWinner(a, lastWinner) == GetWinner(b, lastWinner)
  {
    assert forall d :: d in a <==> d in multiset(a);
    assert forall d :: d in b <==> d in multiset(b);
    assert RevealedItems(a) == RevealedItems(b);
    forall x ensures Score(a, x) == Score(b, x) {
      ScoreOfPermutation(a, b, x);
    }
    assert forall x :: Leads(a, x) <==> Leads(b, x);
  }
}
