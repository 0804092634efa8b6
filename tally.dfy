/** Python's `Counter(ballots).most_common(1)[0][0]`: the counter keeps its
    keys in first-occurrence order, and among the keys with the highest count
    the first one wins. */
module Tally {

  /** How many ballots name v. */
  function Count(ballots: seq<string>, v: string): nat {
    if ballots == [] then 0
    else Count(ballots[..|ballots| - 1], v) + (if ballots[|ballots| - 1] == v then 1 else 0)
  }

  /** A value that appears on no ballot has count 0. */
  lemma {:induction false} CountAbsent(ballots: seq<string>, v: string)
    requires v !in ballots
    ensures Count(ballots, v) == 0
  {
    if ballots != [] {
      assert forall x :: x in ballots[..|ballots| - 1] ==> x in ballots;
      CountAbsent(ballots[..|ballots| - 1], v);
    }
  }

  /** Where a value first appears among the ballots. */
  function FirstIndex(ballots: seq<string>, v: string): (i: nat)
    requires v in ballots
    ensures i < |ballots| && ballots[i] == v
    ensures forall j :: 0 <= j < i ==> ballots[j] != v
  {
    if ballots[0] == v then 0 else 1 + FirstIndex(ballots[1..], v)
  }

  /** One more ballot moves no first occurrence, and a new value first
      appears at the new ballot. */
  lemma FirstIndexAppend(init: seq<string>, x: string)
    ensures forall v :: v in init ==> FirstIndex(init + [x], v) == FirstIndex(init, v)
    ensures x !in init ==> FirstIndex(init + [x], x) == |init|
  {
    var ballots := init + [x];
    forall v | v in init
      ensures FirstIndex(ballots, v) == FirstIndex(init, v)
    {
      var i := FirstIndex(init, v);
      var k := FirstIndex(ballots, v);
      assert ballots[i] == v;
    }
  }

  /** The counter's keys: each ballot value once, in order of first occurrence. */
  function Keys(ballots: seq<string>): (keys: seq<string>)
    ensures forall v :: v in keys <==> v in ballots
    ensures forall i, j :: 0 <= i < j < |keys| ==> FirstIndex(ballots, keys[i]) < FirstIndex(ballots, keys[j])
  {
    if ballots == [] then []
    else
      var init := ballots[..|ballots| - 1];
      var last := ballots[|ballots| - 1];
      assert ballots == init + [last];
      assert forall v :: v in ballots <==> v in init || v == last;
      FirstIndexAppend(init, last);
      var ks := Keys(init);
      if last in ks then ks else ks + [last]
  }

  /** Where Python's `max(items, key=count)` stops: scanning left to right it
      keeps the first key whose count none of the others exceeds. */
  function FirstMaxIndex(keys: seq<string>, ballots: seq<string>): (j: nat)
    requires keys != []
    ensures j < |keys|
    ensures forall i :: 0 <= i < |keys| ==> Count(ballots, keys[i]) <= Count(ballots, keys[j])
    ensures forall i :: 0 <= i < j ==> Count(ballots, keys[i]) < Count(ballots, keys[j])
  {
    if |keys| == 1 then 0
    else
      var n := |keys|;
      var j := FirstMaxIndex(keys[..n - 1], ballots);
      if Count(ballots, keys[n - 1]) > Count(ballots, keys[j]) then n - 1 else j
  }

  /** `most_common(1)[0][0]`: a most frequent ballot value, the first counted
      among equally frequent ones. */
  function MostCommon(ballots: seq<string>): (w: string)
    requires ballots != []
    ensures w in ballots
    ensures forall v :: Count(ballots, v) <= Count(ballots, w)
    ensures forall v :: v in ballots && Count(ballots, v) == Count(ballots, w) ==> FirstIndex(ballots, w) <= FirstIndex(ballots, v)
  {
    var keys := Keys(ballots);
    var j := FirstMaxIndex(keys, ballots);
    var w := keys[j];
    forall v | true
      ensures Count(ballots, v) <= Count(ballots, w)
      ensures v in ballots && Count(ballots, v) == Count(ballots, w) ==> FirstIndex(ballots, w) <= FirstIndex(ballots, v)
    {
      if v in ballots {
        var i :| 0 <= i < |keys| && keys[i] == v;
        if i < j {
          assert Count(ballots, v) < Count(ballots, w);
        } else if j < i {
          assert FirstIndex(ballots, w) < FirstIndex(ballots, v);
        }
      } else {
        CountAbsent(ballots, v);
      }
    }
    w
  }

  /** Each of two ballots counts once for its own value. */
  lemma CountTwo(first: string, second: string, v: string)
    ensures Count([first, second], v) == (if first == v then 1 else 0) + (if second == v then 1 else 0)
  {
    assert [first, second][..1] == [first];
    assert [first][..0] == [];
    assert Count([first], v) == Count([], v) + (if first == v then 1 else 0);
    assert Count([first, second], v) == Count([first], v) + (if second == v then 1 else 0);
  }

  /** With two ballots the first always wins: unanimously when they agree,
      and by the first-counted tie-break when they differ. */
  lemma FirstOfTwoWins(first: string, second: string)
    ensures MostCommon([first, second]) == first
    ensures first != second ==> Count([first, second], first) == Count([first, second], second) == 1
  {
    var ballots := [first, second];
    assert ballots[..1] == [first];
    assert [first][..0] == [];
    assert Keys([first]) == [first];
    CountTwo(first, second, first);
    CountTwo(first, second, second);
    if first == second {
      assert Keys(ballots) == [first];
    } else {
      assert Keys(ballots) == [first, second];
    }
  }
}
