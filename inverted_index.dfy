/** Rebuilding an OpenAlex abstract from its inverted index (word -> positions).
    The index is kept in the provider's key order, since a later word overwrites
    an earlier one that lists the same position. Positions follow Python's list
    indexing: a negative position counts from the end of the word list. */
module InvertedIndex {
  import opened Records

  /** One key of `abstract_inverted_index` with its position list. */
  datatype Entry = Entry(word: string, positions: seq<int>)

  /** Python's `max` of a non-empty list. */
  function MaxOf(s: seq<int>): (m: int)
    requires s != []
    ensures m in s
    ensures forall x :: x in s ==> x <= m
  {
    if |s| == 1 then s[0]
    else
      var rest := MaxOf(s[1..]);
      assert forall x :: x in s ==> x == s[0] || x in s[1..];
      if s[0] >= rest then s[0] else rest
  }

  /** Every word lists at least one position, so `max(positions)` does not raise. */
  predicate PositionsNonEmpty(index: seq<Entry>) {
    forall e :: e in index ==> e.positions != []
  }

  /** `max(max(positions) for positions in inv_index.values())`. */
  function MaxPosition(index: seq<Entry>): (m: int)
    requires index != [] && PositionsNonEmpty(index)
    ensures forall e, p :: e in index && p in e.positions ==> p <= m
    ensures exists e :: e in index && m in e.positions
  {
    var last := index[|index| - 1];
    var top := MaxOf(last.positions);
    if |index| == 1 then top
    else
      var init := index[..|index| - 1];
      assert forall e :: e in index ==> e in init || e == last;
      var rest := MaxPosition(init);
      if rest >= top then rest else top
  }

  /** The length of `[''] * (max + 1)`: Python gives an empty list for a negative count. */
  function WordCount(index: seq<Entry>): nat
    requires index != [] && PositionsNonEmpty(index)
  {
    if MaxPosition(index) + 1 > 0 then MaxPosition(index) + 1 else 0
  }

  /** Python accepts index p into a list of length n when -n <= p < n. */
  predicate ValidSlot(p: int, n: nat) {
    -(n as int) <= p < n
  }

  /** The element a valid Python index p designates in a list of length n. */
  function Slot(p: int, n: nat): (i: nat)
    requires ValidSlot(p, n)
    ensures i < n
  {
    if p < 0 then p + n else p
  }

  /** Some position of the list designates element i. */
  predicate Writes(positions: seq<int>, n: nat, i: int) {
    exists p :: p in positions && ValidSlot(p, n) && Slot(p, n) == i
  }

  /** The index can be rebuilt without an exception: it is non-empty (a falsy
      index is never rebuilt), no position list is empty (else `max` raises
      ValueError) and every position is a valid index into the word list (else
      the assignment raises IndexError). */
  predicate WellFormed(index: seq<Entry>) {
    && index != []
    && PositionsNonEmpty(index)
    && forall e, p :: e in index && p in e.positions ==> ValidSlot(p, WordCount(index))
  }

  /** The word left at element i after every entry has written its positions in
      order: the last entry that writes i, or '' when none does. */
  function WordAt(index: seq<Entry>, n: nat, i: int): string {
    if index == [] then ""
    else
      var last := index[|index| - 1];
      if Writes(last.positions, n, i) then last.word else WordAt(index[..|index| - 1], n, i)
  }

  /** The word list after the fill: one element per position 0 .. max. */
  function Words(index: seq<Entry>): (ws: seq<string>)
    requires index != [] && PositionsNonEmpty(index)
    ensures |ws| == WordCount(index)
  {
    var n := WordCount(index);
    seq(n, i => WordAt(index, n, i))
  }

  /** `' '.join(words)`. */
  function JoinSpaces(ws: seq<string>): (s: string)
    ensures ws != [] ==> ws[0] <= s
    ensures |ws| > 1 ==> ws[0] + " " <= s
  {
    if ws == [] then ""
    else if |ws| == 1 then ws[0]
    else ws[0] + " " + JoinSpaces(ws[1..])
  }

  /** `s.split(' ')`: the pieces between single spaces (always at least one). */
  function SplitSpaces(s: string): (parts: seq<string>)
    ensures parts != []
  {
    if s == [] then [""]
    else
      var rest := SplitSpaces(s[1..]);
      if s[0] == ' ' then [""] + rest
      else [[s[0]] + rest[0]] + rest[1..]
  }

  /** The abstract text, or None when rebuilding it raises. */
  function Rebuild(index: seq<Entry>): (r: Option<string>)
    ensures r.Some? <==> WellFormed(index)
    ensures r.Some? ==> r.value == JoinSpaces(Words(index))
  {
    if WellFormed(index) then Some(JoinSpaces(Words(index))) else None
  }

  /** Writes one word at each of its positions, in order, as the inner loop of
      the source does; reports false at the first position that is not a valid
      index into the word list, where the source raises IndexError. */
  method WriteWord(words: array<string>, e: Entry) returns (ok: bool)
    modifies words
    ensures ok <==> forall p :: p in e.positions ==> ValidSlot(p, words.Length)
    ensures ok ==> forall i :: 0 <= i < words.Length ==>
      words[i] == if Writes(e.positions, words.Length, i) then e.word else old(words[i])
  {
    var n := words.Length;
    for k := 0 to |e.positions|
      invariant forall p :: p in e.positions[..k] ==> ValidSlot(p, n)
      invariant forall i :: 0 <= i < n ==>
        words[i] == if Writes(e.positions[..k], n, i) then e.word else old(words[i])
    {
      var p := e.positions[k];
      if !ValidSlot(p, n) {
        return false;
      }
      words[Slot(p, n)] := e.word;
      assert e.positions[..k + 1] == e.positions[..k] + [p];
    }
    assert e.positions[..|e.positions|] == e.positions;
    return true;
  }

  /** Rebuilds the abstract as the source does: allocate the word list, write
      every word at each of its positions in place, join with single spaces. */
  method RebuildAbstract(index: seq<Entry>) returns (r: Option<string>)
    ensures r == Rebuild(index)
  {
    if index == [] || exists e :: e in index && e.positions == [] {
      return None;
    }
    var n := WordCount(index);
    var words := new string[n](_ => "");
    for j := 0 to |index|
      invariant forall e, p :: e in index[..j] && p in e.positions ==> ValidSlot(p, n)
      invariant forall i :: 0 <= i < n ==> words[i] == WordAt(index[..j], n, i)
    {
      var e := index[j];
      var ok := WriteWord(words, e);
      if !ok {
        assert e in index;
        return None;
      }
      assert index[..j + 1][..j] == index[..j];
      assert forall x :: x in index[..j + 1] ==> x in index[..j] || x == e;
    }
    assert index[..|index|] == index;
    assert words[..] == Words(index);
    r := Some(JoinSpaces(words[..]));
  }

  /** A word without spaces splits to itself. */
  lemma {:induction false} SplitWord(w: string)
    requires ' ' !in w
    ensures SplitSpaces(w) == [w]
  {
    if w != [] {
      assert forall c :: c in w[1..] ==> c in w;
      SplitWord(w[1..]);
      assert w == [w[0]] + w[1..];
    }
  }

  /** Splitting `w + " " + t` cuts off exactly the space-free word w. */
  lemma {:induction false} SplitAfterWord(w: string, t: string)
    requires ' ' !in w
    ensures SplitSpaces(w + " " + t) == [w] + SplitSpaces(t)
  {
    if w == [] {
      assert w + " " + t == [' '] + t;
    } else {
      assert (w + " " + t)[1..] == w[1..] + " " + t;
      SplitAfterWord(w[1..], t);
      assert [w[0]] + w[1..] == w;
    }
  }

  /** Joining space-free words with single spaces and splitting on spaces gives
      the words back: the joined abstract keeps every word and its place. */
  lemma {:induction false} SplitJoin(ws: seq<string>)
    requires ws != []
    requires forall w :: w in ws ==> ' ' !in w
    ensures SplitSpaces(JoinSpaces(ws)) == ws
  {
    if |ws| == 1 {
      SplitWord(ws[0]);
    } else {
      SplitAfterWord(ws[0], JoinSpaces(ws[1..]));
      SplitJoin(ws[1..]);
    }
  }

  /** The word at a written element is the word of the last entry that writes it. */
  lemma {:induction false} WordAtWritten(index: seq<Entry>, n: nat, i: int, j: int)
    requires 0 <= j < |index|
    requires Writes(index[j].positions, n, i)
    requires forall k :: j < k < |index| ==> !Writes(index[k].positions, n, i)
    ensures WordAt(index, n, i) == index[j].word
  {
    if j < |index| - 1 {
      var init := index[..|index| - 1];
      WordAtWritten(init, n, i, j);
    }
  }

  /** An element no entry writes stays ''. */
  lemma {:induction false} WordAtUnwritten(index: seq<Entry>, n: nat, i: int)
    requires forall e :: e in index ==> !Writes(e.positions, n, i)
    ensures WordAt(index, n, i) == ""
  {
    if index != [] {
      var init := index[..|index| - 1];
      assert forall e :: e in init ==> e in index;
      WordAtUnwritten(init, n, i);
    }
  }

  /** Every element of the word list is '' or one of the index's words. */
  lemma {:induction false} WordAtFromIndex(index: seq<Entry>, n: nat, i: int)
    ensures WordAt(index, n, i) == "" || exists e :: e in index && e.word == WordAt(index, n, i)
  {
    if index != [] && !Writes(index[|index| - 1].positions, n, i) {
      var init := index[..|index| - 1];
      WordAtFromIndex(init, n, i);
      assert forall e :: e in init ==> e in index;
    }
  }

  /** A rebuilt abstract holds max+1 words (at least one), and when no word
      contains a space, splitting it on spaces recovers exactly the word list. */
  lemma RebuiltAbstractWords(index: seq<Entry>)
    requires WellFormed(index)
    requires forall e :: e in index ==> ' ' !in e.word
    ensures WordCount(index) == MaxPosition(index) + 1 >= 1
    ensures SplitSpaces(Rebuild(index).value) == Words(index)
  {
    var m := MaxPosition(index);
    var e :| e in index && m in e.positions;
    assert ValidSlot(m, WordCount(index));
    var ws := Words(index);
    forall w | w in ws
      ensures ' ' !in w
    {
      var i :| 0 <= i < |ws| && ws[i] == w;
      WordAtFromIndex(index, WordCount(index), i);
    }
    SplitJoin(ws);
  }

  /** The example index {"a": [0, 2], "b": [1]} is well formed with three slots. */
  lemma ExampleWellFormed()
    ensures WellFormed([Entry("a", [0, 2]), Entry("b", [1])])
    ensures WordCount([Entry("a", [0, 2]), Entry("b", [1])]) == 3
  {
    var index := [Entry("a", [0, 2]), Entry("b", [1])];
    assert MaxOf([0, 2]) == 2;
    assert index[..1] == [Entry("a", [0, 2])];
    assert MaxPosition(index) == 2;
  }

  /** The example index fills the word list with a, b, a. */
  lemma ExampleWords()
    ensures WellFormed([Entry("a", [0, 2]), Entry("b", [1])])
    ensures Words([Entry("a", [0, 2]), Entry("b", [1])]) == ["a", "b", "a"]
  {
    var index := [Entry("a", [0, 2]), Entry("b", [1])];
    ExampleWellFormed();
    assert index[..1] == [Entry("a", [0, 2])];
    assert 0 in [0, 2] && Slot(0, 3) == 0;
    assert 2 in [0, 2] && Slot(2, 3) == 2;
    assert 1 in [1] && Slot(1, 3) == 1;
    assert !Writes([1], 3, 0) && !Writes([1], 3, 2);
    assert WordAt(index, 3, 0) == "a" && WordAt(index, 3, 1) == "b" && WordAt(index, 3, 2) == "a";
  }

  /** The inverted index {"a": [0, 2], "b": [1]} rebuilds to "a b a". */
  lemma RebuildExample()
    ensures Rebuild([Entry("a", [0, 2]), Entry("b", [1])]) == Some("a b a")
  {
    ExampleWords();
    assert JoinSpaces(["a", "b", "a"]) == "a" + " " + ("b" + " " + "a") == "a b a";
  }
}
