/** Sequences of buffers seen as one flat sequence of bytes. */
module BufferSequences {

  function Flat<T>(buffers: seq<seq<T>>): seq<T> {
    if buffers == [] then [] else Flat(buffers[..|buffers| - 1]) + buffers[|buffers| - 1]
  }

  /** Bytes in the first i buffers. */
  function Offset<T>(buffers: seq<seq<T>>, i: nat): nat
    requires i <= |buffers|
  {
    if i == 0 then 0 else Offset(buffers, i - 1) + |buffers[i - 1]|
  }

  lemma {:induction false} OffsetMonotone<T>(buffers: seq<seq<T>>, i: nat, j: nat)
    requires i <= j <= |buffers|
    ensures Offset(buffers, i) <= Offset(buffers, j)
    decreases j - i
  {
    if i < j {
      OffsetMonotone(buffers, i, j - 1);
    }
  }

  lemma {:induction false} FlatPrefix<T>(buffers: seq<seq<T>>, i: nat)
    requires i <= |buffers|
    ensures |Flat(buffers[..i])| == Offset(buffers, i)
    ensures Flat(buffers[..i]) <= Flat(buffers)
    decreases |buffers|, i
  {
    if i == |buffers| {
      assert buffers[..i] == buffers;
      if i > 0 {
        FlatPrefix(buffers[..i - 1], i - 1);
        assert buffers[..i - 1][..i - 1] == buffers[..i - 1];
        OffsetFront(buffers[..i - 1], buffers, i - 1);
      }
    } else {
      var front := buffers[..|buffers| - 1];
      FlatPrefix(front, i);
      assert front[..i] == buffers[..i];
      OffsetFront(front, buffers, i);
    }
  }

  lemma {:induction false} OffsetFront<T>(front: seq<seq<T>>, buffers: seq<seq<T>>, i: nat)
    requires i <= |front| && front <= buffers
    ensures Offset(front, i) == Offset(buffers, i)
  {
    if i > 0 {
      OffsetFront(front, buffers, i - 1);
    }
  }

  /** Byte p of buffer i is byte Offset(i) + p of the flat sequence. */
  lemma FlatAt<T>(buffers: seq<seq<T>>, i: nat, p: nat)
    requires i < |buffers| && p < |buffers[i]|
    ensures Offset(buffers, i) + p < |Flat(buffers)| && Flat(buffers)[Offset(buffers, i) + p] == buffers[i][p]
  {
    FlatPrefix(buffers, i);
    FlatPrefix(buffers, i + 1);
    assert buffers[..i + 1][..i] == buffers[..i];
    assert Flat(buffers[..i + 1]) == Flat(buffers[..i]) + buffers[i];
  }

  lemma FlatLength<T>(buffers: seq<seq<T>>)
    ensures |Flat(buffers)| == Offset(buffers, |buffers|)
  {
    FlatPrefix(buffers, |buffers|);
    assert buffers[..|buffers|] == buffers;
  }

  /** The place of a position: the buffer that holds it and the index in that buffer;
      the end of the sequence has no buffer. */
  datatype Place = Place(buffer: nat, index: nat)

  predicate IsPlace<T>(buffers: seq<seq<T>>, place: Place) {
    if place.buffer < |buffers| then place.index < |buffers[place.buffer]|
    else place == Place(|buffers|, 0)
  }

  function PositionOf<T>(buffers: seq<seq<T>>, place: Place): nat
    requires IsPlace(buffers, place)
  {
    Offset(buffers, place.buffer) + place.index
  }

  /** A position in the flat sequence has one place only. */
  lemma PlacesAgree<T>(buffers: seq<seq<T>>, a: Place, b: Place)
    requires IsPlace(buffers, a) && IsPlace(buffers, b)
    ensures PositionOf(buffers, a) == PositionOf(buffers, b) <==> a == b
    ensures PositionOf(buffers, a) <= |Flat(buffers)|
    ensures PositionOf(buffers, a) == |Flat(buffers)| <==> a.buffer == |buffers|
  {
    FlatLength(buffers);
    OffsetMonotone(buffers, a.buffer, |buffers|);
    if a.buffer < |buffers| {
      OffsetMonotone(buffers, a.buffer + 1, |buffers|);
    }
    if a.buffer < b.buffer {
      OffsetMonotone(buffers, a.buffer + 1, b.buffer);
    } else if b.buffer < a.buffer {
      OffsetMonotone(buffers, b.buffer + 1, a.buffer);
    }
  }

  /** The place of a position counted from the start of buffer i. */
  function PlaceFrom<T>(buffers: seq<seq<T>>, i: nat, rest: nat): (r: Place)
    requires i <= |buffers| && Offset(buffers, i) + rest <= Offset(buffers, |buffers|)
    ensures IsPlace(buffers, r) && PositionOf(buffers, r) == Offset(buffers, i) + rest
    decreases |buffers| - i
  {
    if i == |buffers| then Place(i, 0)
    else if rest < |buffers[i]| then Place(i, rest)
    else PlaceFrom(buffers, i + 1, rest - |buffers[i]|)
  }

  predicate CanMove<T>(buffers: seq<seq<T>>, place: Place, n: int) {
    IsPlace(buffers, place) && 0 <= PositionOf(buffers, place) + n <= |Flat(buffers)|
  }

  /** The place n bytes further, or back when n is negative. */
  function PlaceAfter<T>(buffers: seq<seq<T>>, place: Place, n: int): (r: Place)
    requires CanMove(buffers, place, n)
    ensures IsPlace(buffers, r) && PositionOf(buffers, r) == PositionOf(buffers, place) + n
  {
    FlatLength(buffers);
    PlaceFrom(buffers, 0, PositionOf(buffers, place) + n)
  }

  lemma OnlyPlaceAfter<T>(buffers: seq<seq<T>>, before: Place, after: Place, n: int)
    requires IsPlace(buffers, before) && IsPlace(buffers, after)
    requires PositionOf(buffers, after) == PositionOf(buffers, before) + n
    ensures CanMove(buffers, before, n) && after == PlaceAfter(buffers, before, n)
  {
    PlacesAgree(buffers, after, after);
    PlacesAgree(buffers, after, PlaceAfter(buffers, before, n));
  }

  /** Moves add up: one move back undoes one forward, and n single moves make one of n. */
  lemma MovesAddUp<T>(buffers: seq<seq<T>>, place: Place, a: int, b: int)
    requires CanMove(buffers, place, a) && CanMove(buffers, place, a + b)
    ensures CanMove(buffers, PlaceAfter(buffers, place, a), b)
    ensures PlaceAfter(buffers, PlaceAfter(buffers, place, a), b) == PlaceAfter(buffers, place, a + b)
    ensures a + b == 0 ==> PlaceAfter(buffers, PlaceAfter(buffers, place, a), b) == place
  {
    PlacesAgree(buffers, PlaceAfter(buffers, PlaceAfter(buffers, place, a), b), PlaceAfter(buffers, place, a + b));
    PlacesAgree(buffers, PlaceAfter(buffers, place, a + b), place);
  }

  /** n steps of one byte. */
  function StepsAfter<T>(buffers: seq<seq<T>>, place: Place, n: nat, step: int): (r: Place)
    requires step == 1 || step == -1
    requires CanMove(buffers, place, n * step)
    ensures IsPlace(buffers, r) && PositionOf(buffers, r) == PositionOf(buffers, place) + n * step
  {
    if n == 0 then place
    else
      PlacesAgree(buffers, place, place);
      assert n * step == (n - 1) * step + step;
      assert step == 1 ==> n * step == n;
      assert step == -1 ==> n * step + n == 0;
      PlaceAfter(buffers, StepsAfter(buffers, place, n - 1, step), step)
  }

  /** Advancing by n in one go is n increments, or n decrements when it goes back. */
  lemma AdvanceIsSteps<T>(buffers: seq<seq<T>>, place: Place, n: nat, step: int)
    requires step == 1 || step == -1
    requires CanMove(buffers, place, n * step)
    ensures PlaceAfter(buffers, place, n * step) == StepsAfter(buffers, place, n, step)
  {
    PlacesAgree(buffers, PlaceAfter(buffers, place, n * step), StepsAfter(buffers, place, n, step));
  }
}
