/** A random access iterator over the bytes of a buffer sequence. */
module BuffersIterators {
  import opened BufferSequences

  class BuffersIterator<T> {
    const buffers: seq<seq<T>>
    var current: nat
    var currentBuffer: seq<T>
    var currentBufferPosition: nat
    var position: nat

    function Here(): Place
      reads this
    {
      Place(current, currentBufferPosition)
    }

    /** The iterator stands at the place of its position; before the end it holds that place's buffer. */
    ghost predicate Valid()
      reads this
    {
      && IsPlace(buffers, Here())
      && position == PositionOf(buffers, Here())
      && (current < |buffers| ==> currentBuffer == buffers[current])
    }

    constructor Begin(sequence: seq<seq<T>>)
      ensures buffers == sequence && Valid() && position == 0
    {
      buffers := sequence;
      current, currentBufferPosition, position := 0, 0, 0;
      currentBuffer := [];
      new;
      while current != |buffers|
        invariant current <= |buffers| && Offset(buffers, current) == 0
        invariant position == 0 && currentBufferPosition == 0
      {
        currentBuffer := buffers[current];
        if |currentBuffer| > 0 {
          break;
        }
        current := current + 1;
      }
    }

    constructor End(sequence: seq<seq<T>>)
      ensures buffers == sequence && Valid() && position == |Flat(sequence)|
    {
      buffers := sequence;
      current, currentBufferPosition, position := 0, 0, 0;
      currentBuffer := [];
      new;
      while current != |buffers|
        invariant current <= |buffers| && position == Offset(buffers, current) && currentBufferPosition == 0
      {
        position := position + |buffers[current]|;
        current := current + 1;
      }
      FlatLength(buffers);
    }

    /** The byte at the iterator's position of the flat sequence. */
    method Dereference() returns (b: T)
      requires Valid() && position < |Flat(buffers)|
      ensures b == Flat(buffers)[position]
    {
      PlacesAgree(buffers, Place(current, currentBufferPosition), Place(current, currentBufferPosition));
      FlatAt(buffers, current, currentBufferPosition);
      b := currentBuffer[currentBufferPosition];
    }

    /** Iterators over one sequence can be compared. */
    ghost predicate Comparable(other: BuffersIterator<T>)
      reads this, other
    {
      Valid() && other.Valid() && buffers == other.buffers
    }

    /** Equal positions mean the same place, before the end one and the same byte. */
    method Equal(other: BuffersIterator<T>) returns (r: bool)
      ensures Comparable(other) ==> (r <==> Here() == other.Here())
      ensures Comparable(other) && r && position < |Flat(buffers)| ==>
                currentBufferPosition < |currentBuffer| == |other.currentBuffer|
                && currentBuffer[currentBufferPosition] == other.currentBuffer[other.currentBufferPosition]
                   == Flat(buffers)[position]
      ensures !Comparable(other) ==> (r <==> position == other.position)
    {
      r := position == other.position;
      if Comparable(other) {
        PlacesAgree(buffers, Here(), other.Here());
        if current < |buffers| {
          FlatAt(buffers, current, currentBufferPosition);
        }
      }
    }

    /** Between iterators over one sequence: the one move that leads from here to the other's place. */
    method DistanceTo(other: BuffersIterator<T>) returns (d: int)
      ensures Comparable(other) ==>
                forall n :: CanMove(buffers, Here(), n) && PlaceAfter(buffers, Here(), n) == other.Here() <==> n == d
      ensures !Comparable(other) ==> position + d == other.position
    {
      d := other.position - position;
      if Comparable(other) {
        PlacesAgree(buffers, other.Here(), other.Here());
        PlacesAgree(buffers, PlaceAfter(buffers, Here(), d), other.Here());
      }
    }

    method Increment()
      requires Valid() && current != |buffers|
      modifies this
      ensures Valid() && position == old(position) + 1
      ensures CanMove(buffers, old(Here()), 1) && Here() == PlaceAfter(buffers, old(Here()), 1)
    {
      position := position + 1;
      currentBufferPosition := currentBufferPosition + 1;
      if currentBufferPosition != |currentBuffer| {
        OnlyPlaceAfter(buffers, old(Here()), Here(), 1);
        return;
      }
      current := current + 1;
      currentBufferPosition := 0;
      while current != |buffers|
        invariant current <= |buffers| && currentBufferPosition == 0
        invariant position == old(position) + 1 == Offset(buffers, current)
      {
        currentBuffer := buffers[current];
        if |currentBuffer| > 0 {
          break;
        }
        current := current + 1;
      }
      OnlyPlaceAfter(buffers, old(Here()), Here(), 1);
    }

    /** Moves to one past the last byte of the nearest earlier buffer that is not empty. */
    method FindPrevious() returns (size: nat)
      requires current <= |buffers| && 0 < Offset(buffers, current)
      modifies this
      ensures position == old(position) && current < old(current) && currentBuffer == buffers[current]
      ensures 0 < size == |currentBuffer|
      ensures Offset(buffers, current) + size == old(Offset(buffers, current))
    {
      ghost var start := current;
      var iter: int := current;
      size := 0;
      while iter != 0
        invariant 0 <= iter <= start && Offset(buffers, iter) == Offset(buffers, start)
        invariant unchanged(this)
      {
        iter := iter - 1;
        size := |buffers[iter]|;
        if size > 0 {
          current := iter;
          currentBuffer := buffers[iter];
          return;
        }
      }
      assert false;
    }

    method Decrement()
      requires Valid() && position > 0
      modifies this
      ensures Valid() && position == old(position) - 1
      ensures CanMove(buffers, old(Here()), -1) && Here() == PlaceAfter(buffers, old(Here()), -1)
    {
      position := position - 1;
      if currentBufferPosition != 0 {
        currentBufferPosition := currentBufferPosition - 1;
        OnlyPlaceAfter(buffers, old(Here()), Here(), -1);
        return;
      }
      var size := FindPrevious();
      currentBufferPosition := size - 1;
      OnlyPlaceAfter(buffers, old(Here()), Here(), -1);
    }

    method Advance(n: int)
      requires Valid() && 0 <= position + n <= |Flat(buffers)|
      modifies this
      ensures Valid() && position == old(position) + n && Here() == PlaceAfter(buffers, old(Here()), n)
    {
      PlacesAgree(buffers, Place(current, currentBufferPosition), Place(current, currentBufferPosition));
      if n > 0 {
        AdvanceForward(n);
      } else if n < 0 {
        AdvanceBackward(-n);
      }
      OnlyPlaceAfter(buffers, old(Here()), Here(), n);
    }

    method AdvanceForward(distance: nat)
      requires Valid() && current != |buffers| && 0 < distance && position + distance <= |Flat(buffers)|
      modifies this
      ensures Valid() && position == old(position) + distance
    {
      var n: int := distance;
      FlatLength(buffers);
      while true
        invariant 0 <= n && current < |buffers| && currentBuffer == buffers[current]
        invariant currentBufferPosition <= |currentBuffer|
        invariant position == Offset(buffers, current) + currentBufferPosition
        invariant position + n == old(position) + distance
        decreases |buffers| - current
      {
        var balance := |currentBuffer| - currentBufferPosition;
        if balance > n {
          position := position + n;
          currentBufferPosition := currentBufferPosition + n;
          return;
        }
        n := n - balance;
        position := position + balance;
        current := current + 1;
        if current == |buffers| {
          // Out of bounds unless the distance is used up.
          assert n == 0;
          currentBuffer := [];
          currentBufferPosition := 0;
          return;
        }
        currentBuffer := buffers[current];
        currentBufferPosition := 0;
      }
    }

    method AdvanceBackward(distance: nat)
      requires Valid() && 0 < distance <= position
      modifies this
      ensures Valid() && position == old(position) - distance
    {
      var absN := distance;
      while true
        invariant current <= |buffers| && 0 < absN <= position
        invariant current < |buffers| ==> currentBuffer == buffers[current] && currentBufferPosition <= |currentBuffer|
        invariant currentBufferPosition - absN < (if current < |buffers| then |buffers[current]| else 0)
        invariant current == |buffers| ==> currentBufferPosition == 0
        invariant position == Offset(buffers, current) + currentBufferPosition
        invariant position - absN == old(position) - distance
        decreases current
      {
        if currentBufferPosition >= absN {
          position := position - absN;
          currentBufferPosition := currentBufferPosition - absN;
          return;
        }
        absN := absN - currentBufferPosition;
        position := position - currentBufferPosition;
        if current == 0 {
          // Out of bounds unless the distance is used up, which it never is here.
          assert false;
        }
        currentBufferPosition := FindPrevious();
      }
    }
  }

  /** Iterators over one sequence that compare equal stand at the same place: they dereference the same byte
      and every further move takes them to equal places. */
  lemma EqualIteratorsAgree<T>(a: BuffersIterator<T>, b: BuffersIterator<T>)
    requires a.Valid() && b.Valid() && a.buffers == b.buffers
    ensures a.position == b.position <==>
            a.current == b.current && a.currentBufferPosition == b.currentBufferPosition
    ensures a.position == b.position < |Flat(a.buffers)| ==> a.currentBuffer == b.currentBuffer
  {
    PlacesAgree(a.buffers, Place(a.current, a.currentBufferPosition), Place(b.current, b.currentBufferPosition));
  }
}
