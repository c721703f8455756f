/**
 * The volume knob (Knob.tsx): a vertical slider whose thumb follows a pan
 * gesture. Positions are reals in [0, 1]; values handed to `onChange` are
 * whole percentages. Rendering and haptics are not modelled.
 */
module KnobGesture {
  import opened Wrappers

  /** The thumb's height; the track a thumb can travel is the knob's size minus this. */
  const THUMB_SIZE: real := 56.0
  /** A drag update reports a value only once it is this many percent away from the drag's start. */
  const EMIT_STEP: int := 5

  /** `Math.max(0, Math.min(1, x))`. */
  function Clamp(x: real): (r: real)
    ensures 0.0 <= r <= 1.0
    ensures 0.0 <= x <= 1.0 ==> r == x
    ensures x < 0.0 ==> r == 0.0
    ensures x > 1.0 ==> r == 1.0
  {
    if x > 1.0 then 1.0 else if x < 0.0 then 0.0 else x
  }

  /** `Math.round`: halves round up. */
  function Round(x: real): (n: int)
    ensures n as real - 0.5 <= x < n as real + 0.5
  {
    (x + 0.5).Floor
  }

  /** `onUpdate`'s new position: the start moved by the translation as a fraction of the track, upward positive. */
  function NewPosition(start: real, translationY: real, size: real): (p: real)
    requires size > THUMB_SIZE
    ensures 0.0 <= p <= 1.0
  {
    Clamp(start - translationY / (size - THUMB_SIZE))
  }

  /** The value `onUpdate` reports for a position, if any: only one at least 5 away from the drag's start. */
  function Emission(start: real, position: real): (e: Option<int>)
    ensures e.Some? <==> Abs(Round(position * 100.0) - Round(start * 100.0)) >= EMIT_STEP
    ensures e.Some? ==> e.value == Round(position * 100.0)
  {
    var newValue := Round(position * 100.0);
    var currentValue := Round(start * 100.0);
    if Abs(newValue - currentValue) >= EMIT_STEP then Some(newValue) else None
  }

  function Abs(x: int): int
  {
    if x < 0 then -x else x
  }

  /** Rounding never moves two points further apart, or closer together, by a whole unit or more. */
  lemma RoundDistance(x: real, y: real)
    ensures (x - y) - 1.0 < (Round(x) - Round(y)) as real < (x - y) + 1.0
  {
  }

  /** A move of less than 4 percent from the start never reports; one of 6 percent or more always does. */
  lemma EmissionThreshold(start: real, position: real)
    ensures -0.04 < position - start < 0.04 ==> Emission(start, position).None?
    ensures (position - start >= 0.06 || start - position >= 0.06) ==> Emission(start, position).Some?
  {
    RoundDistance(position * 100.0, start * 100.0);
  }

  /** Dragging up never lowers the position below the start, and dragging down never raises it. */
  lemma DragDirection(start: real, translationY: real, size: real)
    requires 0.0 <= start <= 1.0 && size > THUMB_SIZE
    ensures translationY <= 0.0 ==> NewPosition(start, translationY, size) >= start
    ensures translationY >= 0.0 ==> NewPosition(start, translationY, size) <= start
  {
    var d := translationY / (size - THUMB_SIZE);
    assert translationY <= 0.0 ==> d <= 0.0;
    assert translationY >= 0.0 ==> d >= 0.0;
  }

  /** A whole-percentage value of a position in range is between 0 and 100. */
  lemma PercentInRange(position: real)
    requires 0.0 <= position <= 1.0
    ensures 0 <= Round(position * 100.0) <= 100
  {
  }

  /** A value passed in from outside and read back off the knob is the same value. */
  lemma PercentRoundTrip(value: int)
    ensures Round(value as real / 100.0 * 100.0) == value
  {
    assert value as real / 100.0 * 100.0 == value as real;
  }

  /**
   * The reports compare with the drag's start, not with the last report: a
   * drag from 50 through 56 to 57 reports both 56 and 57.
   */
  lemma ComparesWithStart()
    ensures Emission(0.5, 0.56) == Some(56) && Emission(0.5, 0.57) == Some(57)
  {
    assert Round(0.5 * 100.0) == 50;
    assert Round(0.56 * 100.0) == 56;
    assert Round(0.57 * 100.0) == 57;
  }

  /** The knob as an object: the three shared values its gesture handlers assign. */
  class Knob {
    const size: real
    var position: real
    var isDragging: bool
    var startPosition: real

    /** Both positions stay on the track. */
    predicate Valid()
      reads this
    {
      size > THUMB_SIZE && 0.0 <= position <= 1.0 && 0.0 <= startPosition <= 1.0
    }

    /** The first render with the `value` and `size` props. */
    constructor(value: int, knobSize: real)
      requires 0 <= value <= 100 && knobSize > THUMB_SIZE
      ensures Valid() && position == value as real / 100.0 && !isDragging && startPosition == 0.0
      ensures size == knobSize
    {
      size := knobSize;
      position := value as real / 100.0;
      isDragging := false;
      startPosition := 0.0;
    }

    /** The effect on a new `value` prop: it moves the thumb only while no drag is in progress. */
    method ExternalValue(value: int)
      requires Valid() && 0 <= value <= 100
      modifies this
      ensures Valid() && isDragging == old(isDragging) && startPosition == old(startPosition)
      ensures position == if old(isDragging) then old(position) else value as real / 100.0
    {
      if !isDragging {
        position := value as real / 100.0;
      }
    }

    /** `onStart`: the drag begins where the thumb is. */
    method OnStart()
      requires Valid()
      modifies this
      ensures Valid() && isDragging && startPosition == position == old(position)
    {
      isDragging := true;
      startPosition := position;
    }

    /** `onUpdate`: the thumb jumps to the new position; `reported` is what reaches `onChange`, if anything. */
    method OnUpdate(translationY: real) returns (reported: Option<int>)
      requires Valid()
      modifies this
      ensures Valid() && isDragging == old(isDragging) && startPosition == old(startPosition)
      ensures position == NewPosition(startPosition, translationY, size)
      ensures reported == Emission(startPosition, position)
    {
      var trackRange := size - THUMB_SIZE;
      var deltaY := translationY / trackRange;
      var newPosition := Clamp(startPosition - deltaY);
      position := newPosition;
      var newValue := Round(newPosition * 100.0);
      var currentValue := Round(startPosition * 100.0);
      reported := None;
      if Abs(newValue - currentValue) >= EMIT_STEP {
        reported := Some(newValue);
      }
    }

    /** `onEnd`: the drag ends and the thumb's value always reaches `onChange`. */
    method OnEnd() returns (finalValue: int)
      requires Valid()
      modifies this
      ensures Valid() && !isDragging && position == old(position) && startPosition == old(startPosition)
      ensures finalValue == Round(position * 100.0) && 0 <= finalValue <= 100
    {
      isDragging := false;
      finalValue := Round(position * 100.0);
      PercentInRange(position);
    }
  }
}
