/** The frame animator of a sprite (Chapter02/AnimSpriteComponent.cpp and
  * AnimSpriteComponent.h).
  *
  * The frame cursor and the rate are C++ `float`s; here they are `real`s, so
  * IEEE-754 rounding is not modelled. Textures are opaque handles of type T;
  * the only observable effect of the component, SetTexture, is recorded as
  * the index it was given. */
module AnimSprite {

  datatype Option<T> = None | Some(value: T)

  /** Playback rate set by the constructor, in frames per second. */
  const DefaultFps: real := 24.0

  /** Number of values of a 64-bit size_t: vector sizes are reduced modulo it. */
  const SizeModulus: int := 0x1_0000_0000_0000_0000

  /** `static_cast<int>` of a float: truncation toward zero. */
  function Trunc(x: real): (n: int)
    ensures 0.0 <= x ==> 0 <= n && n as real <= x < n as real + 1.0
    ensures x < 0.0 ==> n <= 0 && n as real - 1.0 < x <= n as real
  {
    if x >= 0.0 then x.Floor else -((-x).Floor)
  }

  /** Fractional part of a cursor. */
  function Frac(x: real): (f: real)
    ensures 0.0 <= f < 1.0
    ensures (x - f).Floor as real == x - f
  {
    x - x.Floor as real
  }

  /** Subtracting a whole number of frames keeps the fractional part. */
  lemma FracShift(x: real, m: int)
    ensures Frac(x - m as real) == Frac(x)
  {
    var n := x.Floor;
    assert n as real - m as real <= x - m as real < (n - m) as real + 1.0;
    assert (x - m as real).Floor == n - m;
  }

  /** The cursor `c` rewound `k` times by `width` frames, that is c - k * width. */
  function Rewound(c: real, k: nat, width: int): (r: real) {
    if k == 0 then c else Rewound(c, k - 1, width) - width as real
  }

  /** Rewinding k + 1 times is rewinding once, then k times. */
  lemma {:induction false} RewoundFirst(c: real, k: nat, width: int)
    ensures Rewound(c, k + 1, width) == Rewound(c - width as real, k, width)
    decreases k
  {
    if k > 0 {
      RewoundFirst(c, k - 1, width);
    }
  }

  /** Number of frames in the range [start, end]. */
  function RangeWidth(start: int, end: int): (w: int) {
    1 + (end - start)
  }

  /** The wrap loop for a custom range [start, end] (taken when end > 0):
    * while the truncated cursor is past `end`, rewind it by the width of the
    * range, end - start + 1. The loop ends when it is not entered at all or
    * when that width is positive. */
  function WrapToRange(c: real, start: int, end: int): (r: real)
    requires end > 0
    requires Trunc(c) <= end || start <= end
    ensures Trunc(r) <= end
    ensures Trunc(c) > end ==> start as real <= r < end as real + 1.0
    ensures 0 <= start && 0.0 <= c ==> 0.0 <= r
    decreases c
  {
    if Trunc(c) > end then WrapToRange(c - RangeWidth(start, end) as real, start, end) else c
  }

  /** The range wrap only ever rewinds by whole range widths. */
  lemma {:induction false} WrapToRangeRewinds(c: real, start: int, end: int)
    requires end > 0
    requires Trunc(c) <= end || start <= end
    ensures exists k: nat :: WrapToRange(c, start, end) == Rewound(c, k, RangeWidth(start, end))
    ensures Frac(WrapToRange(c, start, end)) == Frac(c)
    decreases c
  {
    var width := RangeWidth(start, end);
    if Trunc(c) > end {
      var c' := c - width as real;
      WrapToRangeRewinds(c', start, end);
      var k: nat :| WrapToRange(c', start, end) == Rewound(c', k, width);
      RewoundFirst(c, k, width);
      FracShift(c, width);
    } else {
      assert Rewound(c, 0, width) == c;
    }
  }

  /** With 0 <= start <= end < count and a non-negative cursor, the range wrap
    * yields the index of an existing texture inside the range or at its
    * unwrapped position. */
  lemma RangeIndexInBounds(c: real, start: int, end: int, count: int)
    requires 0 <= start <= end < count && 0 < end
    requires 0.0 <= c
    ensures 0 <= Trunc(WrapToRange(c, start, end)) < count
  {
  }

  /** The wrap loop over the whole texture list: while the cursor is at or past
    * the number of textures, subtract that number. */
  function WrapToList(c: real, count: int): (r: real)
    requires count > 0
    ensures r < count as real
    ensures 0.0 <= c ==> 0.0 <= r
    ensures c < count as real ==> r == c
    decreases c
  {
    if c >= count as real then WrapToList(c - count as real, count) else c
  }

  /** The list wrap only ever rewinds by whole list lengths, so it keeps the
    * cursor's fractional part. */
  lemma {:induction false} WrapToListRewinds(c: real, count: int)
    requires count > 0
    ensures exists k: nat :: WrapToList(c, count) == Rewound(c, k, count)
    ensures Frac(WrapToList(c, count)) == Frac(c)
    decreases c
  {
    if c >= count as real {
      var c' := c - count as real;
      WrapToListRewinds(c', count);
      var k: nat :| WrapToList(c', count) == Rewound(c', k, count);
      RewoundFirst(c, k, count);
      FracShift(c, count);
    } else {
      assert Rewound(c, 0, count) == c;
    }
  }

  /** The custom-range wrap loop of AnimSpriteComponent::Update. */
  method RewindIntoRange(c: real, start: int, end: int) returns (r: real)
    requires end > 0
    requires Trunc(c) <= end || start <= end
    ensures r == WrapToRange(c, start, end)
  {
    r := c;
    while Trunc(r) > end
      invariant Trunc(r) <= end || start <= end
      invariant WrapToRange(r, start, end) == WrapToRange(c, start, end)
      decreases r
    {
      r := r - RangeWidth(start, end) as real;
    }
  }

  /** The whole-list wrap loop of AnimSpriteComponent::Update. */
  method RewindIntoList(c: real, count: int) returns (r: real)
    requires count > 0
    ensures r == WrapToList(c, count)
  {
    r := c;
    while r >= count as real
      invariant WrapToList(r, count) == WrapToList(c, count)
      decreases r
    {
      r := r - count as real;
    }
  }

  /** A cursor of 4.2 over four textures wraps to 0.2; 4.5 over the range
    * [1, 3] wraps to 1.5. */
  lemma WrapExamples()
    ensures WrapToList(4.2, 4) == 0.2
    ensures WrapToRange(4.5, 1, 3) == 1.5
  {
    assert WrapToList(0.2, 4) == 0.2;
    assert WrapToRange(1.5, 1, 3) == 1.5;
  }

  /** Frames one update advances the cursor by: rate times elapsed seconds. */
  function FrameStep(fps: real, dt: real): (step: real) {
    fps * dt
  }

  class Animator<T> {
    /** All textures of the animation. */
    var textures: seq<T>
    /** The frame range; frameEnd > 0 selects a custom range. */
    var frameStart: int
    var frameEnd: int
    /** The frame cursor. */
    var curr: real
    /** Frames per second. */
    var fps: real
    /** Play once instead of looping. */
    var oneOff: bool
    /** Playback direction; stored, never read by Update. */
    var forward: bool
    /** Index of the texture last passed to SetTexture, None before the first. */
    var displayed: Option<int>

    /** The constructor only sets the rate; the source leaves the range, the
      * cursor and both flags uninitialised, so here the caller supplies them. */
    constructor (start: int, end: int, cursor: real, animOneOff: bool, animForward: bool)
      ensures textures == [] && fps == DefaultFps && displayed == None
      ensures frameStart == start && frameEnd == end && curr == cursor
      ensures oneOff == animOneOff && forward == animForward
    {
      textures := [];
      fps := DefaultFps;
      displayed := None;
      frameStart, frameEnd, curr := start, end, cursor;
      oneOff, forward := animOneOff, animForward;
    }

    /** `size() - 1` as the source computes it, in size_t arithmetic: it wraps
      * to the largest size_t when the list is empty. */
    function LastIndex(): (n: int)
      reads this`textures
      ensures 0 <= n < SizeModulus
      ensures |textures| > 0 && |textures| <= SizeModulus ==> n == |textures| - 1
      ensures |textures| == 0 ==> n == SizeModulus - 1
    {
      (|textures| - 1) % SizeModulus
    }

    /** Whether the one-shot animation may still advance from cursor `c`: `c`
      * is before the last texture and its frame lies in [frameStart, frameEnd]. */
    predicate FrameInRange(c: real): (r: bool)
      reads this`textures, this`frameStart, this`frameEnd
      ensures r ==> frameStart <= Trunc(c) <= frameEnd
      ensures 0 < |textures| <= SizeModulus ==>
        (r <==> c < (|textures| - 1) as real && frameStart <= Trunc(c) <= frameEnd)
      ensures r && 0.0 <= c && 0 < |textures| <= SizeModulus ==> 0 <= Trunc(c) < |textures| - 1
    {
      var currFrameInt := Trunc(c);
      c < LastIndex() as real && currFrameInt >= frameStart && currFrameInt <= frameEnd
    }

    function GetAnimFPS(): (f: real)
      reads this`fps
    {
      fps
    }

    method SetAnimFPS(f: real)
      modifies this`fps
      ensures GetAnimFPS() == f
    {
      fps := f;
    }

    method SetAnimOneOff(animOneOff: bool)
      modifies this`oneOff
      ensures oneOff == animOneOff
    {
      oneOff := animOneOff;
    }

    method SetAnimForward(animForward: bool)
      modifies this`forward
      ensures forward == animForward
    {
      forward := animForward;
    }

    /** Sets the range and moves the cursor to its start; the displayed
      * texture is not updated. */
    method SetAnimRange(start: int, end: int)
      modifies this`frameStart, this`frameEnd, this`curr
      ensures frameStart == start && frameEnd == end && curr == start as real
    {
      frameStart := start;
      curr := start as real;
      frameEnd := end;
    }

    /** Replaces the texture list. A non-empty list resets the cursor to the
      * range start (or 0 if that is negative) and displays texture 0, whatever
      * the range start is. */
    method SetAnimTextures(newTextures: seq<T>)
      modifies this`textures, this`curr, this`displayed
      ensures textures == newTextures
      ensures |newTextures| > 0 ==>
        curr == (if frameStart >= 0 then frameStart as real else 0.0) && displayed == Some(0)
      ensures |newTextures| == 0 ==> curr == old(curr) && displayed == old(displayed)
    {
      textures := newTextures;
      if |textures| > 0 {
        if frameStart >= 0 {
          curr := frameStart as real;
        } else {
          curr := 0.0;
        }
        displayed := Some(0);
      }
    }

    /** AnimSpriteComponent::Update, advancing the cursor by FrameStep(fps, dt). The
      * precondition is exactly what makes the custom-range wrap loop end: when
      * frameStart > frameEnd the width is not positive, and a cursor whose frame is
      * past frameEnd makes the source loop forever. */
    method Update(dt: real)
      requires |textures| > 0 && !oneOff && frameEnd > 0 ==>
        Trunc(curr + FrameStep(fps, dt)) <= frameEnd || frameStart <= frameEnd
      modifies this`curr, this`displayed
      ensures |textures| == 0 ==> curr == old(curr) && displayed == old(displayed)
      ensures |textures| > 0 && oneOff && !FrameInRange(old(curr)) ==>
        curr == old(curr) && displayed == old(displayed)
      ensures |textures| > 0 && oneOff && FrameInRange(old(curr)) ==>
        curr == old(curr) + FrameStep(fps, dt) && displayed == Some(Trunc(curr))
      ensures |textures| > 0 && !oneOff && frameEnd > 0 ==>
        curr == WrapToRange(old(curr) + FrameStep(fps, dt), frameStart, frameEnd) && displayed == Some(Trunc(curr))
      ensures |textures| > 0 && !oneOff && frameEnd <= 0 ==>
        curr == WrapToList(old(curr) + FrameStep(fps, dt), |textures|) && displayed == Some(Trunc(curr))
    {
      if |textures| > 0 {
        if oneOff {
          // run the animation once
          if FrameInRange(curr) {
            curr := curr + FrameStep(fps, dt);
            displayed := Some(Trunc(curr));
          }
        } else {
          // advance, then wrap the cursor back if needed
          curr := curr + FrameStep(fps, dt);
          if frameEnd > 0 {
            curr := RewindIntoRange(curr, frameStart, frameEnd);
            displayed := Some(Trunc(curr));
          } else {
            curr := RewindIntoList(curr, |textures|);
            displayed := Some(Trunc(curr));
          }
        }
      }
    }
  }

  /** A one-shot step from a cursor in range that advances by at most one frame
    * displays an existing texture. */
  lemma OneShotIndexInBounds<T>(a: Animator<T>, step: real)
    requires 0 < |a.textures| <= SizeModulus
    requires a.FrameInRange(a.curr) && 0.0 <= a.curr
    requires 0.0 <= step <= 1.0
    ensures 0 <= Trunc(a.curr + step) < |a.textures|
  {
  }

  /** The playback direction has no effect on Update: two animators that agree
    * on everything but `forward` end with the same cursor and display. */
  method UpdateIgnoresForward<T>(a: Animator<T>, b: Animator<T>, dt: real)
    requires a != b
    requires a.textures == b.textures && a.frameStart == b.frameStart && a.frameEnd == b.frameEnd
    requires a.curr == b.curr && a.fps == b.fps && a.oneOff == b.oneOff && a.displayed == b.displayed
    requires |a.textures| > 0 && !a.oneOff && a.frameEnd > 0 ==> a.frameStart <= a.frameEnd
    modifies a, b
    ensures a.curr == b.curr && a.displayed == b.displayed
  {
    a.Update(dt);
    b.Update(dt);
  }

  /** Four textures played once over the range [0, 3] at one frame per update:
    * the display walks 0, 1, 2, 3 and then stays on 3. */
  method OneShotScenario() returns (shown: seq<Option<int>>)
    ensures shown == [Some(0), Some(1), Some(2), Some(3), Some(3)]
  {
    var a := new Animator<int>(0, 0, 0.0, false, true);
    a.SetAnimRange(0, 3);
    a.SetAnimOneOff(true);
    a.SetAnimTextures([10, 11, 12, 13]);
    var dt := 1.0 / DefaultFps;
    assert FrameStep(a.fps, dt) == 1.0;
    shown := [a.displayed];
    a.Update(dt);
    assert a.curr == 1.0;
    shown := shown + [a.displayed];
    a.Update(dt);
    assert a.curr == 2.0;
    shown := shown + [a.displayed];
    a.Update(dt);
    assert a.curr == 3.0;
    shown := shown + [a.displayed];
    a.Update(dt);
    shown := shown + [a.displayed];
  }
}
