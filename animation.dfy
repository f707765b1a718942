/**
 * The frame sequencer of animation.py.  `Animation` is the class the game
 * objects own; its methods are proved against the pure functions `Step`,
 * `WithFrames` and `WithDelay` on the value `AnimState`, and the timing
 * properties are lemmas about those functions.  The frame counter of the
 * rendering backend is the explicit `tick` parameter.
 */
module Animations {

  /** A region of an image bank (sprite-sheet x, y, size, bank index).  Drawing
      is not modelled; a frame is only compared for identity. */
  datatype Image = Image(u: int, v: int, width: int, height: int, bank: int)

  /** The state of an Animation: frame list, cursor, the tick at which the
      current frame started, the hold delay and the sticky `played_once` flag. */
  datatype AnimState = AnimState(frames: seq<Image>, current: int, startTime: int, delay: int, playedOnce: bool)
  {
    predicate CursorInRange()
    {
      0 <= current && (|frames| > 0 ==> current < |frames|)
    }
  }

  /** `update` at frame tick `tick`. */
  function Step(s: AnimState, tick: int): AnimState
  {
    var advance := tick - s.startTime > s.delay;
    var current := if advance then s.current + 1 else s.current;
    var start := if advance then tick else s.startTime;
    if current == |s.frames| then s.(current := 0, startTime := start, playedOnce := true)
    else s.(current := current, startTime := start)
  }

  /** `set_frames` at frame tick `tick`. */
  function WithFrames(s: AnimState, frames: seq<Image>, tick: int): AnimState
  {
    s.(frames := frames, current := 0, startTime := tick, playedOnce := false)
  }

  /** `set_delay`. */
  function WithDelay(s: AnimState, delay: int): AnimState
  {
    s.(delay := delay)
  }

  /** `n` updates at the ticks t0 + 1, ..., t0 + n: one update per frame. */
  function Run(s: AnimState, t0: int, n: nat): AnimState
    decreases n
  {
    if n == 0 then s else Step(Run(s, t0, n - 1), t0 + n)
  }

  /** One update: the cursor moves by at most one, and only when more than
      `delay` ticks have passed since the current frame started, in which case
      the timer restarts at `tick`; wrapping past the last frame resets the
      cursor to 0 and sets `played_once`, which an update never clears. */
  lemma StepBehaviour(s: AnimState, tick: int)
    requires s.CursorInRange() && |s.frames| > 0
    ensures var r := Step(s, tick);
      && r.CursorInRange()
      && r.frames == s.frames && r.delay == s.delay
      && (tick - s.startTime > s.delay ==>
            r.startTime == tick &&
            (r.current == s.current + 1 ||
             (r.current == 0 && s.current == |s.frames| - 1 && r.playedOnce)))
      && (tick - s.startTime <= s.delay ==>
            r.current == s.current && r.startTime == s.startTime && r.playedOnce == s.playedOnce)
      && (s.playedOnce ==> r.playedOnce)
      && (r.playedOnce && !s.playedOnce ==> r.current == 0)
  {
  }

  /** `set_frames` restarts the sequence: cursor 0, timer at the current tick,
      flag cleared; `set_delay` touches the delay only. */
  lemma SettersBehaviour(s: AnimState, frames: seq<Image>, tick: int, delay: int)
    ensures var r := WithFrames(s, frames, tick);
      r.frames == frames && r.current == 0 && r.startTime == tick && !r.playedOnce && r.delay == s.delay
    ensures var r := WithDelay(s, delay);
      r.delay == delay && r.frames == s.frames && r.current == s.current &&
      r.startTime == s.startTime && r.playedOnce == s.playedOnce
  {
  }

  /** An update in the same frame as the last advance (or as `set_frames`)
      changes nothing when the delay is not negative. */
  lemma StepSameTick(s: AnimState)
    requires s.CursorInRange() && |s.frames| > 0 && s.delay >= 0
    ensures Step(s, s.startTime) == s
  {
  }

  /** Before the first wrap the cursor has made q full holds of delay + 1
      ticks and is r ticks into the next one. */
  lemma {:induction false} RunPhase(s: AnimState, frames: seq<Image>, t0: int, q: nat, r: nat)
    requires |frames| > 0 && s.delay >= 0
    requires q < |frames| && r <= s.delay
    ensures Run(WithFrames(s, frames, t0), t0, q * (s.delay + 1) + r)
         == AnimState(frames, q, t0 + q * (s.delay + 1), s.delay, false)
    decreases q, r
  {
    var d := s.delay;
    var s0 := WithFrames(s, frames, t0);
    if r > 0 {
      RunPhase(s, frames, t0, q, r - 1);
      assert q * (d + 1) + r - 1 == q * (d + 1) + (r - 1);
    } else if q > 0 {
      RunPhase(s, frames, t0, q - 1, d);
      calc {
        (q - 1) * (d + 1) + d + 1;
        q * (d + 1) - (d + 1) + d + 1;
        q * (d + 1);
      }
      assert Run(s0, t0, q * (d + 1))
          == Step(Run(s0, t0, (q - 1) * (d + 1) + d), t0 + q * (d + 1));
    }
  }

  /** Writes a tick count below len * (d + 1) as q full holds plus r ticks. */
  lemma Split(k: nat, d: nat, len: nat) returns (q: nat, r: nat)
    requires k < len * (d + 1)
    ensures q < len && r <= d && k == q * (d + 1) + r
  {
    q, r := k / (d + 1), k % (d + 1);
  }

  /** If the tick rises by one per update, `played_once` first becomes true
      after exactly (delay + 1) * len(frames) updates following `set_frames`,
      and the cursor is then back at frame 0. */
  lemma FirstPlayedOnce(s: AnimState, frames: seq<Image>, t0: int)
    requires |frames| > 0 && s.delay >= 0
    ensures forall k: nat :: k < |frames| * (s.delay + 1) ==>
      !Run(WithFrames(s, frames, t0), t0, k).playedOnce
    ensures var last := Run(WithFrames(s, frames, t0), t0, |frames| * (s.delay + 1));
      last.playedOnce && last.current == 0
  {
    var d := s.delay;
    var len := |frames|;
    var s0 := WithFrames(s, frames, t0);
    forall k: nat | k < len * (d + 1)
      ensures !Run(s0, t0, k).playedOnce
    {
      var q, r := Split(k, d, len);
      RunPhase(s, frames, t0, q, r);
    }
    RunPhase(s, frames, t0, len - 1, d);
    assert (len - 1) * (d + 1) + d + 1 == len * (d + 1);
    assert Run(s0, t0, len * (d + 1))
        == Step(Run(s0, t0, (len - 1) * (d + 1) + d), t0 + len * (d + 1));
  }

  class Animation {
    var frames: seq<Image>
    var currentFrame: int
    var startTime: int
    var delay: int
    var playedOnce: bool

    /** The object this animation belongs to; no two game objects share an
        animation, which the owners' invariants state through this field. */
    ghost var owner: object

    function State(): AnimState
      reads this
    {
      AnimState(frames, currentFrame, startTime, delay, playedOnce)
    }

    ghost predicate Valid()
      reads this
    {
      State().CursorInRange()
    }

    /** `Animation(frames, delay)` created at frame tick `tick`. */
    constructor (frames: seq<Image>, delay: int, tick: int)
      ensures State() == AnimState(frames, 0, tick, delay, false)
      ensures Valid() && owner == this
    {
      this.frames := frames;
      currentFrame := 0;
      startTime := tick;
      this.delay := delay;
      playedOnce := false;
      owner := this;
    }

    method Update(tick: int)
      requires Valid()
      modifies this
      ensures Valid() && owner == old(owner)
      ensures State() == Step(old(State()), tick)
    {
      var elapsed := tick - startTime;
      if elapsed > delay {
        currentFrame := currentFrame + 1;
        startTime := tick;
      }
      if currentFrame == |frames| {
        currentFrame := 0;
        playedOnce := true;
      }
    }

    method SetFrames(frames: seq<Image>, tick: int)
      modifies this
      ensures Valid() && owner == old(owner)
      ensures State() == WithFrames(old(State()), frames, tick)
    {
      this.frames := frames;
      currentFrame := 0;
      startTime := tick;
      playedOnce := false;
    }

    method SetDelay(delay: int)
      modifies this
      ensures owner == old(owner)
      ensures State() == WithDelay(old(State()), delay)
      ensures old(Valid()) ==> Valid()
    {
      this.delay := delay;
    }

    /** `get_image`: the frame under the cursor. */
    function GetImage(): (image: Image)
      reads this
      requires Valid() && |frames| > 0
      ensures currentFrame < |frames| && image == frames[currentFrame]
      ensures image in frames
    {
      frames[currentFrame]
    }
  }
}
