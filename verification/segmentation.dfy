/** STTProcessor: caller audio cut into turns by silence, or by a full buffer. */
module Segmentation {

  /** 16-bit PCM: numpy rejects a frame with an odd number of bytes. */
  type Frame = f: seq<bv8> | |f| % 2 == 0

  /** The energy test, applied to the bytes of a frame; no samples means no energy. */
  type Silence = seq<bv8> -> bool

  const SILENCE_FRAMES := 15
  const MAX_BUFFER_BYTES := 640_000      // 20 s of 16 kHz 16-bit audio


  function Bytes(frames: seq<Frame>): seq<bv8> {
    if frames == [] then [] else Bytes(frames[..|frames| - 1]) + frames[|frames| - 1]
  }

  /** How many silent frames the sequence ends in. */
  function TrailingSilence(silent: Silence, frames: seq<Frame>): nat {
    if frames == [] || !silent(frames[|frames| - 1]) then 0
    else TrailingSilence(silent, frames[..|frames| - 1]) + 1
  }

  function Length(frames: seq<Frame>): nat {
    if frames == [] then 0 else |frames[0]| + Length(frames[1..])
  }

  /** The bytes of frames in a row: those of the first ones, then those of the later ones. */
  lemma {:induction false} BytesAppend(a: seq<Frame>, b: seq<Frame>)
    ensures Bytes(a + b) == Bytes(a) + Bytes(b)
    decreases |b|
  {
    if b == [] {
      assert a + b == a;
    } else {
      assert (a + b)[..|a + b| - 1] == a + b[..|b| - 1];
      BytesAppend(a, b[..|b| - 1]);
    }
  }

  lemma BytesOfOne(f: Frame)
    ensures Bytes([f]) == f
  {
    assert [f][..0] == [];
  }

  lemma {:induction false} BytesLength(frames: seq<Frame>)
    ensures |Bytes(frames)| == Length(frames)
    decreases |frames|
  {
    if frames != [] {
      assert frames == [frames[0]] + frames[1..];
      BytesAppend([frames[0]], frames[1..]);
      BytesOfOne(frames[0]);
      BytesLength(frames[1..]);
    }
  }

  /** Byte j of frame k comes after all bytes of the earlier frames, and there are no others. */
  ghost predicate InOrderOfArrival(bytes: seq<bv8>, frames: seq<Frame>) {
    && |bytes| == Length(frames)
    && forall k: nat :: k < |frames| ==> FrameInPlace(bytes, frames, k)
  }

  ghost predicate FrameInPlace(bytes: seq<bv8>, frames: seq<Frame>, k: nat)
    requires k < |frames|
  {
    var from := Length(frames[..k]);
    from + |frames[k]| <= |bytes| && forall j :: 0 <= j < |frames[k]| ==> bytes[from + j] == frames[k][j]
  }

  lemma {:induction false} BytesInOrder(frames: seq<Frame>)
    ensures InOrderOfArrival(Bytes(frames), frames)
    decreases |frames|
  {
    BytesLength(frames);
    if frames != [] {
      var n := |frames| - 1;
      var front := frames[..n];
      BytesInOrder(front);
      BytesLength(front);
      forall k: nat | k < n ensures FrameInPlace(Bytes(frames), frames, k) {
        assert FrameInPlace(Bytes(front), front, k);
        assert front[..k] == frames[..k] && front[k] == frames[k];
      }
      assert FrameInPlace(Bytes(frames), frames, n);
    }
  }

  // ---------------------------------------------------- what a turn is

  predicate Complete(silent: Silence, t: seq<Frame>) {
    TrailingSilence(silent, t) >= SILENCE_FRAMES || |Bytes(t)| >= MAX_BUFFER_BYTES
  }

  ghost predicate StartsLoud(silent: Silence, t: seq<Frame>) {
    t != [] && !silent(t[0])
  }

  /** A turn ends with the first frame that completes it. */
  ghost predicate Turn(silent: Silence, t: seq<Frame>) {
    && StartsLoud(silent, t)
    && Complete(silent, t)
    && forall n :: 0 < n < |t| ==> !Complete(silent, t[..n])
  }

  /** Audio still waiting for its end of turn. */
  ghost predicate Unfinished(silent: Silence, t: seq<Frame>) {
    t == [] || (StartsLoud(silent, t) && forall n :: 0 < n <= |t| ==> !Complete(silent, t[..n]))
  }

  ghost predicate Quiet(silent: Silence, gap: seq<Frame>) {
    forall i :: 0 <= i < |gap| ==> silent(gap[i])
  }

  /** Quiet gaps and turns in alternation, then what is still unfinished. */
  ghost function Weave(gaps: seq<seq<Frame>>, turns: seq<seq<Frame>>, open: seq<Frame>): seq<Frame>
    requires |gaps| == |turns| + 1
  {
    if turns == [] then gaps[0] + open else gaps[0] + turns[0] + Weave(gaps[1..], turns[1..], open)
  }

  ghost predicate Parses(silent: Silence, frames: seq<Frame>, gaps: seq<seq<Frame>>, s: Segments) {
    && |gaps| == |s.turns| + 1
    && frames == Weave(gaps, s.turns, s.open)
    && (forall i :: 0 <= i < |gaps| ==> Quiet(silent, gaps[i]))
    && (forall i :: 0 <= i < |s.turns| ==> Turn(silent, s.turns[i]))
    && Unfinished(silent, s.open)
  }

  // ------------------------------------------------------ segmentation

  datatype Segments = Segments(turns: seq<seq<Frame>>, open: seq<Frame>)

  function Feed(silent: Silence, s: Segments, f: Frame): Segments {
    if s.open == [] && silent(f) then s
    else if Complete(silent, s.open + [f]) then Segments(s.turns + [s.open + [f]], [])
    else Segments(s.turns, s.open + [f])
  }

  function Segment(silent: Silence, frames: seq<Frame>): Segments {
    if frames == [] then Segments([], [])
    else Feed(silent, Segment(silent, frames[..|frames| - 1]), frames[|frames| - 1])
  }

  lemma {:induction false} WeaveOpen(gaps: seq<seq<Frame>>, turns: seq<seq<Frame>>, open: seq<Frame>, f: Frame)
    requires |gaps| == |turns| + 1
    ensures Weave(gaps, turns, open + [f]) == Weave(gaps, turns, open) + [f]
    decreases |turns|
  {
    if turns == [] {
      assert gaps[0] + (open + [f]) == gaps[0] + open + [f];
    } else {
      WeaveOpen(gaps[1..], turns[1..], open, f);
    }
  }

  lemma {:induction false} WeaveTurn(gaps: seq<seq<Frame>>, turns: seq<seq<Frame>>, t: seq<Frame>)
    requires |gaps| == |turns| + 1
    ensures Weave(gaps + [[]], turns + [t], []) == Weave(gaps, turns, t)
    decreases |turns|
  {
    if turns == [] {
      assert (gaps + [[]])[1..] == [[]] && (turns + [t])[1..] == [];
      assert Weave(gaps + [[]], [t], []) == gaps[0] + t + Weave([[]], [], []);
    } else {
      assert (gaps + [[]])[1..] == gaps[1..] + [[]] && (turns + [t])[1..] == turns[1..] + [t];
      WeaveTurn(gaps[1..], turns[1..], t);
    }
  }

  lemma {:induction false} WeaveGap(gaps: seq<seq<Frame>>, turns: seq<seq<Frame>>, f: Frame)
    requires |gaps| == |turns| + 1
    ensures Weave(gaps[|turns| := gaps[|turns|] + [f]], turns, []) == Weave(gaps, turns, []) + [f]
    decreases |turns|
  {
    if turns != [] {
      assert gaps[|turns| := gaps[|turns|] + [f]][1..] == gaps[1..][|turns| - 1 := gaps[|turns|] + [f]];
      WeaveGap(gaps[1..], turns[1..], f);
    }
  }

  /** One more frame of speech either completes a turn or leaves it unfinished. */
  lemma OneMoreFrame(silent: Silence, open: seq<Frame>, f: Frame)
    requires Unfinished(silent, open) && (open != [] || !silent(f))
    ensures Complete(silent, open + [f]) ==> Turn(silent, open + [f])
    ensures !Complete(silent, open + [f]) ==> Unfinished(silent, open + [f])
  {
    var t := open + [f];
    assert StartsLoud(silent, t);
    forall n | 0 < n < |t| ensures !Complete(silent, t[..n]) {
      assert t[..n] == open[..n];
    }
    assert t[..|t|] == t;
  }

  lemma FeedParses(silent: Silence, frames: seq<Frame>, gaps: seq<seq<Frame>>, s: Segments, f: Frame) returns (gaps': seq<seq<Frame>>)
    requires silent([]) && Parses(silent, frames, gaps, s)
    ensures Parses(silent, frames + [f], gaps', Feed(silent, s, f))
  {
    if s.open == [] && silent(f) {
      gaps' := gaps[|s.turns| := gaps[|s.turns|] + [f]];
      WeaveGap(gaps, s.turns, f);
    } else {
      OneMoreFrame(silent, s.open, f);
      WeaveOpen(gaps, s.turns, s.open, f);
      if Complete(silent, s.open + [f]) {
        WeaveTurn(gaps, s.turns, s.open + [f]);
        gaps' := gaps + [[]];
      } else {
        gaps' := gaps;
      }
    }
  }

  lemma {:induction false} SegmentParses(silent: Silence, frames: seq<Frame>) returns (gaps: seq<seq<Frame>>)
    requires silent([])
    ensures Parses(silent, frames, gaps, Segment(silent, frames))
    decreases |frames|
  {
    if frames == [] {
      gaps := [[]];
      assert Weave(gaps, [], []) == [];
    } else {
      var front := frames[..|frames| - 1];
      gaps := SegmentParses(silent, front);
      gaps := FeedParses(silent, front, gaps, Segment(silent, front), frames[|frames| - 1]);
      assert frames == front + [frames[|frames| - 1]];
    }
  }

  // -------------------------------------------------------- uniqueness

  ghost function QuietLead(silent: Silence, frames: seq<Frame>): nat {
    if frames == [] || !silent(frames[0]) then 0 else 1 + QuietLead(silent, frames[1..])
  }

  lemma {:induction false} QuietLeadIs(silent: Silence, g: seq<Frame>, x: seq<Frame>)
    requires Quiet(silent, g) && (x == [] || StartsLoud(silent, x))
    ensures QuietLead(silent, g + x) == |g|
    decreases |g|
  {
    if g == [] {
      assert g + x == x;
    } else {
      assert (g + x)[1..] == g[1..] + x;
      QuietLeadIs(silent, g[1..], x);
    }
  }

  /** A quiet stretch before loud audio, or before nothing, cannot end in two places. */
  lemma GapEnds(silent: Silence, g: seq<Frame>, x: seq<Frame>, h: seq<Frame>, y: seq<Frame>)
    requires g + x == h + y && Quiet(silent, g) && Quiet(silent, h)
    requires (x == [] || StartsLoud(silent, x)) && (y == [] || StartsLoud(silent, y))
    ensures g == h && x == y
  {
    QuietLeadIs(silent, g, x);
    QuietLeadIs(silent, h, y);
    assert g == (g + x)[..|g|] && h == (h + y)[..|h|];
    assert x == (g + x)[|g|..] && y == (h + y)[|h|..];
  }

  lemma NoShorterTurn(silent: Silence, t: seq<Frame>, v: seq<Frame>)
    requires Turn(silent, t) && Turn(silent, v) && v <= t
    ensures v == t
  {
    assert v == t[..|v|];
  }

  /** Two turns at the front of the same audio are the same turn. */
  lemma SameTurn(silent: Silence, x: seq<Frame>, t: seq<Frame>, v: seq<Frame>)
    requires t <= x && v <= x && Turn(silent, t) && Turn(silent, v)
    ensures t == v
  {
    if |t| <= |v| {
      NoShorterTurn(silent, v, t);
    }
    if |v| <= |t| {
      NoShorterTurn(silent, t, v);
    }
  }

  lemma UnfinishedHoldsNoTurn(silent: Silence, x: seq<Frame>, n: nat)
    requires 0 < n <= |x| && Complete(silent, x[..n])
    ensures !Unfinished(silent, x)
  {
  }

  lemma WeaveRest(silent: Silence, frames: seq<Frame>, gaps: seq<seq<Frame>>, s: Segments) returns (rest: seq<Frame>)
    requires Parses(silent, frames, gaps, s)
    ensures frames == gaps[0] + rest && (rest == [] || StartsLoud(silent, rest))
    ensures s.turns == [] ==> rest == s.open
    ensures s.turns != [] ==>
              && rest == s.turns[0] + Weave(gaps[1..], s.turns[1..], s.open)
              && Parses(silent, Weave(gaps[1..], s.turns[1..], s.open), gaps[1..], Segments(s.turns[1..], s.open))
  {
    if s.turns == [] {
      rest := s.open;
    } else {
      rest := s.turns[0] + Weave(gaps[1..], s.turns[1..], s.open);
      assert rest[0] == s.turns[0][0];
    }
  }

  lemma {:induction false} ParseIsUnique(silent: Silence, frames: seq<Frame>,
                                         gaps: seq<seq<Frame>>, s: Segments, hs: seq<seq<Frame>>, u: Segments)
    requires Parses(silent, frames, gaps, s) && Parses(silent, frames, hs, u)
    ensures s == u && gaps == hs
    decreases |s.turns|
  {
    var x := WeaveRest(silent, frames, gaps, s);
    var y := WeaveRest(silent, frames, hs, u);
    GapEnds(silent, gaps[0], x, hs[0], y);
    assert s.turns == [] <==> u.turns == [] by {
      if s.turns != [] {
        assert x[..|s.turns[0]|] == s.turns[0];
        UnfinishedHoldsNoTurn(silent, x, |s.turns[0]|);
      }
      if u.turns != [] {
        assert x[..|u.turns[0]|] == u.turns[0];
        UnfinishedHoldsNoTurn(silent, x, |u.turns[0]|);
      }
    }
    if s.turns == [] {
      assert gaps == [gaps[0]] && hs == [hs[0]];
    } else {
      var t := s.turns[0];
      SameTurn(silent, x, t, u.turns[0]);
      var rest := Weave(gaps[1..], s.turns[1..], s.open);
      assert rest == x[|t|..] && Weave(hs[1..], u.turns[1..], u.open) == x[|t|..];
      ParseIsUnique(silent, rest, gaps[1..], Segments(s.turns[1..], s.open), hs[1..], Segments(u.turns[1..], u.open));
      assert s.turns == [t] + s.turns[1..] && u.turns == [t] + u.turns[1..];
      assert gaps == [gaps[0]] + gaps[1..] && hs == [hs[0]] + hs[1..];
    }
  }

  /**
   Cutting at the first completing frame is the only way to read the audio as quiet gaps and
   turns, and it is what the processor's frame-by-frame rule computes.
   */
  lemma SegmentationIsExact(silent: Silence, frames: seq<Frame>, s: Segments)
    requires silent([])
    ensures s == Segment(silent, frames) <==> exists gaps :: Parses(silent, frames, gaps, s)
  {
    var gaps := SegmentParses(silent, frames);
    forall hs | Parses(silent, frames, hs, s) ensures s == Segment(silent, frames) {
      ParseIsUnique(silent, frames, gaps, Segment(silent, frames), hs, s);
    }
  }

  // ------------------------------------------------ what a turn contains

  ghost function Loud(silent: Silence, frames: seq<Frame>): seq<Frame> {
    if frames == [] then []
    else (if silent(frames[0]) then [] else [frames[0]]) + Loud(silent, frames[1..])
  }

  ghost function Flat(turns: seq<seq<Frame>>): seq<Frame> {
    if turns == [] then [] else turns[0] + Flat(turns[1..])
  }

  lemma {:induction false} LoudAppend(silent: Silence, a: seq<Frame>, b: seq<Frame>)
    ensures Loud(silent, a + b) == Loud(silent, a) + Loud(silent, b)
    decreases |a|
  {
    if a == [] {
      assert a + b == b;
    } else {
      assert (a + b)[1..] == a[1..] + b;
      LoudAppend(silent, a[1..], b);
    }
  }

  lemma {:induction false} QuietIsNotLoud(silent: Silence, gap: seq<Frame>)
    requires Quiet(silent, gap)
    ensures Loud(silent, gap) == []
    decreases |gap|
  {
    if gap != [] {
      QuietIsNotLoud(silent, gap[1..]);
    }
  }

  lemma {:induction false} WeaveKeepsLoud(silent: Silence, gaps: seq<seq<Frame>>, turns: seq<seq<Frame>>, open: seq<Frame>)
    requires |gaps| == |turns| + 1 && forall i :: 0 <= i < |gaps| ==> Quiet(silent, gaps[i])
    ensures Loud(silent, Weave(gaps, turns, open)) == Loud(silent, Flat(turns) + open)
    decreases |turns|
  {
    QuietIsNotLoud(silent, gaps[0]);
    if turns == [] {
      LoudAppend(silent, gaps[0], open);
      assert Flat(turns) + open == open;
    } else {
      var rest := Weave(gaps[1..], turns[1..], open);
      WeaveKeepsLoud(silent, gaps[1..], turns[1..], open);
      assert gaps[0] + turns[0] + rest == gaps[0] + (turns[0] + rest);
      LoudAppend(silent, gaps[0], turns[0] + rest);
      LoudAppend(silent, turns[0], rest);
      assert Flat(turns) + open == turns[0] + (Flat(turns[1..]) + open);
      LoudAppend(silent, turns[0], Flat(turns[1..]) + open);
    }
  }

  /** Every loud frame is in exactly one turn or still in the buffer, in the order it was heard. */
  lemma LoudFramesKept(silent: Silence, frames: seq<Frame>)
    requires silent([])
    ensures var s := Segment(silent, frames); Loud(silent, Flat(s.turns) + s.open) == Loud(silent, frames)
  {
    var gaps := SegmentParses(silent, frames);
    var s := Segment(silent, frames);
    WeaveKeepsLoud(silent, gaps, s.turns, s.open);
  }

  lemma {:induction false} SilenceStopsAtLoud(silent: Silence, t: seq<Frame>)
    ensures TrailingSilence(silent, t) <= |t|
    ensures TrailingSilence(silent, t) < |t| ==> !silent(t[|t| - 1 - TrailingSilence(silent, t)])
    ensures forall i :: |t| - TrailingSilence(silent, t) <= i < |t| ==> silent(t[i])
    decreases |t|
  {
    if t != [] && silent(t[|t| - 1]) {
      SilenceStopsAtLoud(silent, t[..|t| - 1]);
    }
  }

  /** A turn below the size cap was ended by exactly 15 silent frames after a loud one. */
  lemma SilenceEndsTurn(silent: Silence, t: seq<Frame>)
    requires Turn(silent, t) && |Bytes(t)| < 640_000
    ensures |t| > 15 && !silent(t[|t| - 16])
    ensures forall i :: |t| - 15 <= i < |t| ==> silent(t[i])
  {
    SilenceStopsAtLoud(silent, t);
    if |t| > 1 {
      assert !Complete(silent, t[..|t| - 1]);
    }
    assert TrailingSilence(silent, t) == 15;
  }

  /** The last 15 frames are silent, or 640000 bytes have come together. */
  predicate EndsTurn(silent: Silence, x: seq<Frame>) {
    SilentRun(silent, x, |x|) || Length(x) >= 640_000
  }

  lemma CompleteExactly(silent: Silence, x: seq<Frame>)
    ensures Complete(silent, x) <==> EndsTurn(silent, x)
  {
    SilenceStopsAtLoud(silent, x);
    BytesLength(x);
  }

  /** A turn starts loud, and ends with the first frame that makes 15 silent ones in a row or 640000 bytes. */
  lemma TurnExactly(silent: Silence, t: seq<Frame>)
    ensures Turn(silent, t) <==>
              && t != [] && !silent(t[0])
              && EndsTurn(silent, t) && forall n :: 0 < n < |t| ==> !EndsTurn(silent, t[..n])
  {
    CompleteExactly(silent, t);
    forall n | 0 < n < |t| ensures Complete(silent, t[..n]) <==> EndsTurn(silent, t[..n]) {
      CompleteExactly(silent, t[..n]);
    }
  }

  /** The 15 frames before the n-th are all silent. */
  predicate SilentRun(silent: Silence, x: seq<Frame>, n: nat)
    requires n <= |x|
  {
    n >= 15 && forall i :: n - 15 <= i < n ==> silent(x[i])
  }

  /** While speech goes on with no 15 silent frames in a row and stays below 640000 bytes, nothing is sent. */
  lemma NothingSentTooEarly(silent: Silence, gap: seq<Frame>, x: seq<Frame>)
    requires silent([]) && Quiet(silent, gap) && x != [] && !silent(x[0])
    requires Length(x) < 640_000
    requires forall n: nat :: n <= |x| ==> !SilentRun(silent, x, n)
    ensures Segment(silent, gap + x) == Segments([], x)
  {
    forall n | 0 < n <= |x| ensures !Complete(silent, x[..n]) {
      NotCompleteYet(silent, x, n);
    }
    assert Weave([gap], [], x) == gap + x;
    assert Parses(silent, gap + x, [gap], Segments([], x));
    SegmentationIsExact(silent, gap + x, Segments([], x));
  }

  lemma NotCompleteYet(silent: Silence, x: seq<Frame>, n: nat)
    requires n <= |x| && Length(x) < 640_000 && !SilentRun(silent, x, n)
    ensures !Complete(silent, x[..n])
  {
    CompleteExactly(silent, x[..n]);
    LengthGrows(x, n);
  }

  lemma LengthGrows(x: seq<Frame>, n: nat)
    requires n <= |x|
    ensures Length(x[..n]) <= Length(x)
  {
    BytesAppend(x[..n], x[n..]);
    assert x == x[..n] + x[n..];
    BytesLength(x[..n]);
    BytesLength(x);
  }

  /** With frames of at most 10 s, no turn reaches the length transcribe() would cut. */
  lemma TurnSize(silent: Silence, t: seq<Frame>, largest: nat)
    requires Turn(silent, t) && forall i :: 0 <= i < |t| ==> |t[i]| <= largest
    ensures |t| > 1 ==> |Bytes(t)| < 640_000 + largest
    ensures largest <= 320_000 ==> |Bytes(t)| < 960_000
  {
    if |t| > 1 {
      assert !Complete(silent, t[..|t| - 1]);
    } else {
      assert Bytes(t[..0]) == [];
    }
  }

  // --------------------------------------------------------- the processor

  /** The fields of the processor and the audio it has handed to transcribe(). */
  datatype Buffered = Buffered(buffer: seq<bv8>, silenceRun: nat, speaking: bool, sent: seq<seq<bv8>>)

  ghost function BytesOf(turns: seq<seq<Frame>>): seq<seq<bv8>> {
    seq(|turns|, i requires 0 <= i < |turns| => Bytes(turns[i]))
  }

  /** The fields that hold a given segmentation. */
  ghost function Holding(silent: Silence, s: Segments): Buffered {
    Buffered(Bytes(s.open), TrailingSilence(silent, s.open), s.open != [], BytesOf(s.turns))
  }

  /** Between frames the buffer is below 20 s and the silence run below 15. */
  lemma BufferBounds(silent: Silence, frames: seq<Frame>)
    requires silent([])
    ensures var b := Holding(silent, Segment(silent, frames)); |b.buffer| < 640_000 && b.silenceRun < 15
  {
    var _ := SegmentParses(silent, frames);
    var s := Segment(silent, frames);
    if s.open != [] {
      assert s.open[..|s.open|] == s.open;
    }
  }

  lemma {:induction false} LoudIsNotEmpty(silent: Silence, t: seq<Frame>)
    requires silent([]) && StartsLoud(silent, t)
    ensures Bytes(t) != []
    decreases |t|
  {
    if |t| > 1 {
      LoudIsNotEmpty(silent, t[..|t| - 1]);
    }
  }

  function Flushed(h: Buffered): Buffered {
    Buffered([], 0, false, if h.buffer == [] then h.sent else h.sent + [h.buffer])
  }

  /** One frame, from any field values at all. */
  function AfterFrame(silent: Silence, h: Buffered, f: Frame): Buffered {
    var heard :=
      if !silent(f) then h.(speaking := true, silenceRun := 0, buffer := h.buffer + f)
      else if h.speaking then h.(silenceRun := h.silenceRun + 1, buffer := h.buffer + f)
      else h;
    if (silent(f) && h.speaking && heard.silenceRun >= SILENCE_FRAMES) || |heard.buffer| >= MAX_BUFFER_BYTES
    then Flushed(heard) else heard
  }

  lemma OneMoreHeard(silent: Silence, open: seq<Frame>, f: Frame)
    ensures Bytes(open + [f]) == Bytes(open) + f
    ensures TrailingSilence(silent, open + [f]) == if silent(f) then TrailingSilence(silent, open) + 1 else 0
  {
    assert (open + [f])[..|open|] == open;
  }

  lemma UnfinishedIsNotComplete(silent: Silence, open: seq<Frame>)
    requires Unfinished(silent, open)
    ensures TrailingSilence(silent, open) < SILENCE_FRAMES && |Bytes(open)| < MAX_BUFFER_BYTES
  {
    if open != [] {
      assert open[..|open|] == open;
    }
  }

  lemma SentOneMore(turns: seq<seq<Frame>>, t: seq<Frame>)
    ensures BytesOf(turns + [t]) == BytesOf(turns) + [Bytes(t)]
  {
  }

  /** The fields follow the segmentation frame by frame. */
  lemma FieldsFollowFeed(silent: Silence, s: Segments, f: Frame)
    requires silent([]) && Unfinished(silent, s.open)
    ensures AfterFrame(silent, Holding(silent, s), f) == Holding(silent, Feed(silent, s, f))
  {
    var t := s.open + [f];
    OneMoreHeard(silent, s.open, f);
    UnfinishedIsNotComplete(silent, s.open);
    if s.open != [] || !silent(f) {
      assert StartsLoud(silent, t);
      LoudIsNotEmpty(silent, t);
      SentOneMore(s.turns, t);
    }
  }

  // ------------------------------------------------- end of the stream

  function AfterFrames(silent: Silence, h: Buffered, frames: seq<Frame>): Buffered {
    if frames == [] then h else AfterFrame(silent, AfterFrames(silent, h, frames[..|frames| - 1]), frames[|frames| - 1])
  }

  /** What EndFrame and CancelFrame leave: only the buffer is dropped. */
  ghost function Dropped(silent: Silence, s: Segments): Buffered {
    Holding(silent, s).(buffer := [])
  }

  /** The silence run after `frames`, when `run` silent frames came before them. */
  function RunOn(silent: Silence, run: nat, frames: seq<Frame>): nat {
    if frames == [] then run
    else if silent(frames[|frames| - 1]) then RunOn(silent, run, frames[..|frames| - 1]) + 1
    else 0
  }

  predicate CutAfter(silent: Silence, run: nat, frames: seq<Frame>) {
    RunOn(silent, run, frames) >= SILENCE_FRAMES || |Bytes(frames)| >= MAX_BUFFER_BYTES
  }

  /**
   After an EndFrame in mid-turn the next turn holds every frame that follows, silent ones at its
   start included, up to the first one that completes a silence run begun before the EndFrame, or
   that fills the buffer.
   */
  lemma {:induction false} NextTurnAfterEnd(silent: Silence, s: Segments, frames: seq<Frame>)
    requires s.open != [] && Unfinished(silent, s.open)
    requires forall n :: 0 < n < |frames| ==> !CutAfter(silent, TrailingSilence(silent, s.open), frames[..n])
    ensures var run := TrailingSilence(silent, s.open);
            var heard := Buffered(Bytes(frames), RunOn(silent, run, frames), true, BytesOf(s.turns));
            AfterFrames(silent, Dropped(silent, s), frames) ==
            if frames != [] && CutAfter(silent, run, frames) then Flushed(heard) else heard
    decreases |frames|
  {
    assert s.open[..|s.open|] == s.open;
    if frames != [] {
      var front := frames[..|frames| - 1];
      assert forall n :: 0 < n < |front| ==> front[..n] == frames[..n];
      NextTurnAfterEnd(silent, s, front);
    }
  }

  lemma {:induction false} QuietCompletes(silent: Silence, h: Buffered, q: Frame, n: nat)
    requires silent(q) && q != [] && h.speaking && h.silenceRun < SILENCE_FRAMES && n == SILENCE_FRAMES - h.silenceRun
    ensures |AfterFrames(silent, h, Repeat(q, n)).sent| == |h.sent| + 1
    decreases n
  {
    var next := AfterFrame(silent, h, q);
    RepeatFirst(silent, h, q, n);
    if next.speaking {
      QuietCompletes(silent, next, q, n - 1);
    } else {
      QuietIsIgnored(silent, next, q, n - 1);
    }
  }

  function Repeat(q: Frame, n: nat): seq<Frame> {
    if n == 0 then [] else Repeat(q, n - 1) + [q]
  }

  lemma {:induction false} RepeatFirst(silent: Silence, h: Buffered, q: Frame, n: nat)
    requires n > 0
    ensures AfterFrames(silent, h, Repeat(q, n)) == AfterFrames(silent, AfterFrame(silent, h, q), Repeat(q, n - 1))
    decreases n
  {
    assert Repeat(q, n)[..|Repeat(q, n)| - 1] == Repeat(q, n - 1);
    if n > 1 {
      RepeatFirst(silent, h, q, n - 1);
      assert Repeat(q, n - 1)[..|Repeat(q, n - 1)| - 1] == Repeat(q, n - 2);
    }
  }

  lemma {:induction false} QuietIsIgnored(silent: Silence, h: Buffered, q: Frame, n: nat)
    requires silent(q) && !h.speaking && |h.buffer| < MAX_BUFFER_BYTES
    ensures AfterFrames(silent, h, Repeat(q, n)) == h
    decreases n
  {
    if n > 0 {
      QuietIsIgnored(silent, h, q, n - 1);
      assert Repeat(q, n)[..|Repeat(q, n)| - 1] == Repeat(q, n - 1);
    }
  }

  /**
   Dropping only the buffer is a clean cut exactly between turns. In the middle of one, silence
   alone is enough for a turn of silence to be sent.
   */
  lemma EndIsCleanBetweenTurns(silent: Silence, s: Segments, q: Frame)
    requires Unfinished(silent, s.open) && silent(q) && q != []
    ensures (forall frames ::
              AfterFrames(silent, Dropped(silent, s), frames).sent ==
              AfterFrames(silent, Holding(silent, Segments(s.turns, [])), frames).sent) <==> s.open == []
  {
    var clean := Holding(silent, Segments(s.turns, []));
    if s.open != [] {
      assert s.open[..|s.open|] == s.open;
      var n := SILENCE_FRAMES - Dropped(silent, s).silenceRun;
      QuietCompletes(silent, Dropped(silent, s), q, n);
      QuietIsIgnored(silent, clean, q, n);
      assert AfterFrames(silent, Dropped(silent, s), Repeat(q, n)).sent != AfterFrames(silent, clean, Repeat(q, n)).sent;
    } else {
      assert Dropped(silent, s) == clean;
    }
  }

  class STTProcessor {
    const silent: Silence
    var buffer: seq<bv8>
    var silenceRun: nat
    var speaking: bool
    var sent: seq<seq<bv8>>

    constructor (silent: Silence)
      ensures this.silent == silent && State() == Buffered([], 0, false, [])
    {
      this.silent := silent;
      buffer, silenceRun, speaking, sent := [], 0, false, [];
    }

    ghost function State(): Buffered
      reads this
    {
      Buffered(buffer, silenceRun, speaking, sent)
    }

    method FlushTurn()
      modifies this
      ensures State() == Flushed(old(State()))
    {
      var audio := buffer;
      buffer, speaking, silenceRun := [], false, 0;
      if audio == [] {
        return;
      }
      sent := sent + [audio];
    }

    method HandleAudio(frame: Frame)
      modifies this
      ensures State() == AfterFrame(silent, old(State()), frame)
      ensures var heard := if silent(frame) && !old(speaking) then old(buffer) else old(buffer) + frame;
              var run := if !silent(frame) then 0 else if old(speaking) then old(silenceRun) + 1 else old(silenceRun);
              if (silent(frame) && old(speaking) && run >= 15) || |heard| >= 640_000
              then buffer == [] && silenceRun == 0 && !speaking && sent == if heard == [] then old(sent) else old(sent) + [heard]
              else buffer == heard && silenceRun == run && speaking == (old(speaking) || !silent(frame)) && sent == old(sent)
    {
      if !silent(frame) {
        speaking, silenceRun, buffer := true, 0, buffer + frame;
      } else if speaking {
        silenceRun, buffer := silenceRun + 1, buffer + frame;
        if silenceRun >= SILENCE_FRAMES {
          FlushTurn();
          return;
        }
      }
      if |buffer| >= MAX_BUFFER_BYTES {
        FlushTurn();
      }
    }

    /** EndFrame and CancelFrame drop the audio and nothing else. */
    method EndOrCancel()
      modifies this`buffer
      ensures State() == old(State()).(buffer := [])
    {
      buffer := [];
    }
  }

  lemma SegmentGrows(silent: Silence, frames: seq<Frame>, i: nat)
    requires i < |frames|
    ensures Segment(silent, frames[..i + 1]) == Feed(silent, Segment(silent, frames[..i]), frames[i])
  {
    assert frames[..i + 1][..i] == frames[..i];
  }

  lemma SegmentUnfinished(silent: Silence, frames: seq<Frame>)
    requires silent([])
    ensures Unfinished(silent, Segment(silent, frames).open)
  {
    var _ := SegmentParses(silent, frames);
  }

  lemma NextFrame(silent: Silence, frames: seq<Frame>, i: nat)
    requires silent([]) && i < |frames|
    ensures AfterFrame(silent, Holding(silent, Segment(silent, frames[..i])), frames[i]) ==
            Holding(silent, Segment(silent, frames[..i + 1]))
  {
    SegmentGrows(silent, frames, i);
    SegmentUnfinished(silent, frames[..i]);
    FieldsFollowFeed(silent, Segment(silent, frames[..i]), frames[i]);
  }

  /** A call's audio, frame by frame: what transcribe() gets is the one segmentation of it. */
  method Listen(silent: Silence, frames: seq<Frame>) returns (p: STTProcessor)
    requires silent([])
    ensures fresh(p) && p.State() == Holding(silent, Segment(silent, frames))
    ensures var turns := Segment(silent, frames).turns;
            && |p.sent| == |turns|
            && forall i :: 0 <= i < |turns| ==> InOrderOfArrival(p.sent[i], turns[i])
  {
    p := new STTProcessor(silent);
    for i := 0 to |frames|
      invariant fresh(p) && p.silent == silent
      invariant p.State() == Holding(silent, Segment(silent, frames[..i]))
    {
      NextFrame(silent, frames, i);
      p.HandleAudio(frames[i]);
    }
    assert frames[..|frames|] == frames;
    forall i | 0 <= i < |Segment(silent, frames).turns|
      ensures InOrderOfArrival(Bytes(Segment(silent, frames).turns[i]), Segment(silent, frames).turns[i])
    {
      BytesInOrder(Segment(silent, frames).turns[i]);
    }
  }
}
