/**
 * `TrustScore`: the capped ring percentage, the three colour bands of the score
 * and the count-up animation of the displayed score.
 */
module TrustScore {

  /** `Math.min((score / maxScore) * 100, 100)`, for a positive `maxScore` (default 100). */
  function Percentage(score: real, maxScore: real): (r: real)
    requires maxScore > 0.0
    ensures r <= 100.0
    ensures r == 100.0 <==> score >= maxScore
    ensures 0.0 <= score ==> 0.0 <= r
    ensures score < maxScore ==> r * maxScore == score * 100.0
  {
    var ratio := (score / maxScore) * 100.0;
    if ratio <= 100.0 then ratio else 100.0
  }

  // ---------------------------------------------------------------------------
  // Colour bands

  /** The three bands every colour choice of the component uses. */
  datatype Band = High | Medium | Low

  /** `score >= 80`, then `score >= 60`, else. */
  function BandOf(score: real): Band
  {
    if score >= 80.0 then High else if score >= 60.0 then Medium else Low
  }

  /** The bands cover the scores as [80, ∞), [60, 80) and (-∞, 60). */
  lemma BandRanges(score: real)
    ensures BandOf(score) == High <==> score >= 80.0
    ensures BandOf(score) == Medium <==> 60.0 <= score < 80.0
    ensures BandOf(score) == Low <==> score < 60.0
  {
  }

  /** `getScoreColor`: the text and ring colour. */
  function ScoreColor(score: real): string
  {
    if score >= 80.0 then "text-secondary"
    else if score >= 60.0 then "text-warning"
    else "text-destructive"
  }

  /** `getGlowColor`: the card glow. */
  function GlowColor(score: real): string
  {
    if score >= 80.0 then "glow-secondary"
    else if score >= 60.0 then "shadow-warning"
    else "shadow-destructive"
  }

  /** The drop-shadow colour of the ring's inline style. */
  function DropShadowColor(score: real): string
  {
    if score >= 80.0 then "hsl(var(--secondary))"
    else if score >= 60.0 then "hsl(var(--warning))"
    else "hsl(var(--destructive))"
  }

  /**
   * The text colour, the glow and the drop shadow agree: two scores get the same
   * one of them exactly when they lie in the same band.
   */
  lemma ColoursFollowBands(a: real, b: real)
    ensures ScoreColor(a) == ScoreColor(b) <==> BandOf(a) == BandOf(b)
    ensures GlowColor(a) == GlowColor(b) <==> BandOf(a) == BandOf(b)
    ensures DropShadowColor(a) == DropShadowColor(b) <==> BandOf(a) == BandOf(b)
  {
  }

  // ---------------------------------------------------------------------------
  // Displayed score animation

  /** The updater the 20 ms interval passes to `setDisplayScore`; `score / 50` per step. */
  function AnimationStep(prev: real, score: real): (next: real)
    ensures next <= score
    ensures prev >= score ==> next == score
    ensures 0.0 <= score && prev < score ==> prev <= next
    ensures prev < score ==> next == (if prev + score / 50.0 <= score then prev + score / 50.0 else score)
  {
    if prev >= score then score
    else if prev + score / 50.0 <= score then prev + score / 50.0
    else score
  }

  /** `n` firings of the interval from `prev`. */
  function Animate(prev: real, score: real, n: nat): real
  {
    if n == 0 then prev else AnimationStep(Animate(prev, score, n - 1), score)
  }

  /** In exact arithmetic a positive score counts up from 0 in 50 equal steps of `score / 50`. */
  lemma {:induction false} AnimateFromZero(score: real, k: nat)
    requires score > 0.0 && k <= 50
    ensures Animate(0.0, score, k) == (k as real) * (score / 50.0)
  {
    if k > 0 {
      AnimateFromZero(score, k - 1);
      var d := score / 50.0;
      var j := (k - 1) as real;
      assert j * d + d == (k as real) * d;
      assert (50.0 - j) * d > 0.0;
      var e := 50.0 - (k as real);
      assert e >= 0.0;
      assert e * d >= 0.0;
      assert e * d == 50.0 * d - (k as real) * d;
      assert 50.0 * d == score;
    }
  }

  /** After 50 steps the display equals the score, and the next firing stops the interval. */
  lemma ReachesScoreInFiftySteps(score: real)
    requires score > 0.0
    ensures Animate(0.0, score, 50) == score
    ensures Animate(0.0, score, 51) == score
  {
    AnimateFromZero(score, 50);
  }

  /** The score display of one mounted `TrustScore`. */
  class ScoreDisplay {
    const score: real
    const animated: bool
    var displayScore: real
    var ticking: bool

    /** Not ticking means showing the score; a non-negative score is never overshot. */
    ghost predicate Valid()
      reads this
    {
      && (!ticking ==> displayScore == score)
      && (!animated ==> !ticking)
      && (0.0 <= score ==> 0.0 <= displayScore <= score)
    }

    /** Mounting: an animated display counts up from 0, otherwise it shows the score at once. */
    constructor (score: real, animated: bool)
      ensures Valid()
      ensures this.score == score && this.animated == animated
      ensures ticking == animated
      ensures displayScore == if animated then 0.0 else score
    {
      this.score := score;
      this.animated := animated;
      displayScore := if animated then 0.0 else score;
      ticking := animated;
    }

    /** One firing of the interval: clear it once the score is reached. */
    method Tick()
      requires Valid() && ticking
      modifies this
      ensures Valid()
      ensures displayScore == AnimationStep(old(displayScore), score)
      ensures ticking <==> old(displayScore) < score
    {
      if displayScore >= score {
        ticking := false;
        displayScore := score;
      } else {
        displayScore := if displayScore + score / 50.0 <= score then displayScore + score / 50.0 else score;
      }
    }
  }
}
