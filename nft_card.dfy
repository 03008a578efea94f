/**
 * `NFTCard`: the gradient and rarity colour lookups, the id badge, the
 * attributes list on the back, and the flip and hover flags of one card.
 */
module NftCard {
  import opened Optional
  import opened JsText

  datatype Rarity = Common | Rare | Epic | Legendary

  /** A value of an attribute is a string or a number. */
  datatype AttributeValue = Text(text: string) | Number(number: real)

  datatype Attribute = Attribute(traitType: string, value: AttributeValue)

  // ---------------------------------------------------------------------------
  // Colour lookups

  /** `getRarityColor`, where an absent rarity and "Common" take the default branch. */
  function RarityColor(rarity: Option<Rarity>): string
  {
    match rarity
    case Some(Legendary) => "border-warning text-warning"
    case Some(Epic) => "border-secondary text-secondary"
    case Some(Rare) => "border-accent text-accent"
    case _ => "border-primary text-primary"
  }

  /** Legendary, Epic and Rare each get their own colour; Common shares the default with no rarity. */
  lemma RarityColorCases(r: Rarity, s: Rarity)
    ensures RarityColor(Some(Common)) == RarityColor(None) == "border-primary text-primary"
    ensures r != Common && s != r ==> RarityColor(Some(r)) != RarityColor(Some(s))
  {
  }

  /** How many of the thresholds 70, 80 and 90 the score reaches. */
  function Grade(score: real): (g: nat)
    ensures g <= 3
  {
    (if score >= 70.0 then 1 else 0) + (if score >= 80.0 then 1 else 0) + (if score >= 90.0 then 1 else 0)
  }

  /** `getScoreGradient`. */
  function ScoreGradient(score: real): string
  {
    if score >= 90.0 then "from-secondary/30 to-primary/30"
    else if score >= 80.0 then "from-primary/30 to-accent/30"
    else if score >= 70.0 then "from-accent/30 to-warning/30"
    else "from-warning/30 to-destructive/30"
  }

  /** Four gradients: two scores share one exactly when they reach the same thresholds, and the grade is monotone. */
  lemma ScoreGradientBands(a: real, b: real)
    ensures ScoreGradient(a) == ScoreGradient(b) <==> Grade(a) == Grade(b)
    ensures a <= b ==> Grade(a) <= Grade(b)
    ensures Grade(a) == 3 <==> a >= 90.0
    ensures Grade(a) == 0 <==> a < 70.0
  {
  }

  // ---------------------------------------------------------------------------
  // Badge and attributes

  /** `#{nft.id.slice(-4)}`. */
  function IdBadge(id: string): string
  {
    "#" + TakeLast(id, 4)
  }

  /** The badge is "#" and the last four characters of the id, or the whole id when it is shorter. */
  lemma IdBadgeText(id: string)
    ensures |id| >= 4 ==> IdBadge(id) == "#" + id[|id| - 4..] && |IdBadge(id)| == 5
    ensures |id| < 4 ==> IdBadge(id) == "#" + id
  {
  }

  /** The attributes section: hidden when there are none, else the first three at most. */
  function ShownAttributes(attributes: Option<seq<Attribute>>): Option<seq<Attribute>>
  {
    if attributes.Some? && |attributes.value| > 0 then
      Some(if |attributes.value| <= 3 then attributes.value else attributes.value[..3])
    else None
  }

  /** The section is shown exactly for a non-empty list, and lists a prefix of at most three, in order. */
  lemma ShownAttributesPrefix(attributes: Option<seq<Attribute>>)
    ensures ShownAttributes(attributes).Some? <==> attributes.Some? && |attributes.value| > 0
    ensures ShownAttributes(attributes).Some? ==>
      var shown := ShownAttributes(attributes).value;
      && 1 <= |shown| <= 3
      && shown <= attributes.value
      && (|attributes.value| <= 3 ==> shown == attributes.value)
  {
  }

  // ---------------------------------------------------------------------------
  // Flipping

  /** The card's click handler `interactive && setIsFlipped(!isFlipped)`. */
  function AfterClick(interactive: bool, isFlipped: bool): bool
  {
    if interactive then !isFlipped else isFlipped
  }

  /** `n` clicks on the card. */
  function AfterClicks(interactive: bool, isFlipped: bool, n: nat): bool
  {
    if n == 0 then isFlipped else AfterClick(interactive, AfterClicks(interactive, isFlipped, n - 1))
  }

  /** Two clicks restore the side shown; a non-interactive card never changes side. */
  lemma ClickInvolution(interactive: bool, isFlipped: bool)
    ensures AfterClick(interactive, AfterClick(interactive, isFlipped)) == isFlipped
    ensures !interactive ==> AfterClick(interactive, isFlipped) == isFlipped
  {
  }

  /** From the front, an interactive card shows the back after an odd number of clicks. */
  lemma {:induction false} AfterClicksParity(interactive: bool, n: nat)
    ensures AfterClicks(interactive, false, n) <==> interactive && n % 2 == 1
  {
    if n > 0 {
      AfterClicksParity(interactive, n - 1);
    }
  }

  /** The flip and hover flags of one card. */
  class Card {
    const interactive: bool
    var isFlipped: bool
    var isHovered: bool

    /** Only an interactive card is ever turned over. */
    ghost predicate Valid()
      reads this
    {
      !interactive ==> !isFlipped
    }

    /** A new card shows its front, not hovered; `interactive` defaults to true at the call site. */
    constructor (interactive: bool)
      ensures Valid() && this.interactive == interactive && !isFlipped && !isHovered
    {
      this.interactive := interactive;
      isFlipped := false;
      isHovered := false;
    }

    /** A click anywhere on the card, the front "Flip" button included. */
    method Click()
      requires Valid()
      modifies this
      ensures Valid() && isHovered == old(isHovered)
      ensures isFlipped == AfterClick(interactive, old(isFlipped))
    {
      if interactive {
        isFlipped := !isFlipped;
      }
    }

    /**
     * The button on the back: it stops the click from reaching the card, so it
     * always shows the front instead of toggling.
     */
    method BackButtonClick()
      requires Valid()
      modifies this
      ensures Valid() && isHovered == old(isHovered)
      ensures !isFlipped
    {
      isFlipped := false;
    }

    method MouseEnter()
      requires Valid()
      modifies this
      ensures Valid() && isFlipped == old(isFlipped) && isHovered
    {
      isHovered := true;
    }

    method MouseLeave()
      requires Valid()
      modifies this
      ensures Valid() && isFlipped == old(isFlipped) && !isHovered
    {
      isHovered := false;
    }
  }
}
