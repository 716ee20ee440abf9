/**
 * The skill cards (src/components/sections/Skills.tsx): each skill group's
 * proficiency percentage is split into three tiers by the thresholds 90 and
 * 75, and the tier picks the card's border and bar gradients, the confidence
 * dot, the confidence badge and, through its own nested comparison, the card
 * label.
 */
module Skills {
  import opened Types
  import opened Sequences
  import Constants

  /** The three bands of the percentage scale the two flags of the card carve out. */
  datatype Tier = High | Mid | Low

  /** `isHigh`: a proficiency of 90 or more. */
  predicate IsHigh(proficiency: int) {
    proficiency >= 90
  }

  /** `isMid`: a proficiency from 75 up to, but not including, 90. */
  predicate IsMid(proficiency: int) {
    proficiency >= 75 && proficiency < 90
  }

  /** The tier the two flags select, in the order the card tests them. */
  function TierOf(proficiency: int): (t: Tier)
    ensures t == High <==> proficiency >= 90
    ensures t == Mid <==> 75 <= proficiency < 90
    ensures t == Low <==> proficiency < 75
  {
    if IsHigh(proficiency) then High
    else if IsMid(proficiency) then Mid
    else Low
  }

  /** Position of a tier on the scale, for comparing tiers. */
  function Rank(t: Tier): nat {
    match t
    case Low => 0
    case Mid => 1
    case High => 2
  }

  /** The two flags never hold together, and below 75 neither holds. */
  lemma FlagsExclusive(proficiency: int)
    ensures !(IsHigh(proficiency) && IsMid(proficiency))
    ensures proficiency < 75 <==> !IsHigh(proficiency) && !IsMid(proficiency)
  {
  }

  /** Raising a proficiency never lowers its tier. */
  lemma TierMonotone(p: int, q: int)
    requires p <= q
    ensures Rank(TierOf(p)) <= Rank(TierOf(q))
  {
  }

  /**
   * The label under the card title, chosen by its own nested comparison
   * (`>= 90`, then `>= 75`) rather than by the flags.
   */
  function CardLabel(proficiency: int): (text: string)
    ensures text == "Core Strength" <==> TierOf(proficiency) == High
    ensures text == "Advanced" <==> TierOf(proficiency) == Mid
    ensures text == "Working Knowledge" <==> TierOf(proficiency) == Low
  {
    if proficiency >= 90 then "Core Strength"
    else if proficiency >= 75 then "Advanced"
    else "Working Knowledge"
  }

  /** The confidence badge text: `isHigh ? 'Expert' : isMid ? 'Strong' : 'Growing'`. */
  function BadgeText(proficiency: int): (text: string)
    ensures text == "Expert" <==> TierOf(proficiency) == High
    ensures text == "Strong" <==> TierOf(proficiency) == Mid
    ensures text == "Growing" <==> TierOf(proficiency) == Low
  {
    if IsHigh(proficiency) then "Expert"
    else if IsMid(proficiency) then "Strong"
    else "Growing"
  }

  /** The glow border gradient of the card. */
  function BorderGradient(proficiency: int): (cls: string)
    ensures cls == "from-blue-500/60 via-purple-500/60 to-pink-500/60" <==> TierOf(proficiency) == High
    ensures cls == "from-blue-500/40 to-purple-500/40" <==> TierOf(proficiency) == Mid
    ensures cls == "from-slate-600 to-slate-700" <==> TierOf(proficiency) == Low
  {
    if IsHigh(proficiency) then "from-blue-500/60 via-purple-500/60 to-pink-500/60"
    else if IsMid(proficiency) then "from-blue-500/40 to-purple-500/40"
    else "from-slate-600 to-slate-700"
  }

  /** The gradient of the proficiency bar. */
  function BarGradient(proficiency: int): (cls: string)
    ensures cls == "from-blue-500 via-purple-500 to-pink-500" <==> TierOf(proficiency) == High
    ensures cls == "from-blue-500 to-purple-500" <==> TierOf(proficiency) == Mid
    ensures cls == "from-slate-500 to-slate-400" <==> TierOf(proficiency) == Low
  {
    if IsHigh(proficiency) then "from-blue-500 via-purple-500 to-pink-500"
    else if IsMid(proficiency) then "from-blue-500 to-purple-500"
    else "from-slate-500 to-slate-400"
  }

  /** The colour of the dot beside the badge text. */
  function DotColor(proficiency: int): (cls: string)
    ensures cls == "bg-green-400" <==> TierOf(proficiency) == High
    ensures cls == "bg-amber-300" <==> TierOf(proficiency) == Mid
    ensures cls == "bg-slate-400" <==> TierOf(proficiency) == Low
  {
    if IsHigh(proficiency) then "bg-green-400"
    else if IsMid(proficiency) then "bg-amber-300"
    else "bg-slate-400"
  }

  /** The styling a card receives: border, bar, dot and badge together. */
  datatype CardStyle = CardStyle(border: string, bar: string, dot: string, badge: string)

  function StyleOf(proficiency: int): CardStyle {
    CardStyle(BorderGradient(proficiency), BarGradient(proficiency), DotColor(proficiency), BadgeText(proficiency))
  }

  /**
   * Two cards look alike exactly when their proficiencies share a tier: each
   * of the border, the bar, the dot and the badge tells the tiers apart.
   */
  lemma StyleIsTier(p: int, q: int)
    ensures StyleOf(p) == StyleOf(q) <==> TierOf(p) == TierOf(q)
    ensures BorderGradient(p) == BorderGradient(q) <==> TierOf(p) == TierOf(q)
    ensures BarGradient(p) == BarGradient(q) <==> TierOf(p) == TierOf(q)
    ensures DotColor(p) == DotColor(q) <==> TierOf(p) == TierOf(q)
  {
  }

  /** The label and the badge always describe the same tier. */
  lemma LabelAgreesWithBadge(proficiency: int)
    ensures CardLabel(proficiency) == "Core Strength" <==> BadgeText(proficiency) == "Expert"
    ensures CardLabel(proficiency) == "Advanced" <==> BadgeText(proficiency) == "Strong"
    ensures CardLabel(proficiency) == "Working Knowledge" <==> BadgeText(proficiency) == "Growing"
  {
  }

  /** The tier of each skill group, in the order the cards are drawn. */
  function Tiers(groups: seq<Skill>): seq<Tier> {
    Map(groups, (s: Skill) => TierOf(s.proficiency))
  }

  /**
   * On the site's data: Frontend and Blockchain (exactly 90, the boundary)
   * are high, the other four are mid, and no card reads "Working Knowledge".
   */
  lemma SiteTiers()
    ensures Tiers(Constants.SKILLS) == [High, Mid, High, Mid, Mid, Mid]
    ensures forall s :: s in Constants.SKILLS ==> CardLabel(s.proficiency) != "Working Knowledge"
  {
    var ts := Tiers(Constants.SKILLS);
    forall i | 0 <= i < |ts|
      ensures ts[i] == TierOf(Constants.SKILLS[i].proficiency)
    {
    }
    assert ts[2] == TierOf(90);
  }
}
