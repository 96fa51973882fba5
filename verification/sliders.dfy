/** The five adjustment sliders derived from the traits and two lifestyle
    answers (`Big5Calculator.lifestyleToAdjustments`). Both generator copies
    carry the same formulas, so one definition models both. Arithmetic is on
    `real`; the sources compute in IEEE doubles. */
module Sliders {
  import opened Common
  import opened Profiles

  /** The five linear formulas before normalisation. Dominance gains 20 for a
      "business" career and 15 for a "direct" communication style. */
  function Unclamped(b: Big5, l: Lifestyle): Adjustments {
    var e, o, c := b.extraversion as real, b.openness as real, b.conscientiousness as real;
    var a, n := b.agreeableness as real, b.neuroticism as real;
    Adjustments(
      (e * 0.4 + c * 0.4) * 0.6
        + (if l.career == Some("business") then 20.0 else 0.0)
        + (if l.communicationStyle == Some("direct") then 15.0 else 0.0),
      o * 0.5 + n * 0.3,
      a * 0.8 - n * 0.3,
      c * 0.3 + o * 0.4,
      e * 0.7 - n * 0.4)
  }

  function Clamp100(x: real): real {
    ClampReal(x, 0.0, 100.0)
  }

  /** `lifestyleToAdjustments`: every slider lands in [0, 100]. For traits in
      range the clamp can only bite from below, and only on the two sliders
      that subtract neuroticism; the other three are their formulas exactly. */
  function LifestyleToAdjustments(b: Big5, l: Lifestyle): (r: Adjustments)
    ensures r.InRange()
    ensures b.InRange() ==>
      var u := Unclamped(b, l);
      && r.dominanceLevel == u.dominanceLevel
      && r.intensityLevel == u.intensityLevel
      && r.experience == u.experience
      && r.emotionalDepth == MaxReal(0.0, u.emotionalDepth)
      && r.publicness == MaxReal(0.0, u.publicness)
  {
    var u := Unclamped(b, l);
    assert b.InRange() ==>
      && 0 <= b.Get(Extraversion) <= 100 && 0 <= b.Get(Openness) <= 100
      && 0 <= b.Get(Conscientiousness) <= 100 && 0 <= b.Get(Agreeableness) <= 100
      && 0 <= b.Get(Neuroticism) <= 100;
    Adjustments(
      Clamp100(u.dominanceLevel),
      Clamp100(u.intensityLevel),
      Clamp100(u.emotionalDepth),
      Clamp100(u.experience),
      Clamp100(u.publicness))
  }

  /** The lifestyle enters only through `career` and `communicationStyle`. */
  lemma OnlyCareerAndCommunicationMatter(b: Big5, l1: Lifestyle, l2: Lifestyle)
    requires l1.career == l2.career && l1.communicationStyle == l2.communicationStyle
    ensures LifestyleToAdjustments(b, l1) == LifestyleToAdjustments(b, l2)
  {
  }

  /** For traits in range, dominance is exactly the trait term plus 20 for a
      "business" career plus 15 for a "direct" communication style; the other
      four sliders ignore the lifestyle. */
  lemma DominanceBonuses(b: Big5, l: Lifestyle)
    requires b.InRange()
    ensures LifestyleToAdjustments(b, l).dominanceLevel
            == LifestyleToAdjustments(b, NoLifestyle).dominanceLevel
               + (if l.career == Some("business") then 20.0 else 0.0)
               + (if l.communicationStyle == Some("direct") then 15.0 else 0.0)
    ensures LifestyleToAdjustments(b, l).intensityLevel == LifestyleToAdjustments(b, NoLifestyle).intensityLevel
    ensures LifestyleToAdjustments(b, l).emotionalDepth == LifestyleToAdjustments(b, NoLifestyle).emotionalDepth
    ensures LifestyleToAdjustments(b, l).experience == LifestyleToAdjustments(b, NoLifestyle).experience
    ensures LifestyleToAdjustments(b, l).publicness == LifestyleToAdjustments(b, NoLifestyle).publicness
  {
  }

  /** More openness never lowers intensity or experience; more neuroticism
      never raises emotional depth or publicness. */
  lemma Monotone(b: Big5, l: Lifestyle, d: int)
    requires d >= 0
    ensures var up := b.(openness := b.openness + d);
      && LifestyleToAdjustments(b, l).intensityLevel <= LifestyleToAdjustments(up, l).intensityLevel
      && LifestyleToAdjustments(b, l).experience <= LifestyleToAdjustments(up, l).experience
    ensures var up := b.(neuroticism := b.neuroticism + d);
      && LifestyleToAdjustments(up, l).emotionalDepth <= LifestyleToAdjustments(b, l).emotionalDepth
      && LifestyleToAdjustments(up, l).publicness <= LifestyleToAdjustments(b, l).publicness
  {
  }

  /** The neutral traits and an empty questionnaire give 24/40/25/35/15. */
  lemma NeutralSliders()
    ensures LifestyleToAdjustments(Neutral, NoLifestyle) == Adjustments(24.0, 40.0, 25.0, 35.0, 15.0)
  {
    var u := Unclamped(Neutral, NoLifestyle);
    assert u == Adjustments(24.0, 40.0, 25.0, 35.0, 15.0);
  }

  /** Publicness reaches 0 inside the valid trait range, e.g. for an average
      extraversion and a neuroticism of 88 or more. */
  lemma PublicnessCanBeZero(b: Big5, l: Lifestyle)
    requires b.InRange() && b.extraversion == 50 && b.neuroticism >= 88
    ensures LifestyleToAdjustments(b, l).publicness == 0.0
  {
  }
}
