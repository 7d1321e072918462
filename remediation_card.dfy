/**
 * A remediation technique card: the icon caption picked by the technique's
 * type, and the expanded flag its header toggles.
 */
module RemediationCard {

  datatype TechniqueType = A | B | C

  datatype RemediationTechniqueData = RemediationTechniqueData(
    id: string,
    title: string,
    shortDescription: string,
    fullDescription: string,
    techniqueType: TechniqueType)

  datatype IconConfig = IconConfig(labelText: string, sublabel: string)

  /** The caption of each technique type. */
  function IconConfigFor(t: TechniqueType): (config: IconConfig)
    ensures t == A ==> config == IconConfig("SSH Server", "Bastion")
    ensures t == B ==> config == IconConfig("Firewall", "Edge")
    ensures t == C ==> config == IconConfig("Sensor", "SIEM")
  {
    match t
    case A => IconConfig("SSH Server", "Bastion")
    case B => IconConfig("Firewall", "Edge")
    case C => IconConfig("Sensor", "SIEM")
  }

  /** Different types get different labels, so the caption identifies the type. */
  lemma IconLabelsDistinct(t1: TechniqueType, t2: TechniqueType)
    ensures IconConfigFor(t1).labelText == IconConfigFor(t2).labelText <==> t1 == t2
  {
  }

  class Card {
    const technique: RemediationTechniqueData
    var isExpanded: bool

    constructor (technique: RemediationTechniqueData)
      ensures this.technique == technique
      ensures !isExpanded
    {
      this.technique := technique;
      isExpanded := false;
    }

    function Icon(): (config: IconConfig)
      ensures config == IconConfigFor(technique.techniqueType)
    {
      IconConfigFor(technique.techniqueType)
    }

    method ToggleExpanded()
      modifies this
      ensures isExpanded == !old(isExpanded)
    {
      isExpanded := !isExpanded;
    }
  }

  /** Two toggles restore the expanded flag. */
  method ToggleTwiceRestores(card: Card)
    modifies card
    ensures card.isExpanded == old(card.isExpanded)
  {
    card.ToggleExpanded();
    card.ToggleExpanded();
  }
}
