/** The symptom lexicon's record types. The lexicon itself (the
    `symptomDictionary` and `lowRiskDiseaseDictionary` tables) is data the
    engine is given; every operation here takes it as a parameter. */
module Lexicon {

  /** The text path's three-tier vocabulary: 'low' | 'moderate' | 'high'. */
  datatype Tier = Low | Moderate | High {
    /** The ordering high > moderate > low as a number. */
    function Rank(): nat {
      match this
      case Low => 0
      case Moderate => 1
      case High => 2
    }

    function Label(): string {
      match this
      case Low => "low"
      case Moderate => "moderate"
      case High => "high"
    }
  }

  /** A named symptom with its alternate surface forms and intrinsic tier. */
  datatype Symptom = Symptom(name: string, synonyms: seq<string>, riskLevel: Tier)

  /** A low-acuity condition: its symptom list and its guidance block. */
  datatype Disease = Disease(
    name: string,
    symptoms: seq<string>,
    dos: seq<string>,
    donts: seq<string>,
    remedies: seq<string>)
}
