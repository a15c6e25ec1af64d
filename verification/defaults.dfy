/**
 * The constant tables the calculations consume: the jurisdiction list,
 * the static first-home-benefits table used when no live table is
 * available, the forecast milestone years and the fixed scenario presets.
 */
module Defaults {
  import opened Types

  /** `STATES`: every jurisdiction exactly once, in display order. */
  function States(): (s: seq<AustralianState>)
    ensures |s| == 8
    ensures forall st: AustralianState :: st in s
    ensures forall i, j :: 0 <= i < j < |s| ==> s[i] != s[j]
  {
    var s := [NSW, VIC, QLD, WA, SA, TAS, ACT, NT];
    ListCoversAll(s);
    s
  }

  /** The eight-element display lists every jurisdiction. */
  lemma ListCoversAll(s: seq<AustralianState>)
    requires s == [NSW, VIC, QLD, WA, SA, TAS, ACT, NT]
    ensures forall st: AustralianState :: st in s
  {
    forall st: AustralianState ensures st in s {
      match st
      case NSW => assert s[0] == st;
      case VIC => assert s[1] == st;
      case QLD => assert s[2] == st;
      case WA => assert s[3] == st;
      case SA => assert s[4] == st;
      case TAS => assert s[5] == st;
      case ACT => assert s[6] == st;
      case NT => assert s[7] == st;
    }
  }

  /** `FALLBACK_BENEFITS`: a grant and a duty concession for every jurisdiction. */
  function FallbackBenefits(): (m: map<AustralianState, StateBenefits>)
    ensures forall st: AustralianState :: st in m
    ensures forall st :: st in m ==> m[st].grant >= 0.0 && m[st].stampDutyConcession >= 0.0
  {
    var m := map[
      NSW := StateBenefits(0.0, 37800.0),
      VIC := StateBenefits(10000.0, 31070.0),
      QLD := StateBenefits(30000.0, 8750.0),
      WA  := StateBenefits(10000.0, 19940.0),
      SA  := StateBenefits(15000.0, 21330.0),
      TAS := StateBenefits(30000.0, 20240.0),
      ACT := StateBenefits(0.0, 25400.0),
      NT  := StateBenefits(10000.0, 23928.0)
    ];
    KeysCoverAll(m.Keys);
    m
  }

  /** A set holding each of the eight constructors holds every jurisdiction. */
  lemma KeysCoverAll(keys: set<AustralianState>)
    requires NSW in keys && VIC in keys && QLD in keys && WA in keys
    requires SA in keys && TAS in keys && ACT in keys && NT in keys
    ensures forall st: AustralianState :: st in keys
  {
    forall st: AustralianState ensures st in keys {
      match st
      case NSW => case VIC => case QLD => case WA =>
      case SA => case TAS => case ACT => case NT =>
    }
  }

  /** `MILESTONE_YEARS`: strictly increasing years within a 30-year horizon. */
  function MilestoneYears(): (ys: seq<nat>)
    ensures |ys| == 7
    ensures forall i :: 0 <= i < |ys| ==> 1 <= ys[i] <= 30
    ensures forall i, j :: 0 <= i < j < |ys| ==> ys[i] < ys[j]
    ensures ys[|ys| - 1] == 30
  {
    [1, 5, 10, 15, 20, 25, 30]
  }

  /**
   * One entry of `SCENARIOS`. `growthOverride` is part of the table but no
   * calculation reads it: scenarios always use the shared growth rate.
   */
  datatype Preset = Preset(name: string, priceAdd: real, rateAdd: real, growthOverride: Option<real>)

  /** `SCENARIOS`: the quick-comparison presets, starting with the unperturbed case. */
  function ScenarioPresets(): (ps: seq<Preset>)
    ensures |ps| == 9
    ensures ps[0] == Preset("Current", 0.0, 0.0, None)
    ensures forall i :: 0 <= i < |ps| ==> ps[i].priceAdd >= 0.0 && ps[i].rateAdd >= 0.0
  {
    [
      Preset("Current", 0.0, 0.0, None),
      Preset("+$50K house", 50000.0, 0.0, None),
      Preset("+$100K house", 100000.0, 0.0, None),
      Preset("+1% rate", 0.0, 1.0, None),
      Preset("+2% rate", 0.0, 2.0, None),
      Preset("No growth (flat market)", 0.0, 0.0, Some(0.0)),
      Preset("Value drops 2%/yr", 0.0, 0.0, Some(-2.0)),
      Preset("Value drops 5%/yr", 0.0, 0.0, Some(-5.0)),
      Preset("Worst case (+$100K +2%)", 100000.0, 2.0, None)
    ]
  }
}
