/**
 * The mode table: for each operating mode, the message templates the trainee
 * and the simulated station send, the flags that drive the session logic, and
 * the flags that drive the page layout. The table is data; the session looks a
 * mode up here instead of branching on the mode's name.
 */
module Modes {
  import opened Common
  import opened Stations

  datatype Mode = Single | Pota | Contest | Sst | Cwt | TroubledLetters

  /** The station attributes the TU step can check against the trainee's entries. */
  datatype FieldKey = StateKey | NameKey | CwopsNumberKey | SerialNumberKey

  /** The non-template entries of one mode in `modeLogicConfig`. */
  datatype LogicConfig = LogicConfig(
    requiresInfoField: bool,
    requiresInfoField2: bool,
    showTuStep: bool,
    modeName: string,
    extraInfoFieldKey: Option<FieldKey>,
    extraInfoFieldKey2: Option<FieldKey>)

  /** The boolean and text entries of one mode in `modeUIConfig` (contest prefix weights excluded). */
  datatype UIConfig = UIConfig(
    showTuButton: bool,
    showInfoField: bool,
    infoFieldPlaceholder: string,
    showInfoField2: bool,
    infoField2Placeholder: string,
    tableExtraColumn: bool,
    extraColumnHeader: string,
    resultsHeader: string)

  /**
   * `modeLogicConfig[m]` without its templates. Exactly POTA, SST and CWT have a
   * TU step; a mode without one checks no station attribute; a required info
   * field always names the attribute it is checked against.
   */
  function Logic(m: Mode): (c: LogicConfig)
    ensures c.showTuStep <==> m == Pota || m == Sst || m == Cwt
    ensures !c.showTuStep ==> c.extraInfoFieldKey == None && c.extraInfoFieldKey2 == None
    ensures c.requiresInfoField ==> c.extraInfoFieldKey.Some?
    ensures c.requiresInfoField2 ==> c.extraInfoFieldKey2.Some?
  {
    match m
    case Single => LogicConfig(false, false, false, "Single", None, None)
    case Pota => LogicConfig(true, false, true, "POTA", Some(StateKey), None)
    case Contest => LogicConfig(false, false, false, "Contest", None, None)
    case Sst => LogicConfig(true, true, true, "SST", Some(NameKey), Some(StateKey))
    case Cwt => LogicConfig(true, true, true, "CWT", Some(NameKey), Some(CwopsNumberKey))
    case TroubledLetters => LogicConfig(false, false, false, "Troubled Letters", None, None)
  }

  /**
   * `modeUIConfig[m]`. The page shows the TU button exactly when the mode has a
   * TU step, and shows each info field exactly when the logic requires it.
   */
  function UI(m: Mode): (c: UIConfig)
    ensures c.showTuButton == Logic(m).showTuStep
    ensures c.showInfoField == Logic(m).requiresInfoField
    ensures c.showInfoField2 == Logic(m).requiresInfoField2
    ensures c.tableExtraColumn == Logic(m).showTuStep
  {
    match m
    case Single => UIConfig(false, false, "", false, "", false, "", "Single Mode Results")
    case Contest => UIConfig(false, false, "", false, "", false, "", "Contest Mode Results")
    case Pota => UIConfig(true, true, "State", false, "", true, "State", "POTA Mode Results")
    case Sst => UIConfig(true, true, "Name", true, "State", true, "Additional Info", "SST Mode Results")
    case Cwt => UIConfig(true, true, "Name", true, "CW Ops No.", true, "Additional Info", "CWT Mode Results")
    case TroubledLetters =>
      UIConfig(false, false, "", false, "", false, "", "Troubled Letters Mode Results")
  }

  /** Modes where several stations call at once and CQ brings more of them. */
  predicate IsMultiStation(m: Mode)
  {
    Logic(m).showTuStep || m == Contest
  }

  /** How a template literal renders its `arbitrary` argument: `null` prints as "null". */
  function Arbitrary(a: Option<string>): string
  {
    match a
    case Some(s) => s
    case None => "null"
  }

  /** The `cqMessage` template. */
  function CqMessage(m: Mode, you: Station): string
  {
    match m
    case Single => "CQ DE " + you.callsign + " K"
    case Pota => "CQ POTA DE " + you.callsign
    case Contest => "W"
    case Sst => "CQ SST " + you.callsign
    case Cwt => "CQ CWT " + you.callsign
    case TroubledLetters => ""
  }

  /** The `yourExchange` template. */
  function YourExchange(m: Mode, you: Station, them: Station): string
  {
    match m
    case Single => "5NN"
    case Pota => "UR 5NN <BK>"
    case Contest => "5NN"
    case Sst => you.name + " " + you.state
    case Cwt => you.name + " CWA"
    case TroubledLetters => ""
  }

  /** The `theirExchange` template. */
  function TheirExchange(m: Mode, you: Station, them: Station): string
  {
    match m
    case Single => "R 5NN TU"
    case Pota => "<BK> UR 5NN " + them.state + " " + them.state + " <BK>"
    case Contest => "EE"
    case Sst => "TU " + you.name + " " + them.name + " " + them.state
    case Cwt => them.name + " " + NatToString(them.cwopsNumber) + " TU"
    case TroubledLetters => "R"
  }

  /** The `yourSignoff` template. */
  function YourSignoff(m: Mode, you: Station, them: Station, arbitrary: Option<string>): string
  {
    match m
    case Single => "TU EE"
    case Pota => "<BK> TU " + Arbitrary(arbitrary) + " 73 EE"
    case Contest => ""
    case Sst => "GL " + Arbitrary(arbitrary) + " TU " + you.callsign + " SST"
    case Cwt => "TU " + you.callsign
    case TroubledLetters => ""
  }

  /**
   * The `theirSignoff` template; `None` where the table holds `null` instead of
   * a function, which is the case exactly for contest, SST, CWT and troubled letters.
   */
  function TheirSignoff(m: Mode, you: Station, them: Station): (r: Option<string>)
    ensures r.None? <==> m == Contest || m == Sst || m == Cwt || m == TroubledLetters
  {
    match m
    case Single => Some("EE")
    case Pota => Some("EE")
    case _ => None
  }

  /** The attributes the TU step checks, per mode. */
  lemma FieldKeysPerMode()
    ensures Logic(Pota).extraInfoFieldKey == Some(StateKey) && Logic(Pota).extraInfoFieldKey2 == None
    ensures Logic(Sst).extraInfoFieldKey == Some(NameKey) && Logic(Sst).extraInfoFieldKey2 == Some(StateKey)
    ensures Logic(Cwt).extraInfoFieldKey == Some(NameKey)
    ensures Logic(Cwt).extraInfoFieldKey2 == Some(CwopsNumberKey)
  {
  }

  /**
   * Single mode calls CQ with the trainee's callsign, and everything else it
   * sends is fixed text that does not depend on either station.
   */
  lemma SingleModeTemplates(y1: Station, t1: Station, y2: Station, t2: Station, a1: Option<string>, a2: Option<string>)
    ensures CqMessage(Single, y1) == "CQ DE " + y1.callsign + " K"
    ensures YourExchange(Single, y1, t1) == YourExchange(Single, y2, t2)
    ensures TheirExchange(Single, y1, t1) == TheirExchange(Single, y2, t2)
    ensures YourSignoff(Single, y1, t1, a1) == YourSignoff(Single, y2, t2, a2)
    ensures TheirSignoff(Single, y1, t1) == TheirSignoff(Single, y2, t2)
  {
  }

  /** The POTA station sends its state twice in its exchange. */
  lemma PotaExchangeRepeatsState(you: Station, them: Station)
    ensures var s, n := TheirExchange(Pota, you, them), |them.state|;
            |s| == 2 * n + 18 && s[12..12 + n] == them.state && s[13 + n..13 + 2 * n] == them.state
  {
  }

  /** The POTA and SST sign-offs carry the `arbitrary` argument (the entered state or name) verbatim. */
  lemma SignoffsEmbedArbitrary(you: Station, them: Station, a: string)
    ensures var s := YourSignoff(Pota, you, them, Some(a)); |s| >= 8 + |a| && s[8..8 + |a|] == a
    ensures var s := YourSignoff(Sst, you, them, Some(a)); |s| >= 3 + |a| && s[3..3 + |a|] == a
  {
  }
}
