/**
 * Simulated stations as the session sees them. A station is an object: the
 * session keeps references to it in several lists at once and a QRS request
 * changes its Farnsworth settings in place, so every list that holds it sees
 * the change. A JavaScript array of stations is itself an object (StationList)
 * because the session shares one array between two variables.
 */
module Stations {
  import opened Common

  /** `farnsworthLowerBy`: how many WPM one QRS request takes off the Farnsworth speed. */
  const FarnsworthLowerBy: int := 6

  /** The lowest Farnsworth speed a QRS request lowers an already slowed station to. */
  const FarnsworthFloor: int := 5

  /**
   * The attributes the station generator hands out for one new station. The
   * generator itself is not part of this model: the session receives its draws.
   */
  datatype StationDraw = StationDraw(
    callsign: string,
    wpm: int,
    enableFarnsworth: bool,
    farnsworthSpeed: int,
    name: string,
    state: string,
    cwopsNumber: nat,
    serialNumber: nat)

  class Station {
    const callsign: string
    const wpm: int
    const name: string
    const state: string
    const cwopsNumber: nat
    const serialNumber: nat
    var enableFarnsworth: bool
    var farnsworthSpeed: int

    /** The station carries exactly the attributes of the draw. */
    predicate Matches(d: StationDraw)
      reads this
    {
      && callsign == d.callsign && wpm == d.wpm && name == d.name && state == d.state
      && cwopsNumber == d.cwopsNumber && serialNumber == d.serialNumber
      && enableFarnsworth == d.enableFarnsworth && farnsworthSpeed == d.farnsworthSpeed
    }

    constructor (d: StationDraw)
      ensures Matches(d)
    {
      callsign, wpm, name, state := d.callsign, d.wpm, d.name, d.state;
      cwopsNumber, serialNumber := d.cwopsNumber, d.serialNumber;
      enableFarnsworth, farnsworthSpeed := d.enableFarnsworth, d.farnsworthSpeed;
    }

    /** One QRS request on this station (the body of the QRS `forEach`). */
    method SlowDown()
      modifies this
      ensures enableFarnsworth
      ensures farnsworthSpeed == QrsSpeed(old(enableFarnsworth), old(farnsworthSpeed), wpm)
    {
      if enableFarnsworth {
        farnsworthSpeed := Max(FarnsworthFloor, farnsworthSpeed - FarnsworthLowerBy);
      } else {
        enableFarnsworth := true;
        farnsworthSpeed := wpm - FarnsworthLowerBy;
      }
    }
  }

  /**
   * The Farnsworth speed after one QRS request: lowered by six with a floor of
   * five when Farnsworth spacing is already on, otherwise six below the
   * character speed with no floor.
   */
  function QrsSpeed(enabled: bool, speed: int, wpm: int): int
  {
    if enabled then Max(FarnsworthFloor, speed - FarnsworthLowerBy) else wpm - FarnsworthLowerBy
  }

  /** The speed part of the logged "wpm / farnsworth" column: present only when Farnsworth is on. */
  function ShownFarnsworth(s: Station): Option<int>
    reads s
  {
    if s.enableFarnsworth then Some(s.farnsworthSpeed) else None
  }

  /** The Farnsworth speed after `n` QRS requests on a station whose Farnsworth spacing is on. */
  function QrsRepeated(n: nat, speed: int, wpm: int): int
  {
    if n == 0 then speed else QrsSpeed(true, QrsRepeated(n - 1, speed, wpm), wpm)
  }

  /** Repeated QRS on a slowed station takes six off per request and settles at five. */
  lemma {:induction false} QrsRepeatedSettlesAtFloor(n: nat, speed: int, wpm: int)
    requires speed >= FarnsworthFloor
    ensures QrsRepeated(n, speed, wpm) == Max(FarnsworthFloor, speed - FarnsworthLowerBy * n)
  {
    if n > 0 {
      QrsRepeatedSettlesAtFloor(n - 1, speed, wpm);
    }
  }

  /** A slowed station never goes below five WPM through QRS, and never speeds up while above it. */
  lemma QrsOnSlowedStation(speed: int, wpm: int)
    ensures QrsSpeed(true, speed, wpm) >= FarnsworthFloor
    ensures speed >= FarnsworthFloor ==> QrsSpeed(true, speed, wpm) <= speed
  {
  }

  /**
   * The first QRS has no floor: a 20 WPM station goes to 14, then 8, then 5
   * and stays there, but an 8 WPM station is set to 2 and the next QRS raises
   * it back to 5.
   */
  lemma QrsScenarios()
    ensures QrsSpeed(false, 0, 20) == 14 && QrsSpeed(true, 14, 20) == 8
    ensures QrsSpeed(true, 8, 20) == 5 && QrsSpeed(true, 5, 20) == 5
    ensures QrsSpeed(false, 0, 8) == 2 && QrsSpeed(true, 2, 8) == 5
  {
  }

  /** A JavaScript array of stations; two session variables may hold the same one. */
  class StationList {
    var items: seq<Station>

    constructor (items: seq<Station>)
      ensures this.items == items
    {
      this.items := items;
    }
  }

  /** `made` are new stations, one per draw, in draw order. */
  twostate predicate Made(new made: seq<Station>, draws: seq<StationDraw>)
    reads made
  {
    && |made| == |draws|
    && forall k :: 0 <= k < |draws| ==> fresh(made[k]) && made[k].Matches(draws[k])
  }

  /** `after` is `before` with one new station per draw appended, in draw order. */
  twostate predicate Appended(before: seq<Station>, new after: seq<Station>, draws: seq<StationDraw>)
    reads after
  {
    && |before| <= |after|
    && after[..|before|] == before
    && Made(after[|before|..], draws)
  }

  /** Pushes one newly generated station per draw (the refill loops and `addStations`). */
  method AppendStations(list: StationList, draws: seq<StationDraw>)
    modifies list
    ensures Appended(old(list.items), list.items, draws)
    ensures Distinct(old(list.items)) ==> Distinct(list.items)
  {
    ghost var before := list.items;
    ghost var made: seq<Station> := [];
    for k := 0 to |draws|
      invariant list.items == before + made && |made| == k
      invariant forall j :: 0 <= j < k ==> fresh(made[j]) && made[j].Matches(draws[j])
      invariant Distinct(before) ==> Distinct(list.items)
    {
      var s := new Station(draws[k]);
      list.items := list.items + [s];
      made := made + [s];
    }
    assert list.items[|before|..] == made;
  }

  /** The QRS `forEach` over the stations that responded last. */
  method SlowDownAll(stations: seq<Station>)
    requires Distinct(stations)
    modifies stations
    ensures forall k :: 0 <= k < |stations| ==>
              && stations[k].enableFarnsworth
              && stations[k].farnsworthSpeed
                 == QrsSpeed(old(stations[k].enableFarnsworth), old(stations[k].farnsworthSpeed), stations[k].wpm)
  {
    for i := 0 to |stations|
      invariant forall k :: 0 <= k < i ==>
                  && stations[k].enableFarnsworth
                  && stations[k].farnsworthSpeed
                     == QrsSpeed(old(stations[k].enableFarnsworth), old(stations[k].farnsworthSpeed), stations[k].wpm)
      invariant forall k :: i <= k < |stations| ==> unchanged(stations[k])
    {
      stations[i].SlowDown();
    }
  }
}
