/**
 * The trainer's session controller: the state the page keeps between button
 * presses, and the command handlers cq, send, tu, stop, reset and changeMode.
 *
 * What a handler asks of other parts of the page (the audio clock and the end
 * times the audio engine reports, the settings form, the station generator,
 * `compareStrings`, `Math.random`, `addStations`) arrives in an `Env` value.
 * What a handler hands to the audio engine comes back as a list of cues. A
 * handler that would throw a TypeError in the browser stops at that point
 * here, keeping every change it made before it.
 */
module Session {
  import opened Common
  import opened Stations
  import opened Modes
  import opened Exchange

  /** The settings `getInputs` reads from the form. */
  datatype Inputs = Inputs(minStations: nat, enableCutNumbers: bool, cutNumbers: map<char, string>)

  /** One row of the results table. */
  datatype Contact = Contact(
    number: nat,
    callsign: string,
    wpm: int,
    farnsworth: Option<int>,   // shown after a slash when Farnsworth spacing is on
    attempts: nat,
    elapsed: real,             // audio-clock seconds since the station's start time
    extra: seq<FieldOutcome>)  // the TU step's field verdicts; empty in single and contest modes

  /** Everything a command receives from outside the controller. */
  datatype Env = Env(
    now: real,                            // `audioContext.currentTime` while the handler runs
    finish: real,                         // the end time of the last `updateAudioLock` call it makes
    classify: (string, string) -> Match,  // `compareStrings(callsign, entry)`
    settings: Option<Inputs>,             // `getInputs()`; `None` when the form is invalid
    yours: StationDraw,                   // `getYourStation()`
    spawn: nat -> StationDraw,            // the i-th `getCallingStation()` of this command
    joiners: seq<StationDraw>,            // the stations `addStations` creates
    joins: bool)                          // `Math.random() < 0.4`

  /** The first `n` draws of the station generator, in order. */
  function Draws(spawn: nat -> StationDraw, n: nat): (r: seq<StationDraw>)
    ensures |r| == n
    ensures forall i :: 0 <= i < n ==> r[i] == spawn(i)
  {
    if n == 0 then [] else Draws(spawn, n - 1) + [spawn(n - 1)]
  }

  /**
   * The stations a CQ brings in a multi-station mode: exactly the minimum when
   * none is active and the minimum is positive, otherwise what `addStations` adds.
   */
  function CqDraws(active: nat, inp: Inputs, env: Env): seq<StationDraw>
  {
    if active == 0 && inp.minStations > 0 then Draws(env.spawn, inp.minStations) else env.joiners
  }

  /**
   * The stations added after a contact leaves `active` stations: enough to get
   * back to the minimum, or else, with probability 0.4, what `addStations` adds.
   */
  function RefillDraws(active: nat, inp: Inputs, env: Env): seq<StationDraw>
  {
    if active < inp.minStations then Draws(env.spawn, inp.minStations - active)
    else if env.joins then env.joiners
    else []
  }

  /**
   * After a contact the pool holds at least the minimum number of stations, and
   * it is topped up to exactly the minimum when it fell below it.
   */
  lemma RefillReachesMinimum(active: nat, inp: Inputs, env: Env)
    ensures active + |RefillDraws(active, inp, env)| >= inp.minStations
    ensures active < inp.minStations ==> active + |RefillDraws(active, inp, env)| == inp.minStations
    ensures active >= inp.minStations && !env.joins ==> RefillDraws(active, inp, env) == []
  {
  }

  /** The first CQ into an empty pool brings exactly the minimum number of stations. */
  lemma FirstCqBringsMinimum(inp: Inputs, env: Env)
    requires inp.minStations > 0
    ensures |CqDraws(0, inp, env)| == inp.minStations
  {
  }

  /** `stations.splice(k, 1)`: the station at `k` leaves and the others keep their order. */
  function Removed(s: seq<Station>, k: nat): (r: seq<Station>)
    requires k < |s|
    ensures |r| == |s| - 1
    ensures forall i :: 0 <= i < |r| ==> r[i] == if i < k then s[i] else s[i + 1]
    ensures Distinct(s) ==> Distinct(r) && s[k] !in r
  {
    s[..k] + s[k + 1..]
  }

  /** A start time in a subtraction: JavaScript's `null` counts as 0. */
  function Start(t: Option<real>): real
  {
    match t
    case Some(v) => v
    case None => 0.0
  }

  /**
   * The TU step's field verdicts: the first field against the mode's first key,
   * and the second field against the second key when the mode requires it.
   */
  function TuOutcomes(m: Mode, v1: string, v2: string, st: Station): (r: seq<FieldOutcome>)
    ensures |r| == if Logic(m).requiresInfoField2 then 2 else 1
    ensures Logic(m).showTuStep ==> r[0] != Blank
  {
    var c := Logic(m);
    [CompareExtraInfo(c.extraInfoFieldKey, v1, st)]
      + (if c.requiresInfoField2 && c.extraInfoFieldKey2.Some? then [CompareExtraInfo(c.extraInfoFieldKey2, v2, st)] else [])
  }

  /** POTA checks the state; SST checks name and state; CWT checks name and CWops number. */
  lemma TuChecksPerMode(v1: string, v2: string, st: Station)
    ensures TuOutcomes(Pota, v1, v2, st) == [CompareExtraInfo(Some(StateKey), v1, st)]
    ensures TuOutcomes(Sst, v1, v2, st)
            == [CompareExtraInfo(Some(NameKey), v1, st), CompareExtraInfo(Some(StateKey), v2, st)]
    ensures TuOutcomes(Cwt, v1, v2, st)
            == [CompareExtraInfo(Some(NameKey), v1, st), CompareExtraInfo(Some(CwopsNumberKey), v2, st)]
  {
    FieldKeysPerMode();
    assert !Logic(Pota).requiresInfoField2 && Logic(Sst).requiresInfoField2 && Logic(Cwt).requiresInfoField2;
  }

  /** The `arbitrary` argument of the trainee's TU sign-off: the first field in SST and POTA, else null. */
  function TuArbitrary(m: Mode, v1: string): Option<string>
  {
    if m == Sst || m == Pota then Some(v1) else None
  }

  /** The sign-off of the TU step; a null `theirSignoff` ends the contact after the trainee's part. */
  function TuSignoff(m: Mode, you: Station, st: Station, v1: string): seq<Cue>
  {
    [YouSay(YourSignoff(m, you, st, TuArbitrary(m, v1)))]
      + match TheirSignoff(m, you, st)
        case Some(s) => [StationSays(st, s)]
        case None => []
  }

  /**
   * The controller's scalar variables (the module-level `let`s of the page
   * script). A command computes their new values and stores them at once.
   */
  datatype Vars = Vars(
    mode: Mode,                       // `currentMode`
    inputs: Option<Inputs>,           // `inputs`
    currentStation: Station?,         // the station calling in a single-station mode
    activeStationIndex: Option<nat>,  // the station selected for the TU step
    readyForTU: bool,
    attempts: nat,                    // `currentStationAttempts`
    startTime: Option<real>,          // `currentStationStartTime`
    totalContacts: nat,
    you: Station?,                    // `yourStation`
    audioLock: real,                  // the time until which the audio lock is held
    results: seq<Contact>)            // the rows of the results table

  /** Every station in `ss` took one QRS request. */
  twostate predicate SlowedAll(ss: seq<Station>)
    reads ss
  {
    forall k :: 0 <= k < |ss| ==>
      && ss[k].enableFarnsworth
      && ss[k].farnsworthSpeed == QrsSpeed(old(ss[k].enableFarnsworth), old(ss[k].farnsworthSpeed), ss[k].wpm)
  }

  /** No station in `ss` changed. */
  twostate predicate Untouched(ss: seq<Station>)
    reads ss
  {
    forall k :: 0 <= k < |ss| ==> unchanged(ss[k])
  }

  /** None of the station objects `send` may change did change: the last responders `last` and the single-mode station `cs`. */
  twostate predicate StationsKept(last: seq<Station>, cs: Station?)
    reads last, cs
  {
    Untouched(last) && (cs != null ==> unchanged(cs))
  }

  class Session {
    var vars: Vars
    var currentStations: StationList  // `currentStations`: the stations calling in a multi-station mode
    var lastResponding: StationList?  // `lastRespondingStations`

    /**
     * A TU is pending exactly when a station is selected, only in a mode with a
     * TU step, and the selection is a calling station; single-station and
     * multi-station state never mix; whoever calls has heard the trainee's CQ;
     * the station calling in a single-station mode is not among the last
     * responders of an earlier multi-station run; no station is listed twice; and the table numbers its rows 1, 2, 3, ...
     * up to the contact count.
     */
    ghost predicate Valid()
      reads this, currentStations, lastResponding
    {
      var v := vars;
      && (v.readyForTU <==> v.activeStationIndex.Some?)
      && (v.readyForTU ==> v.activeStationIndex.value < |currentStations.items| && Logic(v.mode).showTuStep)
      && (IsMultiStation(v.mode) ==> v.currentStation == null)
      && (!IsMultiStation(v.mode) ==> currentStations.items == [])
      && (currentStations.items != [] ==> lastResponding != null && v.you != null)
      && (v.currentStation != null ==> v.you != null)
      && (v.currentStation != null && lastResponding != null ==> v.currentStation !in lastResponding.items)
      && Distinct(currentStations.items)
      && (lastResponding != null ==> Distinct(lastResponding.items))
      && v.totalContacts == |v.results|
      && forall i :: 0 <= i < |v.results| ==> v.results[i].number == i + 1
    }

    /** `getAudioLock()`: audio is scheduled past `now`, so a command is refused. */
    predicate Busy(now: real)
      reads this
    {
      now < vars.audioLock
    }

    /** The stations that answered last (none when `lastRespondingStations` is null). */
    function LastItems(): seq<Station>
      reads this, lastResponding
    {
      if lastResponding == null then [] else lastResponding.items
    }

    /** The calling stations are the same array holding the same stations. */
    twostate predicate SamePool()
      reads this, currentStations
    {
      currentStations == old(currentStations) && currentStations.items == old(currentStations.items)
    }

    /** Neither station array nor the variables changed. */
    twostate predicate NoChange()
      reads this, currentStations
    {
      vars == old(vars) && SamePool() && lastResponding == old(lastResponding)
    }

    /** The state when the page has loaded in mode `m`. */
    constructor (m: Mode)
      ensures Valid() && fresh(currentStations) && currentStations.items == [] && lastResponding == null
      ensures vars == Vars(m, None, null, None, false, 0, None, 0, null, 0.0, [])
    {
      vars := Vars(m, None, null, None, false, 0, None, 0, null, 0.0, []);
      currentStations := new StationList([]);
      lastResponding := null;
    }

    /** What `cq` does. */
    twostate predicate CqDone(env: Env, new cues: seq<Cue>)
      reads this, currentStations, currentStations.items, vars.currentStation, vars.you
    {
      var v := old(vars);
      if old(Busy(env.now)) || (!IsMultiStation(v.mode) && v.currentStation != null) then
        NoChange() && cues == []
      else if env.settings.None? then
        vars == v.(inputs := None) && SamePool() && lastResponding == old(lastResponding) && cues == []
      else if IsMultiStation(v.mode) then
        PoolCalled(env, cues)
      else
        StationCalled(env, cues)
    }

    /**
     * A CQ in a multi-station mode: the trainee's station is made from the
     * settings, stations join the pool and every station in it answers.
     */
    twostate predicate PoolCalled(env: Env, new cues: seq<Cue>)
      reads this, currentStations, currentStations.items, vars.you
    {
      var v := old(vars);
      var you := vars.you;
      && env.settings.Some?
      && you != null && fresh(you) && you.Matches(env.yours)
      && currentStations == old(currentStations)
      && Appended(old(currentStations.items), currentStations.items,
                  CqDraws(|old(currentStations.items)|, env.settings.value, env))
      && lastResponding == currentStations
      && vars == v.(inputs := env.settings, you := you, audioLock := env.finish)
      && cues == [YouSay(CqMessage(v.mode, you)), AllRespond(currentStations.items)]
    }

    /** A CQ in a single-station mode: the trainee's station is made and the next station calls. */
    twostate predicate StationCalled(env: Env, new cues: seq<Cue>)
      reads this, currentStations, vars.currentStation, vars.you
    {
      var v := old(vars);
      var you := vars.you;
      var cs := vars.currentStation;
      && you != null && fresh(you) && you.Matches(env.yours)
      && cs != null && fresh(cs) && cs.Matches(env.spawn(0))
      && SamePool() && lastResponding == old(lastResponding)
      && vars == v.(inputs := env.settings, you := you, currentStation := cs, attempts := 0,
                    startTime := Some(env.finish), audioLock := env.finish)
      && cues == [YouSay(CqMessage(v.mode, you)), StationSays(cs, cs.callsign)]
    }

    /**
     * `cq`: refused while audio plays and, in a single-station mode, while a
     * station is calling; otherwise reads the settings (stopping when they are
     * invalid), makes the trainee's station and calls CQ. In a multi-station
     * mode more stations join and all of them answer; in a single-station mode
     * the next station calls.
     */
    method Cq(env: Env) returns (cues: seq<Cue>)
      requires Valid()
      modifies this, currentStations
      ensures Valid()
      ensures CqDone(env, cues)
    {
      var v := vars;
      if Busy(env.now) {
        return [];
      }
      if !IsMultiStation(v.mode) && v.currentStation != null {
        return [];
      }
      if env.settings.None? {
        vars := v.(inputs := None);
        return [];
      }
      if IsMultiStation(v.mode) {
        cues := CqPool(env);
      } else {
        cues := CqStation(env);
      }
    }

    /** The multi-station part of `cq`, once the settings are read. */
    method CqPool(env: Env) returns (cues: seq<Cue>)
      requires Valid() && IsMultiStation(vars.mode) && env.settings.Some?
      modifies this, currentStations
      ensures Valid() && PoolCalled(env, cues)
    {
      AppendStations(currentStations, CqDraws(|currentStations.items|, env.settings.value, env));
      var yours := new Station(env.yours);
      cues := [YouSay(CqMessage(vars.mode, yours)), AllRespond(currentStations.items)];
      lastResponding := currentStations;
      vars := vars.(inputs := env.settings, you := yours, audioLock := env.finish);
    }

    /** The single-station part of `cq`, once the settings are read. */
    method CqStation(env: Env) returns (cues: seq<Cue>)
      requires Valid() && !IsMultiStation(vars.mode) && vars.currentStation == null
      modifies this
      ensures Valid() && StationCalled(env, cues)
    {
      var yours := new Station(env.yours);
      vars := vars.(inputs := env.settings, you := yours);
      var next := NextSingleStation(env);
      cues := [YouSay(CqMessage(vars.mode, yours))] + next;
    }

    /**
     * `nextSingleStation`: a new station from the generator calls, with no
     * attempts yet; its start time is when its call ends.
     */
    method NextSingleStation(env: Env) returns (cues: seq<Cue>)
      requires Valid() && !IsMultiStation(vars.mode) && vars.you != null
      modifies this
      ensures Valid() && SamePool() && lastResponding == old(lastResponding)
      ensures var cs := vars.currentStation;
              && cs != null && fresh(cs) && cs.Matches(env.spawn(0))
              && vars == old(vars).(currentStation := cs, attempts := 0, startTime := Some(env.finish),
                                    audioLock := env.finish)
              && cues == [StationSays(cs, cs.callsign)]
    {
      var callingStation := new Station(env.spawn(0));
      cues := [StationSays(callingStation, callingStation.callsign)];
      vars := vars.(currentStation := callingStation, attempts := 0, startTime := Some(env.finish),
                    audioLock := env.finish);
    }

    /** What `send` does with the entry `t` (trimmed and upper-cased). */
    twostate predicate SendDone(t: string, env: Env, new cues: seq<Cue>)
      reads *
    {
      if old(Busy(env.now)) then
        NoChange() && StationsKept(old(LastItems()), old(vars.currentStation)) && cues == []
      else if t == "" then
        StationsKept(old(LastItems()), old(vars.currentStation))
        && if old(currentStations.items) == [] then CqDone(env, cues) else NoChange() && cues == []
      else if old(vars.mode) == Contest || Logic(old(vars.mode)).showTuStep then
        MultiSent(t, env, cues)
      else
        SingleSent(t, env, cues)
    }

    /**
     * `send`: refused while audio plays; an empty entry calls CQ when no station
     * is calling and does nothing otherwise; any other entry is handled by the
     * multi-station or the single-station rules of the mode.
     */
    method Send(response: string, env: Env) returns (cues: seq<Cue>)
      requires Valid()
      modifies this, currentStations, vars.currentStation, LastItems()
      ensures Valid()
      ensures SendDone(Normalize(response), env, cues)
    {
      if Busy(env.now) {
        return [];
      }
      var t := Normalize(response);
      if t == "" {
        if currentStations.items == [] {
          cues := Cq(env);
        } else {
          cues := [];
        }
        return;
      }
      if vars.mode == Contest || Logic(vars.mode).showTuStep {
        cues := SendMulti(t, env);
      } else {
        cues := SendSingle(t, env);
      }
    }

    /** What `send` does with a non-empty entry `t` in contest mode or a mode with a TU step. */
    twostate predicate MultiSent(t: string, env: Env, new cues: seq<Cue>)
      reads *
    {
      var v := old(vars);
      var items := old(currentStations.items);
      var counted := v.(attempts := v.attempts + 1, audioLock := env.finish);
      if items == [] then
        NoChange() && StationsKept(old(LastItems()), old(vars.currentStation)) && cues == []
      else if IsRepeatRequest(t) then
        && SamePool() && lastResponding == currentStations && vars == counted
        && Untouched(old(LastItems()))
        && cues == [YouSay(t), AllRespond(items)]
      else if t == "QRS" then
        && SamePool() && lastResponding == old(lastResponding) && vars == counted
        && SlowedAll(old(LastItems()))
        && cues == [YouSay(t), AllRespond(old(LastItems()))]
      else
        EntryAnswered(t, env, cues)
    }

    /** What a non-empty entry that is neither a repeat request nor QRS does when stations are calling. */
    twostate predicate EntryAnswered(t: string, env: Env, new cues: seq<Cue>)
      reads *
    {
      var rs := Classifications(old(currentStations.items), t, env.classify);
      && Untouched(old(LastItems()))
      && match FirstPerfect(rs)
         case Some(k) => PerfectAnswered(t, k, env, cues)
         case None => OthersAnswered(t, rs, env, cues)
    }

    /**
     * Station `k` matched the entry perfectly: with a question mark it answers
     * "RR", otherwise the contest contact or the exchange follows.
     */
    twostate predicate PerfectAnswered(t: string, k: nat, env: Env, new cues: seq<Cue>)
      reads this, currentStations, currentStations.items
    {
      var v := old(vars);
      var items := old(currentStations.items);
      k < |items|
      && if '?' in t then
           && SamePool() && lastResponding == old(lastResponding)
           && vars == v.(attempts := v.attempts + 1, audioLock := env.finish)
           && cues == [YouSay(t), StationSays(items[k], "RR")]
         else
           && |cues| > 0 && cues[0] == YouSay(t)
           && if v.mode == Contest then ContestLogged(k, env, cues[1..]) else ExchangeSent(k, env, cues[1..])
    }

    /**
     * No station matched perfectly: the partially matching stations answer
     * and become the last to have answered; with none, every station answers
     * again in contest mode, and nobody does in the modes with a TU step.
     */
    twostate predicate OthersAnswered(t: string, rs: seq<Match>, env: Env, new cues: seq<Cue>)
      reads this, currentStations, lastResponding
    {
      var v := old(vars);
      var items := old(currentStations.items);
      |rs| == |items|
      && SamePool() && vars == v.(attempts := v.attempts + 1, audioLock := env.finish)
      && if Partial in rs then
           && lastResponding != null && fresh(lastResponding)
           && lastResponding.items == PartialStations(items, rs)
           && cues == [YouSay(t), AllRespond(PartialStations(items, rs))]
         else if v.mode == Contest then
           && lastResponding == currentStations
           && cues == [YouSay(t), AllRespond(items)]
         else
           && lastResponding == old(lastResponding)
           && cues == [YouSay(t)]
    }

    /**
     * The multi-station branches of `send`. A repeat request makes every
     * calling station answer again; QRS slows the stations that answered last
     * and they answer again; an entry that matches one station perfectly gets
     * "RR" when it carries a question mark and otherwise completes the contest
     * contact or starts the exchange; partial matches make just those stations
     * answer; with no match the stations answer again in contest mode only.
     * Every branch but the confirmed match counts an attempt.
     */
    method SendMulti(t: string, env: Env) returns (cues: seq<Cue>)
      requires Valid() && t != "" && (vars.mode == Contest || Logic(vars.mode).showTuStep)
      modifies this, currentStations, LastItems()
      ensures Valid()
      ensures MultiSent(t, env, cues)
    {
      if currentStations.items == [] {
        return [];
      }
      var v := vars;
      var counted := v.(attempts := v.attempts + 1, audioLock := env.finish);
      if IsRepeatRequest(t) {
        cues := [YouSay(t), AllRespond(currentStations.items)];
        lastResponding := currentStations;
        vars := counted;
        return;
      }
      if t == "QRS" {
        SlowDownAll(lastResponding.items);
        cues := [YouSay(t), AllRespond(lastResponding.items)];
        vars := counted;
        return;
      }
      cues := AnswerEntry(t, env);
    }

    /** An entry matched against the calling stations (`compareStrings` on each callsign). */
    method AnswerEntry(t: string, env: Env) returns (cues: seq<Cue>)
      requires Valid() && (vars.mode == Contest || Logic(vars.mode).showTuStep) && currentStations.items != []
      modifies this, currentStations
      ensures Valid()
      ensures EntryAnswered(t, env, cues)
    {
      var rs := Classifications(currentStations.items, t, env.classify);
      var perfect := FirstPerfect(rs);
      if perfect.Some? {
        cues := AnswerPerfect(t, perfect.value, env);
      } else {
        cues := AnswerOthers(t, rs, env);
      }
    }

    /** A perfect match with station `k`: "RR" when the entry is unsure, else the contact goes ahead. */
    method AnswerPerfect(t: string, k: nat, env: Env) returns (cues: seq<Cue>)
      requires Valid() && (vars.mode == Contest || Logic(vars.mode).showTuStep) && k < |currentStations.items|
      modifies this, currentStations
      ensures Valid()
      ensures PerfectAnswered(t, k, env, cues)
    {
      if '?' in t {
        cues := [YouSay(t), StationSays(currentStations.items[k], "RR")];
        vars := vars.(attempts := vars.attempts + 1, audioLock := env.finish);
        return;
      }
      var more;
      if vars.mode == Contest {
        more := LogContest(k, env);
      } else {
        more := SendExchange(k, env);
      }
      cues := [YouSay(t)] + more;
    }

    /** No perfect match: partial matches answer, or everyone in contest mode. */
    method AnswerOthers(t: string, rs: seq<Match>, env: Env) returns (cues: seq<Cue>)
      requires Valid() && |rs| == |currentStations.items|
      modifies this
      ensures Valid()
      ensures OthersAnswered(t, rs, env, cues)
    {
      var counted := vars.(attempts := vars.attempts + 1, audioLock := env.finish);
      if Partial in rs {
        var partialMatchStations := PartialStations(currentStations.items, rs);
        cues := [YouSay(t), AllRespond(partialMatchStations)];
        lastResponding := new StationList(partialMatchStations);
      } else if vars.mode == Contest {
        cues := [YouSay(t), AllRespond(currentStations.items)];
        lastResponding := currentStations;
      } else {
        cues := [YouSay(t)];
      }
      vars := counted;
    }

    /** What a confirmed perfect match with station `k` does in contest mode, after the trainee's entry. */
    twostate predicate ContestLogged(k: nat, env: Env, new more: seq<Cue>)
      reads this, currentStations, currentStations.items
    {
      var v := old(vars);
      var items := old(currentStations.items);
      k < |items|
      && var st := items[k];
         var rest := Removed(items, k);
         var row := Contact(v.totalContacts + 1, st.callsign, st.wpm, old(ShownFarnsworth(st)), v.attempts,
                            env.now - Start(v.startTime), []);
         var logged := v.(attempts := 0, totalContacts := v.totalContacts + 1, results := v.results + [row],
                          audioLock := env.finish);
         && currentStations == old(currentStations)
         && match v.inputs
            case None =>
              && currentStations.items == rest && lastResponding == old(lastResponding) && vars == logged
              && more == [StationSays(st, "E")]
            case Some(inp) =>
              && Appended(rest, currentStations.items, RefillDraws(|rest|, inp, env))
              && lastResponding == currentStations && vars == logged.(startTime := Some(env.now))
              && more == [StationSays(st, "E"), AllRespond(currentStations.items)]
    }

    /**
     * Contest mode, confirmed perfect match with station `k`: it answers "E",
     * the contact is logged with the attempts so far and the station leaves;
     * the pool is topped up and every remaining station calls. Without valid
     * settings the top-up throws, after the contact is logged.
     */
    method LogContest(k: nat, env: Env) returns (more: seq<Cue>)
      requires Valid() && vars.mode == Contest && k < |currentStations.items|
      modifies this, currentStations
      ensures Valid()
      ensures ContestLogged(k, env, more)
    {
      var v := vars;
      var st := currentStations.items[k];
      var row := Contact(v.totalContacts + 1, st.callsign, st.wpm, ShownFarnsworth(st), v.attempts,
                         env.now - Start(v.startTime), []);
      var logged := v.(attempts := 0, totalContacts := v.totalContacts + 1, results := v.results + [row],
                       audioLock := env.finish);
      SpliceAndTopUp(k, v.inputs, env);
      if v.inputs.None? {
        more := [StationSays(st, "E")];
        vars := logged;
        return;
      }
      more := [StationSays(st, "E"), AllRespond(currentStations.items)];
      lastResponding := currentStations;
      vars := logged.(startTime := Some(env.now));
    }

    /**
     * The worked station `k` leaves (`splice`), then the pool is topped up.
     * Without settings only the splice happens: reading the minimum throws.
     */
    method SpliceAndTopUp(k: nat, inputs: Option<Inputs>, env: Env)
      requires k < |currentStations.items|
      modifies currentStations
      ensures var rest := Removed(old(currentStations.items), k);
              match inputs
              case None => currentStations.items == rest
              case Some(inp) => Appended(rest, currentStations.items, RefillDraws(|rest|, inp, env))
      ensures Distinct(old(currentStations.items)) ==> Distinct(currentStations.items)
    {
      var rest := Removed(currentStations.items, k);
      if inputs.None? {
        currentStations.items := rest;
      } else {
        TopUp(rest, inputs.value, env);
      }
    }

    /**
     * The top-up of the stations `rest` still calling after a contact: new
     * stations up to the minimum, or, when the minimum is met, the stations
     * `addStations` adds if the 40% chance comes up.
     */
    method TopUp(rest: seq<Station>, inp: Inputs, env: Env)
      modifies currentStations
      ensures Appended(rest, currentStations.items, RefillDraws(|rest|, inp, env))
      ensures Distinct(rest) ==> Distinct(currentStations.items)
    {
      currentStations.items := rest;
      if |rest| < inp.minStations {
        AppendStations(currentStations, Draws(env.spawn, inp.minStations - |rest|));
      } else if env.joins {
        AppendStations(currentStations, env.joiners);
      } else {
        assert rest[|rest|..] == [];
      }
    }

    /** What a confirmed perfect match with station `k` does in a mode with a TU step, after the trainee's entry. */
    twostate predicate ExchangeSent(k: nat, env: Env, new more: seq<Cue>)
      reads this, currentStations
    {
      var v := old(vars);
      var items := old(currentStations.items);
      k < |items| && v.you != null
      && var st := items[k];
         var yours := " " + YourExchange(v.mode, v.you, st);
         var theirs := TheirExchange(v.mode, v.you, st);
         && SamePool() && lastResponding == old(lastResponding)
         && match v.inputs
            case None =>
              vars == v.(audioLock := env.finish) && more == []
            case Some(inp) =>
              && vars == v.(attempts := v.attempts + 1, readyForTU := true, activeStationIndex := Some(k),
                            audioLock := env.finish)
              && more == if inp.enableCutNumbers
                         then [YouSay(CutNumbers(yours, inp.cutNumbers)), StationSays(st, CutNumbers(theirs, inp.cutNumbers))]
                         else [YouSay(yours), StationSays(st, theirs)]
    }

    /**
     * A mode with a TU step, confirmed perfect match with station `k`: the
     * trainee sends the exchange and the station answers with its own, both
     * with cut numbers when they are enabled, and the station is selected for
     * the TU step. Without valid settings reading the cut-number flag throws.
     */
    method SendExchange(k: nat, env: Env) returns (more: seq<Cue>)
      requires Valid() && Logic(vars.mode).showTuStep && k < |currentStations.items|
      modifies this
      ensures Valid()
      ensures ExchangeSent(k, env, more)
    {
      var v := vars;
      var st := currentStations.items[k];
      var yourExchange := " " + YourExchange(v.mode, v.you, st);
      var theirExchange := TheirExchange(v.mode, v.you, st);
      if v.inputs.None? {
        vars := v.(audioLock := env.finish);
        return [];
      }
      if v.inputs.value.enableCutNumbers {
        var cutMap := v.inputs.value.cutNumbers;
        yourExchange := CutNumbers(yourExchange, cutMap);
        theirExchange := CutNumbers(theirExchange, cutMap);
      }
      more := [YouSay(yourExchange), StationSays(st, theirExchange)];
      vars := v.(attempts := v.attempts + 1, readyForTU := true, activeStationIndex := Some(k),
                 audioLock := env.finish);
    }

    /** What `send` does with a non-empty entry `t` in a single-station mode. */
    twostate predicate SingleSent(t: string, env: Env, new cues: seq<Cue>)
      reads *
    {
      var v := old(vars);
      var cs := v.currentStation;
      var counted := v.(attempts := v.attempts + 1, audioLock := env.finish);
      if cs == null then
        NoChange() && StationsKept(old(LastItems()), old(vars.currentStation)) && cues == []
      else if IsRepeatRequest(t) then
        && unchanged(cs) && Untouched(old(LastItems())) && SamePool() && lastResponding == old(lastResponding) && vars == counted
        && cues == [YouSay(t), StationSays(cs, cs.callsign)]
      else if t == "QRS" then
        && SlowedAll([cs]) && Untouched(old(LastItems())) && SamePool() && lastResponding == old(lastResponding) && vars == counted
        && cues == [YouSay(t), StationSays(cs, cs.callsign)]
      else
        && unchanged(cs) && Untouched(old(LastItems()))
        && var r := env.classify(cs.callsign, StripFirstQuestion(t));
           if r == Perfect && '?' !in t then
             SingleLogged(t, env, cues)
           else
             && SamePool() && lastResponding == old(lastResponding) && vars == counted
             && cues == [YouSay(t), StationSays(cs, if r == Perfect then "RR" else cs.callsign)]
    }

    /** A confirmed contact in a single-station mode: the scripted close, the log row, the next station. */
    twostate predicate SingleLogged(t: string, env: Env, new cues: seq<Cue>)
      reads this, currentStations, vars.currentStation
    {
      var v := old(vars);
      var cs := v.currentStation;
      var next := vars.currentStation;
      cs != null && v.you != null
      && next != null && fresh(next) && next.Matches(env.spawn(0))
      && SamePool() && lastResponding == old(lastResponding)
      && vars == v.(currentStation := next, attempts := 0, startTime := Some(env.finish),
                    totalContacts := v.totalContacts + 1, audioLock := env.finish,
                    results := v.results + [Contact(v.totalContacts + 1, cs.callsign, cs.wpm, old(ShownFarnsworth(cs)),
                                                    v.attempts + 1, env.now - Start(v.startTime), [])])
      && cues == [YouSay(t)] + SingleQso(v.mode, v.you, cs) + [StationSays(next, next.callsign)]
    }

    /**
     * The single-station branch of `send`. A repeat request, a partial match
     * and no match all make the station call again; QRS slows it first; a
     * perfect match with a question mark gets "RR"; a confirmed perfect match
     * plays the scripted close, logs the contact and brings the next station.
     * Every branch counts an attempt, the confirmed match before logging.
     */
    method SendSingle(t: string, env: Env) returns (cues: seq<Cue>)
      requires Valid() && !IsMultiStation(vars.mode)
      modifies this, vars.currentStation
      ensures Valid()
      ensures SingleSent(t, env, cues)
    {
      var v := vars;
      var cs := v.currentStation;
      if cs == null {
        return [];
      }
      var counted := v.(attempts := v.attempts + 1, audioLock := env.finish);
      if IsRepeatRequest(t) {
        cues := [YouSay(t), StationSays(cs, cs.callsign)];
        vars := counted;
        return;
      }
      if t == "QRS" {
        cs.SlowDown();
        cues := [YouSay(t), StationSays(cs, cs.callsign)];
        vars := counted;
        return;
      }
      var compareResult := env.classify(cs.callsign, StripFirstQuestion(t));
      if compareResult == Perfect {
        if '?' in t {
          cues := [YouSay(t), StationSays(cs, "RR")];
          vars := counted;
          return;
        }
        cues := LogSingle(t, env);
        return;
      }
      cues := [YouSay(t), StationSays(cs, cs.callsign)];
      vars := counted;
    }

    /**
     * A confirmed perfect match in a single-station mode: the attempt is
     * counted, the scripted close plays, the contact is logged and the next
     * station calls.
     */
    method LogSingle(t: string, env: Env) returns (cues: seq<Cue>)
      requires Valid() && !IsMultiStation(vars.mode) && vars.currentStation != null
      modifies this
      ensures Valid()
      ensures SingleLogged(t, env, cues)
    {
      var v := vars;
      var cs := v.currentStation;
      var row := Contact(v.totalContacts + 1, cs.callsign, cs.wpm, ShownFarnsworth(cs), v.attempts + 1,
                         env.now - Start(v.startTime), []);
      vars := v.(attempts := v.attempts + 1, totalContacts := v.totalContacts + 1, results := v.results + [row]);
      var next := NextSingleStation(env);
      cues := [YouSay(t)] + SingleQso(v.mode, v.you, cs) + next;
    }

    /** What `tu` does with the two info fields. */
    twostate predicate TuDone(info1: string, info2: string, env: Env, new cues: seq<Cue>)
      reads this, currentStations, currentStations.items
    {
      var v := old(vars);
      if old(Busy(env.now)) || !Logic(v.mode).showTuStep || !v.readyForTU then
        NoChange() && cues == []
      else
        var items := old(currentStations.items);
        v.activeStationIndex.Some? && v.activeStationIndex.value < |items|
        && var v1 := Trim(info1);
           TuLogged(v1, TuOutcomes(v.mode, v1, Trim(info2), items[v.activeStationIndex.value]), env, cues)
    }

    /**
     * The contact with the selected station completed by the TU step, given
     * the trimmed first info field `v1` and the verdicts `extra` on the fields.
     */
    twostate predicate TuLogged(v1: string, extra: seq<FieldOutcome>, env: Env, new cues: seq<Cue>)
      reads this, currentStations, currentStations.items
    {
      var v := old(vars);
      var items := old(currentStations.items);
      v.activeStationIndex.Some? && v.activeStationIndex.value < |items| && v.you != null
      && var k := v.activeStationIndex.value;
         var st := items[k];
         var rest := Removed(items, k);
         var signoff := TuSignoff(v.mode, v.you, st, v1);
         var row := Contact(v.totalContacts + 1, st.callsign, st.wpm, old(ShownFarnsworth(st)), v.attempts,
                            env.now - Start(v.startTime), extra);
         var logged := v.(activeStationIndex := None, readyForTU := false, attempts := 0,
                          totalContacts := v.totalContacts + 1, results := v.results + [row],
                          audioLock := env.finish);
         && currentStations == old(currentStations)
         && match v.inputs
            case None =>
              && currentStations.items == rest && lastResponding == old(lastResponding) && vars == logged
              && cues == signoff
            case Some(inp) =>
              && Appended(rest, currentStations.items, RefillDraws(|rest|, inp, env))
              && lastResponding == currentStations && vars == logged.(startTime := Some(env.now))
              && cues == signoff + [AllRespond(currentStations.items)]
    }

    /**
     * `tu`: refused while audio plays and unless the mode has a TU step and a
     * station is selected; otherwise the contact is completed.
     */
    method Tu(info1: string, info2: string, env: Env) returns (cues: seq<Cue>)
      requires Valid()
      modifies this, currentStations
      ensures Valid()
      ensures TuDone(info1, info2, env, cues)
    {
      if Busy(env.now) {
        return [];
      }
      if !Logic(vars.mode).showTuStep || !vars.readyForTU {
        return [];
      }
      var infoValue1 := Trim(info1);
      var infoValue2 := Trim(info2);
      var st := currentStations.items[vars.activeStationIndex.value];
      var extraInfo := TuOutcomes(vars.mode, infoValue1, infoValue2, st);
      cues := CompleteTu(infoValue1, extraInfo, env);
    }

    /**
     * The body of `tu`, given the trimmed info fields: the selected station
     * is logged with the attempts so far and the verdicts on the fields, the trainee signs off
     * (the station too where its sign-off is not null), the station leaves,
     * the pool is topped up and every remaining station calls. Without valid
     * settings the top-up throws, after the contact is logged.
     */
    method CompleteTu(infoValue1: string, extraInfo: seq<FieldOutcome>, env: Env) returns (cues: seq<Cue>)
      requires Valid() && Logic(vars.mode).showTuStep && vars.readyForTU
      modifies this, currentStations
      ensures Valid()
      ensures TuLogged(infoValue1, extraInfo, env, cues)
    {
      var v := vars;
      var k := v.activeStationIndex.value;
      var st := currentStations.items[k];
      var row := Contact(v.totalContacts + 1, st.callsign, st.wpm, ShownFarnsworth(st), v.attempts,
                         env.now - Start(v.startTime), extraInfo);
      var logged := v.(activeStationIndex := None, readyForTU := false, attempts := 0,
                       totalContacts := v.totalContacts + 1, results := v.results + [row],
                       audioLock := env.finish);
      cues := TuSignoff(v.mode, v.you, st, infoValue1);
      SpliceAndTopUp(k, v.inputs, env);
      if v.inputs.None? {
        vars := logged;
        return;
      }
      cues := cues + [AllRespond(currentStations.items)];
      lastResponding := currentStations;
      vars := logged.(startTime := Some(env.now));
    }

    /**
     * `stop`: the calling stations are dropped and the attempt counter and
     * TU selection cleared; the log, its count and the audio lock stay (the
     * lock is not touched by `stop` itself).
     */
    method Stop()
      requires Valid()
      modifies this
      ensures Valid() && fresh(currentStations) && currentStations.items == [] && lastResponding == null
      ensures vars == old(vars).(currentStation := null, attempts := 0, startTime := None, activeStationIndex := None,
                                 readyForTU := false)
    {
      vars := vars.(currentStation := null, attempts := 0, startTime := None, activeStationIndex := None,
                    readyForTU := false);
      currentStations := new StationList([]);
      lastResponding := null;
    }

    /**
     * `resetGameState`: the calling stations, the log and its count are cleared
     * and the audio lock is released; the stations that answered last are kept.
     */
    method ResetGameState()
      requires lastResponding != null ==> Distinct(lastResponding.items)
      modifies this
      ensures Valid() && fresh(currentStations) && currentStations.items == []
      ensures lastResponding == old(lastResponding)
      ensures vars == old(vars).(currentStation := null, activeStationIndex := None, readyForTU := false, attempts := 0,
                                 startTime := None, totalContacts := 0, results := [], audioLock := 0.0)
    {
      vars := vars.(currentStation := null, activeStationIndex := None, readyForTU := false, attempts := 0,
                    startTime := None, totalContacts := 0, results := [], audioLock := 0.0);
      currentStations := new StationList([]);
    }

    /** `reset`: the same clearing as `resetGameState`. */
    method Reset()
      requires Valid()
      modifies this
      ensures Valid() && fresh(currentStations) && currentStations.items == []
      ensures lastResponding == old(lastResponding)
      ensures vars == old(vars).(currentStation := null, activeStationIndex := None, readyForTU := false, attempts := 0,
                                 startTime := None, totalContacts := 0, results := [], audioLock := 0.0)
    {
      vars := vars.(results := [], totalContacts := 0, currentStation := null, attempts := 0, startTime := None,
                    activeStationIndex := None, readyForTU := false, audioLock := 0.0);
      currentStations := new StationList([]);
    }

    /** `changeMode`: switch to mode `m` and clear the game state. */
    method ChangeMode(m: Mode)
      requires Valid()
      modifies this
      ensures Valid() && fresh(currentStations) && currentStations.items == []
      ensures lastResponding == old(lastResponding)
      ensures vars == old(vars).(mode := m, currentStation := null, activeStationIndex := None, readyForTU := false,
                                 attempts := 0, startTime := None, totalContacts := 0, results := [], audioLock := 0.0)
    {
      vars := vars.(mode := m);
      ResetGameState();
    }
  }
}
