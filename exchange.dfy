/**
 * The expression-level parts of the session: how a submission is normalised
 * and classified against the calling stations, which stations a reply goes
 * to, cut-number substitution in exchanges, the TU step's field comparison,
 * and the scripted messages of a completed single-mode contact.
 */
module Exchange {
  import opened Common
  import opened Stations
  import opened Modes

  /** What `compareStrings` (not part of this model) says about a submission. */
  datatype Match = Perfect | Partial | NoMatch

  /** One transmission the session hands to the audio engine. */
  datatype Cue =
    | YouSay(text: string)                       // the trainee's station keys `text`
    | StationSays(station: Station, text: string) // one simulated station keys `text`
    | AllRespond(stations: seq<Station>)          // `respondWithAllStations`: each of them sends its call

  /** The submission as `send` reads it: trimmed, then upper-cased. */
  function Normalize(text: string): string
  {
    Upper(Trim(text))
  }

  /** A request to repeat. */
  predicate IsRepeatRequest(t: string)
  {
    t == "?" || t == "AGN" || t == "AGN?"
  }

  /** `t.replace('?', '')`: a string pattern replaces only its first occurrence. */
  function StripFirstQuestion(t: string): (r: string)
    ensures '?' !in t ==> r == t
    ensures |r| == if '?' in t then |t| - 1 else |t|
  {
    if t == [] then []
    else if t[0] == '?' then t[1..]
    else [t[0]] + StripFirstQuestion(t[1..])
  }

  /**
   * Exactly one question mark goes, the text before it is kept in place, and
   * the text after it moves up by one.
   */
  lemma {:induction false} StripFirstQuestionRemovesOne(t: string, q: nat)
    requires q < |t| && t[q] == '?' && '?' !in t[..q]
    ensures StripFirstQuestion(t) == t[..q] + t[q + 1..]
  {
    if q > 0 {
      assert '?' !in t[1..][..q - 1] by { assert t[1..][..q - 1] == t[1..q]; }
      StripFirstQuestionRemovesOne(t[1..], q - 1);
      assert t[..q] == [t[0]] + t[1..][..q - 1];
      assert t[1..][q..] == t[q + 1..];
    }
  }

  /** `currentStations.map(stn => compareStrings(stn.callsign, text.replace('?', '')))`. */
  function Classifications(stations: seq<Station>, t: string, classify: (string, string) -> Match): (rs: seq<Match>)
  {
    seq(|stations|, i requires 0 <= i < |stations| => classify(stations[i].callsign, StripFirstQuestion(t)))
  }

  /** `results.indexOf('perfect')`: the first perfectly matching station, if any. */
  function FirstPerfect(rs: seq<Match>): (r: Option<nat>)
    ensures r.None? <==> Perfect !in rs
    ensures r.Some? ==> r.value < |rs| && rs[r.value] == Perfect
    ensures r.Some? ==> forall j :: 0 <= j < r.value ==> rs[j] != Perfect
  {
    if rs == [] then None
    else if rs[0] == Perfect then Some(0)
    else
      assert rs == [rs[0]] + rs[1..];
      match FirstPerfect(rs[1..])
      case None => None
      case Some(k) => Some(k + 1)
  }

  /**
   * With a matcher that rates every callsign a perfect match for itself, an
   * entry that is some calling station's callsign once its first '?' is
   * dropped always finds a perfect match, at that station or an earlier one.
   */
  lemma ExactEntryFindsStation(stations: seq<Station>, t: string, classify: (string, string) -> Match, j: nat)
    requires forall c :: classify(c, c) == Perfect
    requires j < |stations| && StripFirstQuestion(t) == stations[j].callsign
    ensures var r := FirstPerfect(Classifications(stations, t, classify));
            r.Some? && r.value <= j
  {
    var rs := Classifications(stations, t, classify);
    assert rs[j] == Perfect;
  }

  /** `currentStations.filter((_, i) => results[i] === 'partial')`. */
  function PartialStations(stations: seq<Station>, rs: seq<Match>): (r: seq<Station>)
    requires |rs| == |stations|
    ensures |r| <= |stations|
    ensures forall j :: 0 <= j < |r| ==> r[j] in stations
    ensures forall i :: 0 <= i < |stations| && rs[i] == Partial ==> stations[i] in r
    ensures Distinct(stations) ==> forall i :: 0 <= i < |stations| && stations[i] in r ==> rs[i] == Partial
    ensures Distinct(stations) ==> Distinct(r)
  {
    if stations == [] then []
    else
      var rest := PartialStations(stations[1..], rs[1..]);
      assert forall i :: 1 <= i < |stations| ==> stations[i] == stations[1..][i - 1] && rs[i] == rs[1..][i - 1];
      if rs[0] == Partial then [stations[0]] + rest else rest
  }

  /** The replacement of one character: a digit with a non-empty cut letter becomes that letter. */
  function CutChar(c: char, cut: map<char, string>): string
  {
    if IsDigit(c) && c in cut && cut[c] != "" then cut[c] else [c]
  }

  /** `s.replace(/\d/g, digit => cutMap[digit] || digit)`. */
  function CutNumbers(s: string, cut: map<char, string>): string
  {
    if s == [] then [] else CutChar(s[0], cut) + CutNumbers(s[1..], cut)
  }

  /**
   * With one-letter cut numbers the substitution keeps the length, replaces
   * every digit that has a cut letter by it and leaves every other character alone.
   */
  lemma {:induction false} CutNumbersPointwise(s: string, cut: map<char, string>)
    requires forall d :: d in cut ==> |cut[d]| <= 1
    ensures |CutNumbers(s, cut)| == |s|
    ensures forall i :: 0 <= i < |s| ==>
              CutNumbers(s, cut)[i]
              == if IsDigit(s[i]) && s[i] in cut && cut[s[i]] != "" then cut[s[i]][0] else s[i]
  {
    if s != [] {
      CutNumbersPointwise(s[1..], cut);
      var r := CutNumbers(s, cut);
      assert r == CutChar(s[0], cut) + CutNumbers(s[1..], cut);
      assert |CutChar(s[0], cut)| == 1;
      forall i | 1 <= i < |s|
        ensures r[i] == if IsDigit(s[i]) && s[i] in cut && cut[s[i]] != "" then cut[s[i]][0] else s[i]
      {
        assert r[i] == CutNumbers(s[1..], cut)[i - 1];
        assert s[1..][i - 1] == s[i];
      }
    }
  }

  /** Text without digits, and any text under an empty cut map, is left exactly as it was. */
  lemma {:induction false} CutNumbersKeepsDigitFreeText(s: string, cut: map<char, string>)
    requires cut == map[] || forall i :: 0 <= i < |s| ==> !IsDigit(s[i])
    ensures CutNumbers(s, cut) == s
  {
    if s != [] {
      CutNumbersKeepsDigitFreeText(s[1..], cut);
      assert s == [s[0]] + s[1..];
    }
  }

  /** The longest run of digits at the start of `s`. */
  function DigitPrefix(s: string): (r: string)
    ensures |r| <= |s|
    ensures forall i :: 0 <= i < |r| ==> IsDigit(r[i])
  {
    if s != [] && IsDigit(s[0]) then [s[0]] + DigitPrefix(s[1..]) else []
  }

  /** The digit prefix is a prefix, and what follows it is not a digit. */
  lemma {:induction false} DigitPrefixIsLongest(s: string)
    ensures var r := DigitPrefix(s);
            r == s[..|r|] && (|r| < |s| ==> !IsDigit(s[|r|]))
  {
    if s != [] && IsDigit(s[0]) {
      DigitPrefixIsLongest(s[1..]);
    }
  }

  /**
   * `parseInt(s, 10)`: leading white space and one sign are skipped, then the
   * longest digit prefix is read; with no digit there the result is NaN (`None`).
   */
  function ParseInt(s: string): Option<int>
  {
    var t := TrimStart(s);
    var signed := t != [] && (t[0] == '+' || t[0] == '-');
    var ds := DigitPrefix(if signed then t[1..] else t);
    var value: int := DigitsValue(ds);
    if ds == [] then None
    else if signed && t[0] == '-' then Some(-value)
    else Some(value)
  }

  /** A string of digits reads back as its own value. */
  lemma {:induction false} DigitPrefixOfDigits(s: string)
    requires forall i :: 0 <= i < |s| ==> IsDigit(s[i])
    ensures DigitPrefix(s) == s
  {
    if s != [] {
      DigitPrefixOfDigits(s[1..]);
    }
  }

  /** Entering a number as it is rendered parses back to that number. */
  lemma ParseIntOfNatToString(n: nat)
    ensures ParseInt(NatToString(n)) == Some(n)
  {
    var s := NatToString(n);
    assert IsDigit(s[0]);
    assert TrimStart(s) == s;
    assert !(s[0] == '+' || s[0] == '-');
    DigitPrefixOfDigits(s);
    DigitsValueOfNatToString(n);
  }

  /** `parseInt` reads a number followed by junk, and rejects text that starts with a letter. */
  lemma ParseIntExamples()
    ensures ParseInt("12AB") == Some(12)
    ensures ParseInt(" -7") == Some(-7)
    ensures ParseInt("") == None && ParseInt("AB12") == None
  {
    var a := "12AB";
    assert TrimStart(a) == a;
    assert DigitPrefix(a[2..]) == [];
    assert DigitPrefix(a[1..]) == "2";
    assert DigitPrefix(a) == "12";
    assert DigitsValue("12") == 12 by { assert "12"[..1] == "1"; }
    var b := " -7";
    assert TrimStart(b[1..]) == "-7";
    assert TrimStart(b) == "-7";
    assert DigitPrefix("7"[1..]) == [];
    assert DigitPrefix("-7"[1..]) == "7";
    var c := "AB12";
    assert TrimStart(c) == c;
    assert DigitPrefix(c) == [];
  }

  /** The TU-step verdict on one entered field, in place of the HTML `compareExtraInfo` returns. */
  datatype FieldOutcome =
    | Blank                                   // no field key: the empty string
    | NotApplicable                           // the station has nothing to check: "N/A"
    | Correct(shown: string)                  // check mark and the entered value
    | Wrong(shown: string, expected: string)  // warning mark, entered value, expected value
    | Unreadable(expected: string)            // warning mark for a non-number, expected value

  predicate IsNumericKey(k: FieldKey)
  {
    k == SerialNumberKey || k == CwopsNumberKey
  }

  /** `callingStation[fieldKey]` for a number attribute. */
  function NumberField(k: FieldKey, st: Station): nat
    requires IsNumericKey(k)
  {
    if k == SerialNumberKey then st.serialNumber else st.cwopsNumber
  }

  /** `callingStation[fieldKey]` for a text attribute. */
  function TextField(k: FieldKey, st: Station): string
    requires !IsNumericKey(k)
  {
    if k == NameKey then st.name else st.state
  }

  /** `compareExtraInfo`: only a missing field key gives the empty verdict. */
  function CompareExtraInfo(key: Option<FieldKey>, input: string, st: Station): (r: FieldOutcome)
    ensures key.None? <==> r == Blank
  {
    match key
    case None => Blank
    case Some(k) =>
      if IsNumericKey(k) then
        var expected := NumberField(k, st);
        match ParseInt(input)
        case None => Unreadable(NatToString(expected))
        case Some(v) =>
          if v == expected then Correct(IntToString(v)) else Wrong(IntToString(v), NatToString(expected))
      else
        var expected := Upper(TextField(k, st));
        var entered := Trim(Upper(input));
        if expected == "" then NotApplicable
        else if entered == expected then Correct(entered)
        else Wrong(entered, expected)
  }

  /**
   * The verdicts of `compareExtraInfo`. A number field is correct exactly when
   * the entry parses to the station's number and is flagged with the expected
   * value when it does not parse; a text field is not applicable when the
   * station's value is empty and otherwise correct exactly when the upper-cased,
   * trimmed entry equals the upper-cased value.
   */
  lemma CompareExtraInfoVerdicts(k: FieldKey, input: string, st: Station)
    ensures var r := CompareExtraInfo(Some(k), input, st);
            IsNumericKey(k) ==>
              && (ParseInt(input).None? <==> r == Unreadable(NatToString(NumberField(k, st))))
              && (r.Correct? <==> ParseInt(input) == Some(NumberField(k, st) as int))
              && (r.Wrong? <==> ParseInt(input).Some? && ParseInt(input) != Some(NumberField(k, st) as int))
    ensures var r := CompareExtraInfo(Some(k), input, st);
            !IsNumericKey(k) ==>
              && (r == NotApplicable <==> Upper(TextField(k, st)) == "")
              && (r.Correct? <==> Upper(TextField(k, st)) != "" && Trim(Upper(input)) == Upper(TextField(k, st)))
              && (r.Correct? ==> r.shown == Trim(Upper(input)))
  {
  }

  /** Typing a station's number as it is rendered is marked correct. */
  lemma ExactNumberIsCorrect(k: FieldKey, st: Station)
    requires IsNumericKey(k)
    ensures CompareExtraInfo(Some(k), NatToString(NumberField(k, st)), st).Correct?
  {
    ParseIntOfNatToString(NumberField(k, st));
  }

  /** How one run of a scripted exchange ends. */
  datatype Run = Run(played: seq<Cue>, completed: bool)

  /**
   * The messages of a confirmed single-path contact AS WRITTEN: the trainee's
   * exchange, the station's exchange, the trainee's sign-off, then a call of
   * `theirSignoff`, which throws a TypeError when the table holds null there.
   */
  function SingleQsoAsWritten(m: Mode, you: Station, them: Station): (r: Run)
    ensures r.completed <==> TheirSignoff(m, you, them).Some?
    ensures |r.played| == if r.completed then 4 else 3
  {
    var first := [YouSay(" " + YourExchange(m, you, them)), StationSays(them, TheirExchange(m, you, them)),
                  YouSay(YourSignoff(m, you, them, None))];
    match TheirSignoff(m, you, them)
    case None => Run(first, false)
    case Some(s) => Run(first + [StationSays(them, s)], true)
  }

  /**
   * In troubled-letters mode the confirmed contact always throws after the
   * trainee's sign-off, before the contact is counted or logged.
   */
  lemma TroubledLettersQsoThrows(you: Station, them: Station)
    ensures !SingleQsoAsWritten(TroubledLetters, you, them).completed
    ensures |SingleQsoAsWritten(TroubledLetters, you, them).played| == 3
  {
  }

  /**
   * The messages of a confirmed single-path contact, skipping a null
   * `theirSignoff` as the TU step does. It is what the source plays wherever
   * the source completes, and in every single-path mode it ends the contact.
   */
  function SingleQso(m: Mode, you: Station, them: Station): (r: seq<Cue>)
    ensures |r| == (if TheirSignoff(m, you, them).Some? then 4 else 3)
    ensures SingleQsoAsWritten(m, you, them).completed ==> r == SingleQsoAsWritten(m, you, them).played
    ensures r[..3] == SingleQsoAsWritten(m, you, them).played[..3]
  {
    var first := [YouSay(" " + YourExchange(m, you, them)), StationSays(them, TheirExchange(m, you, them)),
                  YouSay(YourSignoff(m, you, them, None))];
    match TheirSignoff(m, you, them)
    case None => first
    case Some(s) => first + [StationSays(them, s)]
  }
}
