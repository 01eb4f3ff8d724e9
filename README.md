# Morse Walker session core in Dafny

Morse Walker is a browser trainer for amateur-radio Morse contacts. The
trainee calls CQ, simulated stations answer with their callsigns, and the
trainee types what they hear. A typed callsign is matched against the
calling stations. A match leads to the exchange of the contest or activity
and then to the contact being logged.

This project models three parts of it:

- **The session controller** (`session.dfy`, `exchange.dfy`, `stations.dfy`). These are the
  handlers `cq`, `send`, `tu`, `stop`, `reset`, `resetGameState`, `changeMode` and
  `nextSingleStation`, and the state they keep. That state is the current mode, the
  settings, the stations calling, the station selected for the TU step, the attempt
  and contact counters, the log, and the audio lock.
  - Stations are heap objects, because a QRS request changes them in place.
  - The array of calling stations is an object too, because `lastRespondingStations`
    may share it with `currentStations`.
  - Each handler is a method of `Session.Session`. Its `ensures` gives the complete
    new state, as a twostate predicate per branch of the handler: the variables, the
    station arrays, and which station objects are left as they were.
  - The class invariant `Valid` holds that:
    - a pending TU selects a calling station, and only in a mode with a TU step;
    - single- and multi-station state never mix;
    - no station is listed twice;
    - the log is numbered 1, 2, 3, … up to the contact count.
- **The mode table** (`modes.dfy`). This is `modeLogicConfig` and the flags of
  `modeUIConfig`, with the agreement between the two tables proved.
- **Adaptive learning** (`adaptive.dfy`). A class `MistakeTracker` holds the
  per-character mistake tally, which `recordMistakes` updates. Weights follow from the
  tally. The weighted draw `weightedRandomChar` is proved to pick the character whose
  band of the running weight sum holds the scaled random value, and only that one.

Outside collaborators arrive in an `Env` value, or as a parameter `r` for
`Math.random()`:
- the audio clock, and the end time of the last `updateAudioLock` call;
- the settings form (`getInputs`, which may fail);
- the station generator, and what `addStations` adds. Both are taken to make new
  station objects: `addStations` is modelled as pushing stations it has just created,
  never one already in the pool, and the no-duplicates invariant rests on that;
- `compareStrings`;
- the 40% join chance.

What a handler hands to the audio engine is returned as a list of `Cue`s.
A handler that throws a TypeError in the browser is modelled as stopping at that
point. It keeps every change it made before. The one exception is the close of a
contact in troubled-letters mode: the session uses the corrected sequence (see
"## Findings"), which logs the contact instead of throwing.

## Model

| member | source | states |
|---|---|---|
| Common.UpperChar | src/js/adaptiveLearning.js:34-35 | upper-casing changes only the letters a–z and leaves no lower-case letter |
| Common.UpperPointwise | src/js/app.js:932 | `toUpperCase` maps each character of a string on its own and keeps the length |
| Common.TrimStartDropsSpace | src/js/app.js:932 | the leading trim keeps a suffix that starts with a non-space and removes only white space |
| Common.TrimEndDropsSpace | src/js/app.js:932 | the trailing trim keeps a prefix that ends with a non-space and removes only white space |
| Common.DigitsValueOfNatToString | src/js/app.js:1493-1501 | reading back the decimal rendering of a number gives that number |
| Stations.Station.SlowDown | src/js/app.js:968-978 | one QRS on a station: Farnsworth on, speed lowered by 6 with floor 5 if it was on, else set to wpm − 6 |
| Stations.QrsRepeatedSettlesAtFloor | src/js/app.js:969-973 | n QRS requests on a slowed station give max(5, speed − 6n) |
| Stations.QrsOnSlowedStation | src/js/app.js:969-973 | a slowed station never drops below 5 WPM through QRS and never speeds up while above it |
| Stations.QrsScenarios | src/js/app.js:968-978 | the first QRS has no floor (8 WPM becomes 2), and the next one raises it to 5 |
| Stations.AppendStations | src/js/app.js:897-901 | pushes one new station per draw, in order; the old stations stay in front and no station is listed twice |
| Stations.SlowDownAll | src/js/app.js:968-978 | the QRS `forEach` slows every station that answered last, each exactly once |
| Modes.Logic | src/js/modes.js:140-232 | exactly POTA, SST and CWT have a TU step; a mode without one checks no field; a required info field has its key |
| Modes.UI | src/js/modes.js:6-126 | the TU button, each info field and the extra column show exactly when the logic table asks for them |
| Modes.TheirSignoff | src/js/modes.js:147-224 | `theirSignoff` is null exactly in contest, SST, CWT and troubled-letters mode |
| Modes.FieldKeysPerMode | src/js/modes.js:164-217 | POTA checks state; SST checks name and state; CWT checks name and CWops number |
| Modes.SingleModeTemplates | src/js/modes.js:141-147 | single mode calls "CQ DE <call> K", and every other single-mode message is fixed text |
| Modes.PotaExchangeRepeatsState | src/js/modes.js:159-160 | the POTA station's exchange carries its state twice, at known positions |
| Modes.SignoffsEmbedArbitrary | src/js/modes.js:161-162 | the POTA and SST sign-offs carry the entered field verbatim |
| Exchange.StripFirstQuestion | src/js/app.js:986 | `replace('?', '')` removes one character exactly when the entry has a question mark and is the identity otherwise |
| Exchange.StripFirstQuestionRemovesOne | src/js/app.js:986 | only the first question mark goes: the text before it stays and the text after it moves up by one |
| Exchange.ExactEntryFindsStation | src/js/app.js:985-991 | with a matcher that rates each callsign a perfect match for itself, an entry equal to a calling station's callsign once its first '?' is dropped always finds a perfect match, at that station or an earlier one |
| Exchange.FirstPerfect | src/js/app.js:990-991 | `indexOf('perfect')`: none exactly when no station matched perfectly, else the first perfect position |
| Exchange.PartialStations | src/js/app.js:1060-1062 | the filter keeps exactly the partially matching stations, without duplicates |
| Exchange.CutNumbersPointwise | src/js/app.js:1150-1163 | cut numbers replace each digit that has a cut letter and leave every other character alone |
| Exchange.CutNumbersKeepsDigitFreeText | src/js/app.js:1150-1163 | text without digits, or with an empty cut map, is unchanged |
| Exchange.DigitPrefixIsLongest | src/js/app.js:1490 | `parseInt` reads the longest run of digits, and what follows is not a digit |
| Exchange.DigitPrefixOfDigits | src/js/app.js:1490 | a string made of digits is read whole |
| Exchange.ParseIntOfNatToString | src/js/app.js:1490 | a number typed as it is rendered parses back to that number |
| Exchange.ParseIntExamples | src/js/app.js:1490-1493 | "12AB" parses to 12, " -7" to −7, and "" and "AB12" are NaN |
| Exchange.CompareExtraInfo | src/js/app.js:1482-1483 | only a missing field key gives the empty verdict |
| Exchange.CompareExtraInfoVerdicts | src/js/app.js:1485-1526 | number field: correct iff it parses to the station's number, unreadable iff NaN, otherwise wrong; text field: N/A iff the value is empty, correct iff the upper-cased trimmed entry equals the upper-cased value |
| Exchange.ExactNumberIsCorrect | src/js/app.js:1490-1500 | typing a station's number as rendered is marked correct |
| Exchange.SingleQsoAsWritten | src/js/app.js:1267-1304 | the confirmed single-path contact as written: it completes only when `theirSignoff` is a function |
| Exchange.TroubledLettersQsoThrows | src/js/app.js:1285-1306 | in troubled-letters mode the confirmed contact stops after the trainee's sign-off |
| Exchange.SingleQso | src/js/app.js:1267-1304 | the contact's messages, skipping a null `theirSignoff`; equal to the as-written run wherever that completes |
| Adaptive.Weight | src/js/adaptiveLearning.js:69-73 | a weight lies between 1 and 5 |
| Adaptive.Min' | src/js/adaptiveLearning.js:72 | `Math.min` is the smaller argument |
| Adaptive.WeightSteps | src/js/adaptiveLearning.js:69-73 | below 8 mistakes the weight is 1 + count/2; from 8 on it is 5 |
| Adaptive.WeightIgnoresCase | src/js/adaptiveLearning.js:70 | upper- and lower-case letters share one weight |
| Adaptive.WeightMonotone | src/js/adaptiveLearning.js:69-73 | more mistakes never lower a weight |
| Adaptive.TallyCounts | src/js/adaptiveLearning.js:48-51 | tallying adds, for every character, the number of times it was missed |
| Adaptive.TallyKeys | src/js/adaptiveLearning.js:48-51 | tallying adds keys only for missed characters, never removes a key and never lowers a count |
| Adaptive.MissRaisesWeight | src/js/adaptiveLearning.js:48-73 | a recorded miss raises the character's weight by at least half a unit unless it was capped |
| Adaptive.MissedNothingWhenCorrect | src/js/adaptiveLearning.js:45 | a correct entry records nothing |
| Adaptive.EqualUpToCaseRecordsNothing | src/js/adaptiveLearning.js:34-45 | an entry equal to the callsign up to case records nothing |
| Adaptive.MissPositionsStep | src/js/adaptiveLearning.js:40-47 | one more position adds itself to a character's miss positions exactly when it is a miss of that character |
| Adaptive.MissedCountsPositions | src/js/adaptiveLearning.js:40-57 | each character is recorded once per position where the entry is short or differs and the character is a letter or digit |
| Adaptive.TallyAppendOne | src/js/adaptiveLearning.js:47-51 | tallying one more missed character raises that character's count by one (from zero when it had no key) |
| Adaptive.TallyMissedStep | src/js/adaptiveLearning.js:40-57 | one iteration adds the position's character to the tally exactly when it is a miss |
| Adaptive.BumpKeepsWellFormed | src/js/adaptiveLearning.js:47-51 | counting a letter or digit keeps every key a letter or digit with a positive count |
| Adaptive.Weights | src/js/adaptiveLearning.js:90-96 | one weight per character, each between the base weight 1 and the cap 5 |
| Adaptive.CumIncreasing | src/js/adaptiveLearning.js:99-115 | with weights of at least one, each extra position adds at least one unit to the running sum |
| Adaptive.TotalAtLeastLength | src/js/adaptiveLearning.js:99-104 | the total weight is at least the alphabet length, so the uniform fallback is unreachable |
| Adaptive.PickFrom | src/js/adaptiveLearning.js:110-119 | the scan returns a position of a non-empty alphabet |
| Adaptive.PickFromInBand | src/js/adaptiveLearning.js:110-119 | the scan from a position stops where the running sum first reaches the value |
| Adaptive.PickInBand | src/js/adaptiveLearning.js:110-119 | with the value below the total, the chosen position's band of the running sum holds it |
| Adaptive.PickUnique | src/js/adaptiveLearning.js:110-119 | no other position's band holds the value |
| Adaptive.ScaledBelow | src/js/adaptiveLearning.js:107 | `Math.random() * totalWeight` lies in [0, total) |
| Adaptive.DrawInBand | src/js/adaptiveLearning.js:84-120 | for every random value the drawn character is the one whose band holds the scaled value, and only that one |
| Adaptive.DrawFromOneCharacter | src/js/adaptiveLearning.js:84-120 | a one-character alphabet always gives that character |
| Adaptive.SelectByWeight | src/js/adaptiveLearning.js:110-119 | the selection loop returns the character the scan picks |
| Adaptive.MistakeTracker.RecordMistakes | src/js/adaptiveLearning.js:31-58 | nothing changes for an empty argument; otherwise the tally grows by the missed letters and digits of the upper-cased strings, and stays well formed |
| Adaptive.MistakeTracker.WeightedRandomChar | src/js/adaptiveLearning.js:84-120 | empty alphabet gives ""; otherwise the character drawn for the random value |
| Adaptive.MistakeTracker.ResetAdaptiveLearning | src/js/adaptiveLearning.js:127-130 | the tally is emptied, so every weight is back to one |
| Adaptive.MistakeTracker.GetMistakeStats | src/js/adaptiveLearning.js:139-141 | a copy of the tally: same keys and counts, each key a letter or digit with a positive count |
| Adaptive.MistakeTracker.HasRecordedMistakes | src/js/adaptiveLearning.js:148-150 | true exactly when some character's weight is above the base weight |
| Session.Draws | src/js/app.js:897-901 | the generator's first n draws, in order |
| Session.RefillReachesMinimum | src/js/app.js:1032-1046 | after a contact the pool holds at least the minimum, exactly the minimum if it fell below, and nothing joins when the 40% chance fails |
| Session.FirstCqBringsMinimum | src/js/app.js:895-901 | the first CQ into an empty pool brings exactly the minimum number of stations |
| Session.Removed | src/js/app.js:1028 | `splice(k, 1)` removes exactly the station at k and keeps the others in order |
| Session.TuOutcomes | src/js/app.js:1364-1378 | one verdict per checked field: two in SST and CWT, one otherwise |
| Session.TuChecksPerMode | src/js/app.js:1364-1378 | POTA compares the state; SST compares name and state; CWT compares name and CWops number |
| Session.Session.constructor | src/js/app.js:55-66 | the page starts with no stations, no selection, no contacts and the lock free |
| Session.Session.Cq | src/js/app.js:862-916 | refused while audio plays, or while a station calls in a single-station mode; invalid settings only clear them; otherwise the trainee's station calls CQ and the pool grows or the next station calls |
| Session.Session.CqPool | src/js/app.js:893-910 | multi-station CQ: the pool grows by the CQ draws, every station answers, and the pool is the last to have answered |
| Session.Session.CqStation | src/js/app.js:881-915 | single-station CQ: the trainee's station is made and the next station calls |
| Session.Session.NextSingleStation | src/js/app.js:1537-1560 | a fresh station from the generator calls, attempts restart at 0, and its start time is the end of its call |
| Session.Session.Send | src/js/app.js:925-1343 | refused while audio plays; an empty entry calls CQ only when no station is calling; otherwise the mode's multi- or single-station rules apply; a refused or empty entry leaves every station object as it was, and no branch changes a station outside the one QRS slows |
| Session.Session.SendMulti | src/js/app.js:944-1205 | repeat: all stations answer again; QRS: the last responders are slowed and answer; every branch but a confirmed match counts one attempt |
| Session.Session.AnswerEntry | src/js/app.js:985-991 | the entry is classified against every calling station and the first perfect match decides (the TU-step branch repeats this at 1118-1124) |
| Session.Session.AnswerPerfect | src/js/app.js:990-1000 | a perfect match with a '?' gets "RR" and one more attempt; otherwise the contact goes ahead (the TU-step branch repeats this at 1123-1133) |
| Session.Session.AnswerOthers | src/js/app.js:1058-1077 | partial matches answer and become the last responders; with none, contest stations all answer again and TU-step stations stay silent (as at 1186-1205) |
| Session.Session.LogContest | src/js/app.js:1000-1055 | contest confirmed match: "E", the contact is logged with its attempts, the station leaves, the pool is topped up and every remaining station calls |
| Session.Session.SpliceAndTopUp | src/js/app.js:1028-1047 | the worked station leaves and the refill draws are appended; no station is listed twice |
| Session.Session.TopUp | src/js/app.js:1032-1047 | the stations left after the splice stay in front, followed by enough new stations to reach the minimum, else by what `addStations` adds if the 40% chance comes up; no station is listed twice |
| Session.Session.SendExchange | src/js/app.js:1133-1182 | TU-step confirmed match: both exchanges with cut numbers when enabled, one more attempt, and the station is selected for TU |
| Session.Session.SendSingle | src/js/app.js:1207-1341 | single station: repeat, partial and no match make it call again; QRS slows it first; '?' gets "RR"; each counts one attempt |
| Session.Session.LogSingle | src/js/app.js:1254-1324 | single confirmed match: the attempt is counted, the scripted close plays, the contact is logged and the next station calls |
| Session.Session.Tu | src/js/app.js:1351-1468 | refused while audio plays, or unless the mode has a TU step and a station is selected; otherwise the contact completes |
| Session.Session.CompleteTu | src/js/app.js:1362-1467 | the selected station is logged with the field verdicts; sign-offs play; the selection clears; the station leaves; the pool is topped up |
| Session.Session.Stop | src/js/app.js:1568-1582 | station state is cleared; the log, the contact count and the audio lock are kept |
| Session.Session.ResetGameState | src/js/app.js:819-836 | stations, selection, counters and log are cleared and the lock is released; the stations that answered last are kept |
| Session.Session.Reset | src/js/app.js:1590-1616 | the same clearing as `resetGameState`, the last responders kept as well |
| Session.Session.ChangeMode | src/js/app.js:844-853 | the mode changes and the game state is cleared as `resetGameState` clears it |

## Left out

- DOM work is not modelled: focus, field clearing, button enabling, the results table's HTML and the active-station counter. The results table is the `results` sequence of `Contact` rows. `compareExtraInfo`'s HTML is the `FieldOutcome` datatype.
- Audio is not modelled: players, background static and its 2-second delay, and exact timing offsets. Each handler's final lock time arrives as `env.finish`. The messages it plays are the returned cues.
- `Session.Session.Stop`: `stopAllAudio` lives in audio.js, which is not part of this model, so its effect on the audio lock is not modelled. `stop` itself never calls `updateAudioLock`, so the model leaves the lock as it was. `Reset` and `ResetGameState` zero it through their own `updateAudioLock(0)` calls.
- Station and collaborator code is not part of this model: util.js, audio.js, stationGenerator.js and inputs.js. `compareStrings`, `getCallingStation`, `getYourStation`, `addStations` and `getInputs` are parameters.
- `console.log` and `printStation` are not modelled. `localStorage` and `applyModeSettings` are not modelled.
- Case mapping covers ASCII only. The white-space set of `trim` and `parseInt` is the ASCII set plus NBSP and BOM.
- `parseInt` precision is not modelled: numbers are unbounded integers.
- Times are `real`s, not IEEE doubles.
- Weights are exact reals, not IEEE doubles. With steps of one half they are exact as doubles too.
- Order of effects:
  - In a multi-station CQ the pool grows before the trainee's station object is made.
  - In the TU step and in contest logging the contact count and the log are updated after the splice; the code updates them before it.
  - Neither change affects any observable value.
- `Adaptive.MistakeTracker.WeightedRandomChar` leaves out the uniform fallback after `totalWeight <= 0`. It is proved unreachable.
- `Adaptive.MistakeTracker.HasRecordedMistakes` is stated on the well-formed tally, where a key exists exactly when some weight is above one.
- The contest prefix weights in `modeUIConfig` are not modelled.

## Findings

| source | as written | input that shows it | evidently intended | confidence | as-written member | corrected member |
|---|---|---|---|---|---|---|
| src/js/app.js:1295-1306 | `send` calls `modeConfig.theirSignoff(...)` on a confirmed single-path match, but troubled-letters mode holds `null` there (src/js/modes.js:224) | troubled-letters mode, a station calling, its callsign entered exactly | skip the station's sign-off as `tu` does (app.js:1401), then count and log the contact | not executed | Exchange.SingleQsoAsWritten (with Exchange.TroubledLettersQsoThrows) | Exchange.SingleQso |

The throw happens before `totalContacts++` and before the next station is fetched. So as written, a correct entry in troubled-letters mode never logs a contact. The session model uses the corrected sequence.

Two behaviours of the code worth noting:
- `cq` in a multi-station mode adds exactly the minimum only when the pool is empty. Otherwise it adds what `addStations` adds.
- `tu` with invalid settings throws after the station is spliced out. The model keeps those changes.
