/** mlb/stats/stats.py: the integer counters of `Stats` and how one pitch
    updates them. The float accumulators and the hard-hit count, which
    parse floats, are not part of this model. */
module Stats {
  import opened Common

  /** The fields of one Statcast pitch that the integer counters read. An
      empty string is a missing value; `launch_speed_angle` is None when
      missing. */
  datatype Pitch = Pitch(
    events: string,
    pitchType: string,
    description: string,
    strikes: int,
    bbType: string,
    launchSpeedAngle: Option<int>)

  /** The integer counters of a `Stats` object, as a value. */
  datatype Counters = Counters(
    balls: nat,
    calledStrikes: nat,
    swingingStrikes: nat,
    fouls: nat,
    missedBunts: nat,
    twoStrikePitches: nat,
    numberOfPitches: nat,
    plateAppearances: nat,
    atBats: nat,
    singles: nat,
    doubles: nat,
    triples: nat,
    homeRuns: nat,
    walks: nat,
    hitByPitches: nat,
    strikeouts: nat,
    flyBalls: nat,
    groundBalls: nat,
    lineDrives: nat,
    popups: nat,
    lsaWeak: nat,
    lsaTopped: nat,
    lsaUnder: nat,
    lsaFlareBurner: nat,
    lsaSolid: nat,
    lsaBarrel: nat,
    stolenBases: nat,
    caughtStealing: nat)

  const Zero := Counters(0, 0, 0, 0, 0, 0, 0, 0, 0, 0, 0, 0, 0, 0, 0, 0, 0, 0, 0, 0, 0, 0, 0, 0, 0, 0, 0, 0)

  /** `hits()`. */
  function Hits(c: Counters): (h: nat)
    ensures h >= c.singles && h >= c.doubles && h >= c.triples && h >= c.homeRuns
    ensures h == 0 <==> c.singles == 0 && c.doubles == 0 && c.triples == 0 && c.homeRuns == 0
  {
    c.singles + c.doubles + c.triples + c.homeRuns
  }

  /** `batted_ball_events()`. */
  function BattedBallEvents(c: Counters): (n: nat)
    ensures n >= c.flyBalls && n >= c.groundBalls && n >= c.lineDrives && n >= c.popups
    ensures n == 0 <==> c.flyBalls == 0 && c.groundBalls == 0 && c.lineDrives == 0 && c.popups == 0
  {
    c.flyBalls + c.groundBalls + c.lineDrives + c.popups
  }

  /** The counters' invariant: an at-bat is only ever counted together with a plate appearance. */
  predicate CountersValid(c: Counters) {
    c.atBats <= c.plateAppearances
  }

  /** The batter is charged a plate appearance for this pitch's event. */
  predicate IsPlateAppearance(events: string) {
    events != ""
    && !ContainsSub(events, "caught_stealing")
    && !ContainsSub(events, "pickoff")
    && !ContainsSub(events, "stolen_base")
    && events !in ["balk", "passed_ball", "wild_pitch"]
  }

  /** The batter is charged an at-bat for this pitch's event. */
  predicate IsAtBat(events: string) {
    IsPlateAppearance(events)
    && events != "catcher_interf"
    && !ContainsSub(events, "sac_bunt")
    && !ContainsSub(events, "sac_fly")
  }

  /** The one strike counter a strike ("S") pitch's description raises, if any. */
  datatype StrikeKind = FoulStrike | CalledStrike | SwingingStrike | MissedBunt | NoStrikeKind

  function StrikeKindOf(description: string): (k: StrikeKind)
    ensures k == FoulStrike <==> description in ["bunt_foul_tip", "foul", "foul_bunt", "foul_tip"]
    ensures k == CalledStrike <==> description in ["called_strike", "unknown_strike"]
    ensures k == SwingingStrike <==> (description !in ["bunt_foul_tip", "foul", "foul_bunt", "foul_tip"]
              && description !in ["called_strike", "unknown_strike"] && ContainsSub(description, "swinging_strike"))
    ensures k == MissedBunt ==> description == "missed_bunt"
    ensures k == NoStrikeKind ==> description != "missed_bunt" && !ContainsSub(description, "swinging_strike")
  {
    if description in ["bunt_foul_tip", "foul", "foul_bunt", "foul_tip"] then FoulStrike
    else if description in ["called_strike", "unknown_strike"] then CalledStrike
    else if ContainsSub(description, "swinging_strike") then SwingingStrike
    else if description == "missed_bunt" then MissedBunt
    else NoStrikeKind
  }

  /** `bb_type.replace("_", "").replace(" ", "").lower()`. */
  function NormalizeBbType(s: string): (r: string)
    ensures '_' !in r && ' ' !in r
    ensures forall i :: 0 <= i < |r| ==> !('A' <= r[i] <= 'Z')
    ensures |r| <= |s|
  {
    var stripped := RemoveChar(RemoveChar(s, '_'), ' ');
    var r := Lower(stripped);
    assert forall i :: 0 <= i < |r| ==> r[i] == LowerChar(stripped[i]);
    assert forall i :: 0 <= i < |stripped| ==> stripped[i] in stripped;
    r
  }

  /** Normalising an already normalised batted-ball type changes nothing. */
  lemma {:induction false} NormalizeBbTypeIdempotent(s: string)
    ensures NormalizeBbType(NormalizeBbType(s)) == NormalizeBbType(s)
  {
    var n := NormalizeBbType(s);
    RemoveCharAbsent(n, '_');
    RemoveCharAbsent(n, ' ');
    LowerIdempotent(RemoveChar(RemoveChar(s, '_'), ' '));
  }

  /** Normalising works piecewise, so a type normalises character by character. */
  lemma NormalizeBbTypeAppend(a: string, b: string)
    ensures NormalizeBbType(a + b) == NormalizeBbType(a) + NormalizeBbType(b)
  {
    RemoveCharAppend(a, b, '_');
    RemoveCharAppend(RemoveChar(a, '_'), RemoveChar(b, '_'), ' ');
    LowerAppend(RemoveChar(RemoveChar(a, '_'), ' '), RemoveChar(RemoveChar(b, '_'), ' '));
  }

  /** One character normalises to nothing when it is `_` or a space, and to its lower case otherwise. */
  lemma NormalizeBbTypeChar(x: char)
    ensures NormalizeBbType([x]) == if x == '_' || x == ' ' then [] else [LowerChar(x)]
  {
    assert [x][1..] == [];
    if x != '_' {
      assert RemoveChar([x], '_') == [x];
    }
  }

  lemma {:induction false} RemoveCharAbsent(s: string, c: char)
    requires c !in s
    ensures RemoveChar(s, c) == s
  {
    if s != [] {
      assert s[0] != c;
      RemoveCharAbsent(s[1..], c);
      assert s == [s[0]] + s[1..];
    }
  }

  /** The batted-ball counter a `bb_type` raises, if any. */
  datatype BattedBallKind = FlyBall | GroundBall | LineDrive | Popup | NoBattedBall

  function BattedBallKindOf(bbType: string): (k: BattedBallKind)
    ensures bbType == "" ==> k == NoBattedBall
    ensures k == FlyBall <==> bbType != "" && NormalizeBbType(bbType) == "flyball"
    ensures k == GroundBall <==> bbType != "" && NormalizeBbType(bbType) == "groundball"
    ensures k == LineDrive <==> bbType != "" && NormalizeBbType(bbType) == "linedrive"
    ensures k == Popup <==> bbType != "" && NormalizeBbType(bbType) == "popup"
  {
    if bbType == "" then NoBattedBall
    else
      var v := NormalizeBbType(bbType);
      if v == "flyball" then FlyBall
      else if v == "groundball" then GroundBall
      else if v == "linedrive" then LineDrive
      else if v == "popup" then Popup
      else NoBattedBall
  }

  function Inc(b: bool): nat { if b then 1 else 0 }

  /** The counters after `_increment_batted_ball_type(bbType)`: the counter
      of the type's kind, if it has one, is one higher. */
  function AfterBattedBallType(c: Counters, bbType: string): Counters {
    var k := BattedBallKindOf(bbType);
    c.(flyBalls := c.flyBalls + Inc(k == FlyBall),
       groundBalls := c.groundBalls + Inc(k == GroundBall),
       lineDrives := c.lineDrives + Inc(k == LineDrive),
       popups := c.popups + Inc(k == Popup))
  }

  /** The counters after `_increment_lsa_type(lsa)`: bucket 1..6 is one higher. */
  function AfterLsaType(c: Counters, lsa: Option<int>): Counters {
    c.(lsaWeak := c.lsaWeak + Inc(lsa == Some(1)),
       lsaTopped := c.lsaTopped + Inc(lsa == Some(2)),
       lsaUnder := c.lsaUnder + Inc(lsa == Some(3)),
       lsaFlareBurner := c.lsaFlareBurner + Inc(lsa == Some(4)),
       lsaSolid := c.lsaSolid + Inc(lsa == Some(5)),
       lsaBarrel := c.lsaBarrel + Inc(lsa == Some(6)))
  }

  function LsaSum(c: Counters): nat {
    c.lsaWeak + c.lsaTopped + c.lsaUnder + c.lsaFlareBurner + c.lsaSolid + c.lsaBarrel
  }

  /** A launch-speed-angle of 1..6 raises exactly its own bucket by one;
      any other value raises none. Nothing else changes. */
  lemma LsaTypeBuckets(c: Counters, lsa: Option<int>)
    ensures var d := AfterLsaType(c, lsa);
            LsaSum(d) == LsaSum(c) + (if lsa.Some? && 1 <= lsa.value <= 6 then 1 else 0)
            && (lsa == Some(1) <==> d.lsaWeak == c.lsaWeak + 1)
            && (lsa == Some(2) <==> d.lsaTopped == c.lsaTopped + 1)
            && (lsa == Some(3) <==> d.lsaUnder == c.lsaUnder + 1)
            && (lsa == Some(4) <==> d.lsaFlareBurner == c.lsaFlareBurner + 1)
            && (lsa == Some(5) <==> d.lsaSolid == c.lsaSolid + 1)
            && (lsa == Some(6) <==> d.lsaBarrel == c.lsaBarrel + 1)
            && d.(lsaWeak := c.lsaWeak, lsaTopped := c.lsaTopped, lsaUnder := c.lsaUnder,
                  lsaFlareBurner := c.lsaFlareBurner, lsaSolid := c.lsaSolid, lsaBarrel := c.lsaBarrel) == c
  {
  }

  /** A batted-ball type raises at most one counter, and `batted_ball_events()`
      grows by one exactly when it names one of the four kinds. */
  lemma BattedBallTypeCounts(c: Counters, bbType: string)
    ensures var d := AfterBattedBallType(c, bbType);
            BattedBallEvents(d) == BattedBallEvents(c) + (if BattedBallKindOf(bbType) != NoBattedBall then 1 else 0)
            && d.(flyBalls := c.flyBalls, groundBalls := c.groundBalls, lineDrives := c.lineDrives,
                  popups := c.popups) == c
  {
  }

  /** `add_pitch` steps 1-2: the pitch count, then the plate appearance and at-bat rules. */
  function PlateAppearanceStep(c: Counters, events: string): Counters {
    c.(numberOfPitches := c.numberOfPitches + 1,
       plateAppearances := c.plateAppearances + Inc(IsPlateAppearance(events)),
       atBats := c.atBats + Inc(IsAtBat(events)))
  }

  /** `add_pitch` step 3: ball or strike counters, by the pitch type. */
  function BallStrikeStep(c: Counters, p: Pitch): Counters {
    var ball := p.pitchType == "B";
    var strike := p.pitchType == "S";
    var k := StrikeKindOf(p.description);
    c.(balls := c.balls + Inc(ball),
       walks := c.walks + Inc(ball && p.events == "walk"),
       strikeouts := c.strikeouts + Inc(strike && ContainsSub(p.events, "strikeout")),
       fouls := c.fouls + Inc(strike && k == FoulStrike),
       calledStrikes := c.calledStrikes + Inc(strike && k == CalledStrike),
       swingingStrikes := c.swingingStrikes + Inc(strike && k == SwingingStrike),
       missedBunts := c.missedBunts + Inc(strike && k == MissedBunt))
  }

  /** `add_pitch` step 4: two-strike pitches. */
  function TwoStrikeStep(c: Counters, strikes: int): Counters {
    c.(twoStrikePitches := c.twoStrikePitches + Inc(strikes == 2))
  }

  /** The five outcome events are different strings, so at most one of them matches. */
  lemma OutcomeEventsDistinct()
    ensures "hit_by_pitch" != "single" && "hit_by_pitch" != "double" && "hit_by_pitch" != "triple"
    ensures "hit_by_pitch" != "home_run" && "single" != "double" && "single" != "triple"
    ensures "single" != "home_run" && "double" != "triple" && "double" != "home_run" && "triple" != "home_run"
  {
    assert "single"[0] != "double"[0];
    assert "triple"[0] != "double"[0] && "triple"[0] != "single"[0];
  }

  /** `add_pitch` step 5: the hit-by-pitch and hit counters, by the event. */
  function OutcomeStep(c: Counters, events: string): Counters {
    c.(hitByPitches := c.hitByPitches + Inc(events == "hit_by_pitch"),
       singles := c.singles + Inc(events == "single"),
       doubles := c.doubles + Inc(events == "double"),
       triples := c.triples + Inc(events == "triple"),
       homeRuns := c.homeRuns + Inc(events == "home_run"))
  }

  /** The counters after `add_pitch(p)`, step by step as the method applies them. */
  function AfterPitch(c: Counters, p: Pitch): Counters {
    var c5 := OutcomeStep(TwoStrikeStep(BallStrikeStep(PlateAppearanceStep(c, p.events), p), p.strikes), p.events);
    AfterLsaType(AfterBattedBallType(c5, p.bbType), p.launchSpeedAngle)
  }

  function StrikeSum(c: Counters): nat {
    c.fouls + c.calledStrikes + c.swingingStrikes + c.missedBunts
  }

  function OutcomeSum(c: Counters): nat {
    c.hitByPitches + c.singles + c.doubles + c.triples + c.homeRuns
  }

  /** One pitch adds one to the pitch count, and a plate appearance and an
      at-bat exactly by their rules. */
  lemma AddPitchPlateAppearances(c: Counters, p: Pitch)
    ensures var d := AfterPitch(c, p);
            d.numberOfPitches == c.numberOfPitches + 1
            && d.plateAppearances == c.plateAppearances + Inc(IsPlateAppearance(p.events))
            && d.atBats == c.atBats + Inc(IsAtBat(p.events))
  {
    var c1 := PlateAppearanceStep(c, p.events);
    assert c1.numberOfPitches == c.numberOfPitches + 1;
    assert c1.plateAppearances == c.plateAppearances + Inc(IsPlateAppearance(p.events));
    assert c1.atBats == c.atBats + Inc(IsAtBat(p.events));
  }

  /** Balls grow exactly for a ball, walks only for a ball ending in a walk,
      strikeouts only on a strike; a strike raises at most one of the four
      strike counters, and a ball raises none. */
  lemma AddPitchBallsAndStrikes(c: Counters, p: Pitch)
    ensures var d := AfterPitch(c, p);
            d.balls == c.balls + Inc(p.pitchType == "B")
            && d.walks == c.walks + Inc(p.pitchType == "B" && p.events == "walk")
            && d.strikeouts == c.strikeouts + Inc(p.pitchType == "S" && ContainsSub(p.events, "strikeout"))
            && StrikeSum(d) == StrikeSum(c) + Inc(p.pitchType == "S" && StrikeKindOf(p.description) != NoStrikeKind)
            && d.twoStrikePitches == c.twoStrikePitches + Inc(p.strikes == 2)
  {
    var c1 := PlateAppearanceStep(c, p.events);
    var c2 := BallStrikeStep(c1, p);
    assert c2.balls == c.balls + Inc(p.pitchType == "B");
    assert c2.walks == c.walks + Inc(p.pitchType == "B" && p.events == "walk");
    assert StrikeSum(c2) == StrikeSum(c) + Inc(p.pitchType == "S" && StrikeKindOf(p.description) != NoStrikeKind);
  }

  /** At most one of the hit-by-pitch and hit counters grows; hits grow
      exactly for a single, double, triple or home run; batted-ball events
      grow exactly when the batted-ball type names one of the four kinds. */
  lemma AddPitchOutcomes(c: Counters, p: Pitch)
    ensures var d := AfterPitch(c, p);
            OutcomeSum(d) == OutcomeSum(c) + Inc(p.events in ["hit_by_pitch", "single", "double", "triple", "home_run"])
            && Hits(d) == Hits(c) + Inc(p.events in ["single", "double", "triple", "home_run"])
            && d.hitByPitches == c.hitByPitches + Inc(p.events == "hit_by_pitch")
            && BattedBallEvents(d) == BattedBallEvents(c) + Inc(BattedBallKindOf(p.bbType) != NoBattedBall)
            && d.stolenBases == c.stolenBases && d.caughtStealing == c.caughtStealing
  {
    var c4 := TwoStrikeStep(BallStrikeStep(PlateAppearanceStep(c, p.events), p), p.strikes);
    assert OutcomeSum(c4) == OutcomeSum(c) && BattedBallEvents(c4) == BattedBallEvents(c);
    var c5 := OutcomeStep(c4, p.events);
    assert OutcomeSum(c5) == OutcomeSum(c) + Inc(p.events in ["hit_by_pitch", "single", "double", "triple", "home_run"]);
    BattedBallTypeCounts(c5, p.bbType);
  }

  /** Every at-bat event is a plate-appearance event, so one pitch never
      breaks `at_bats <= plate_appearances`. */
  lemma AddPitchKeepsValid(c: Counters, p: Pitch)
    requires CountersValid(c)
    ensures CountersValid(AfterPitch(c, p))
  {
    AddPitchPlateAppearances(c, p);
  }

  /** `Stats`: the integer counters, updated in place by `add_pitch`. They
      are held as one `Counters` record, each statement updating one of its fields. */
  class Stats {
    var counters: Counters

    predicate Valid()
      reads this
    {
      CountersValid(counters)
    }

    constructor ()
      ensures counters == Zero && Valid()
    {
      counters := Zero;
    }

    /** `_increment_lsa_type`. */
    method IncrementLsaType(lsa: Option<int>)
      modifies this
      ensures counters == AfterLsaType(old(counters), lsa)
    {
      if lsa.Some? && lsa.value != 0 {
        if lsa.value == 1 {
          counters := counters.(lsaWeak := counters.lsaWeak + 1);
        } else if lsa.value == 2 {
          counters := counters.(lsaTopped := counters.lsaTopped + 1);
        } else if lsa.value == 3 {
          counters := counters.(lsaUnder := counters.lsaUnder + 1);
        } else if lsa.value == 4 {
          counters := counters.(lsaFlareBurner := counters.lsaFlareBurner + 1);
        } else if lsa.value == 5 {
          counters := counters.(lsaSolid := counters.lsaSolid + 1);
        } else if lsa.value == 6 {
          counters := counters.(lsaBarrel := counters.lsaBarrel + 1);
        }
      }
    }

    /** `_increment_batted_ball_type`. */
    method IncrementBattedBallType(bbType: string)
      modifies this
      ensures counters == AfterBattedBallType(old(counters), bbType)
    {
      if bbType != "" {
        var v := NormalizeBbType(bbType);
        if v == "flyball" {
          counters := counters.(flyBalls := counters.flyBalls + 1);
        } else if v == "groundball" {
          counters := counters.(groundBalls := counters.groundBalls + 1);
        } else if v == "linedrive" {
          counters := counters.(lineDrives := counters.lineDrives + 1);
        } else if v == "popup" {
          counters := counters.(popups := counters.popups + 1);
        }
      }
    }

    /** Lines 122-135 of `add_pitch`: the pitch, plate-appearance and at-bat counts. */
    method CountPlateAppearance(events: string)
      modifies this
      ensures counters == PlateAppearanceStep(old(counters), events)
    {
      counters := counters.(numberOfPitches := counters.numberOfPitches + 1);
      if IsPlateAppearance(events) {
        counters := counters.(plateAppearances := counters.plateAppearances + 1);
        if events != "catcher_interf" && !ContainsSub(events, "sac_bunt") && !ContainsSub(events, "sac_fly") {
          counters := counters.(atBats := counters.atBats + 1);
        }
      }
    }

    /** Lines 137-152 of `add_pitch`: ball and strike counts. */
    method CountBallOrStrike(p: Pitch)
      modifies this
      ensures counters == BallStrikeStep(old(counters), p)
    {
      if p.pitchType == "B" {
        counters := counters.(balls := counters.balls + 1);
        if p.events == "walk" {
          counters := counters.(walks := counters.walks + 1);
        }
      } else if p.pitchType == "S" {
        CountStrike(p.events, p.description);
      }
    }

    /** Lines 142-152 of `add_pitch`: the counts of a strike. */
    method CountStrike(events: string, description: string)
      modifies this
      ensures counters == BallStrikeStep(old(counters), Pitch(events, "S", description, 0, "", None))
    {
      if ContainsSub(events, "strikeout") {
        counters := counters.(strikeouts := counters.strikeouts + 1);
      }
      if description in ["bunt_foul_tip", "foul", "foul_bunt", "foul_tip"] {
        counters := counters.(fouls := counters.fouls + 1);
      } else if description in ["called_strike", "unknown_strike"] {
        counters := counters.(calledStrikes := counters.calledStrikes + 1);
      } else if ContainsSub(description, "swinging_strike") {
        counters := counters.(swingingStrikes := counters.swingingStrikes + 1);
      } else if description == "missed_bunt" {
        counters := counters.(missedBunts := counters.missedBunts + 1);
      }
    }

    /** Lines 157-166 of `add_pitch`: the hit-by-pitch and hit counts. */
    method CountOutcome(events: string)
      modifies this
      ensures counters == OutcomeStep(old(counters), events)
    {
      OutcomeEventsDistinct();
      if events == "hit_by_pitch" {
        counters := counters.(hitByPitches := counters.hitByPitches + 1);
      } else if events == "single" {
        counters := counters.(singles := counters.singles + 1);
      } else if events == "double" {
        counters := counters.(doubles := counters.doubles + 1);
      } else if events == "triple" {
        counters := counters.(triples := counters.triples + 1);
      } else if events == "home_run" {
        counters := counters.(homeRuns := counters.homeRuns + 1);
      }
    }

    /** `add_pitch`: updates the counters as AfterPitch says, which keeps Valid. */
    method AddPitch(p: Pitch)
      requires Valid()
      modifies this
      ensures counters == AfterPitch(old(counters), p)
      ensures Valid()
    {
      ghost var c := counters;
      CountPlateAppearance(p.events);
      CountBallOrStrike(p);
      if p.strikes == 2 {
        counters := counters.(twoStrikePitches := counters.twoStrikePitches + 1);
      }
      CountOutcome(p.events);
      IncrementBattedBallType(p.bbType);
      IncrementLsaType(p.launchSpeedAngle);
      AddPitchKeepsValid(c, p);
    }
  }
}
